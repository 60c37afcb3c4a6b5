/**
 * The fan-out of `act:publish`: the rendered text, with the draft's media, to
 * every target channel in `targets()` order.
 */
module Publish {
  import opened Text
  import opened Schema
  import opened Drafts
  import opened Render

  /** The batches `f(chat)` of every target's chat, laid end to end in target
      order. */
  function FanOut(ts: seq<Target>, f: int -> seq<Outgoing>): seq<Outgoing>
    decreases |ts|
  {
    if ts == [] then [] else FanOut(ts[..|ts| - 1], f) + f(ts[|ts| - 1].chat)
  }

  /** Everything the publication sends: the same delivery to every channel, in
      target order. */
  function PublishPlan(ts: seq<Target>, text: string, media: seq<MediaItem>): seq<Outgoing> {
    FanOut(ts, chat => Delivery(chat, text, media))
  }

  /** `published_flags`: the flag of every target, in target order. */
  function Flags(ts: seq<Target>): seq<string> {
    seq(|ts|, i requires 0 <= i < |ts| => ts[i].flag)
  }

  /** The body of the loop over `targets()` for one channel: the media group
      and the rest of the text when there is media, the text alone otherwise. */
  method DeliverTo(chat: int, text: string, media: seq<MediaItem>) returns (batch: seq<Outgoing>)
    ensures batch == Delivery(chat, text, media)
  {
    if media != [] {
      var group := BuildMediaGroup(media, Caption(text));
      batch := [MediaGroupMessage(chat, group)];
      var rest := Continuation(text);
      if !IsBlank(rest) {
        batch := batch + [TextMessage(chat, rest)];
      }
    } else {
      batch := [TextMessage(chat, text)];
    }
  }

  /** The loop over `targets()`: one delivery per channel, then its flag. */
  method PublishToTargets(ts: seq<Target>, text: string, media: seq<MediaItem>)
    returns (sent: seq<Outgoing>, flags: seq<string>)
    ensures sent == PublishPlan(ts, text, media)
    ensures flags == Flags(ts)
  {
    ghost var f := chat => Delivery(chat, text, media);
    sent, flags := [], [];
    var i := 0;
    while i < |ts|
      invariant 0 <= i <= |ts|
      invariant sent == FanOut(ts[..i], f)
      invariant |flags| == i && forall k :: 0 <= k < i ==> flags[k] == ts[k].flag
    {
      var batch := DeliverTo(ts[i].chat, text, media);
      assert ts[..i + 1][..i] == ts[..i];
      assert batch == f(ts[i].chat);
      sent := sent + batch;
      flags := flags + [ts[i].flag];
      i := i + 1;
    }
    assert ts[..|ts|] == ts;
  }

  /** How many messages each channel receives: one, or two when there is media
      and the text runs past the caption with more than blanks. */
  function PerTarget(text: string, media: seq<MediaItem>): nat {
    if media != [] && !IsBlank(Continuation(text)) then 2 else 1
  }

  lemma DeliverySize(chat: int, text: string, media: seq<MediaItem>)
    ensures |Delivery(chat, text, media)| == PerTarget(text, media)
  {
  }

  /** One message per channel: channel `j` receives message `j`, which is its
      whole batch. */
  lemma {:induction false} FanOutSingle(ts: seq<Target>, f: int -> seq<Outgoing>)
    requires forall c :: |f(c)| == 1
    ensures var out := FanOut(ts, f);
      && |out| == |ts|
      && forall j :: 0 <= j < |ts| ==> [out[j]] == f(ts[j].chat)
    decreases |ts|
  {
    if ts != [] {
      var init := ts[..|ts| - 1];
      FanOutSingle(init, f);
      var out := FanOut(ts, f);
      forall j | 0 <= j < |ts| ensures [out[j]] == f(ts[j].chat) {
        if j < |init| {
          assert ts[j] == init[j];
        }
      }
    }
  }

  /** Two messages per channel: channel `j` receives messages `2j` and `2j + 1`,
      which are its whole batch. */
  lemma {:induction false} FanOutDouble(ts: seq<Target>, f: int -> seq<Outgoing>)
    requires forall c :: |f(c)| == 2
    ensures var out := FanOut(ts, f);
      && |out| == 2 * |ts|
      && forall j :: 0 <= j < |ts| ==> [out[2 * j], out[2 * j + 1]] == f(ts[j].chat)
    decreases |ts|
  {
    if ts != [] {
      var init := ts[..|ts| - 1];
      FanOutDouble(init, f);
      var out := FanOut(ts, f);
      forall j | 0 <= j < |ts| ensures [out[2 * j], out[2 * j + 1]] == f(ts[j].chat) {
        if j < |init| {
          assert ts[j] == init[j];
        }
      }
    }
  }

  /** The publication's layout when each channel receives one message. */
  lemma PlanLayoutSingle(ts: seq<Target>, text: string, media: seq<MediaItem>)
    requires PerTarget(text, media) == 1
    ensures var plan := PublishPlan(ts, text, media);
      && |plan| == |ts|
      && forall j :: 0 <= j < |ts| ==> [plan[j]] == Delivery(ts[j].chat, text, media)
  {
    var f := chat => Delivery(chat, text, media);
    forall c ensures |f(c)| == 1 {
      DeliverySize(c, text, media);
    }
    FanOutSingle(ts, f);
  }

  /** The publication's layout when each channel receives two messages. */
  lemma PlanLayoutDouble(ts: seq<Target>, text: string, media: seq<MediaItem>)
    requires PerTarget(text, media) == 2
    ensures var plan := PublishPlan(ts, text, media);
      && |plan| == 2 * |ts|
      && forall j :: 0 <= j < |ts| ==> [plan[2 * j], plan[2 * j + 1]] == Delivery(ts[j].chat, text, media)
  {
    var f := chat => Delivery(chat, text, media);
    forall c ensures |f(c)| == 2 {
      DeliverySize(c, text, media);
    }
    FanOutDouble(ts, f);
  }

  /** Without media every channel receives the rendered text as one message, and
      nothing else is sent. */
  lemma TextOnlyPublication(ts: seq<Target>, text: string)
    ensures var plan := PublishPlan(ts, text, []);
      && |plan| == |ts|
      && forall j :: 0 <= j < |ts| ==> plan[j] == TextMessage(ts[j].chat, text)
  {
    PlanLayoutSingle(ts, text, []);
  }

  /** With media and a blank (or empty) remainder every channel receives just the
      media group, captioned on its first item with the first 1024 characters. */
  lemma MediaPublicationShort(ts: seq<Target>, text: string, media: seq<MediaItem>)
    requires media != [] && IsBlank(Continuation(text))
    ensures var plan := PublishPlan(ts, text, media); var g := MediaGroupOf(media, Caption(text));
      && |plan| == |ts|
      && forall j :: 0 <= j < |ts| ==> plan[j] == MediaGroupMessage(ts[j].chat, g)
  {
    PlanLayoutSingle(ts, text, media);
    var plan := PublishPlan(ts, text, media);
    var g := MediaGroupOf(media, Caption(text));
    forall j | 0 <= j < |ts| ensures plan[j] == MediaGroupMessage(ts[j].chat, g) {
      var d := Delivery(ts[j].chat, text, media);
      assert d == [MediaGroupMessage(ts[j].chat, g)];
      assert [plan[j]][0] == d[0];
    }
  }

  /** With media and more than blanks past the caption every channel receives
      the media group and then the remainder of the text, channels following one
      another in target order. */
  lemma MediaPublicationLong(ts: seq<Target>, text: string, media: seq<MediaItem>)
    requires media != [] && !IsBlank(Continuation(text))
    ensures var plan := PublishPlan(ts, text, media); var g := MediaGroupOf(media, Caption(text));
      && |plan| == 2 * |ts|
      && forall j :: 0 <= j < |ts| ==>
           plan[2 * j] == MediaGroupMessage(ts[j].chat, g)
           && plan[2 * j + 1] == TextMessage(ts[j].chat, Continuation(text))
  {
    PlanLayoutDouble(ts, text, media);
    var plan := PublishPlan(ts, text, media);
    var g := MediaGroupOf(media, Caption(text));
    forall j | 0 <= j < |ts|
      ensures plan[2 * j] == MediaGroupMessage(ts[j].chat, g)
      ensures plan[2 * j + 1] == TextMessage(ts[j].chat, Continuation(text))
    {
      var d := Delivery(ts[j].chat, text, media);
      DeliveryGroupShape(ts[j].chat, text, media);
      var pair := [plan[2 * j], plan[2 * j + 1]];
      assert pair == d;
      assert pair[0] == d[0] && pair[1] == d[1];
    }
  }

  /** The chats a list of messages goes to. */
  function ChatsOf(out: seq<Outgoing>): set<int> {
    set m | m in out :: m.chat
  }

  /** The chats of the target channels. */
  function TargetChats(ts: seq<Target>): set<int> {
    set t | t in ts :: t.chat
  }

  lemma ChatsOfAppend(a: seq<Outgoing>, b: seq<Outgoing>)
    ensures ChatsOf(a + b) == ChatsOf(a) + ChatsOf(b)
  {
    forall c | c in ChatsOf(a + b) ensures c in ChatsOf(a) + ChatsOf(b) {
      var m :| m in a + b && m.chat == c;
    }
  }

  lemma TargetChatsSnoc(ts: seq<Target>, t: Target)
    ensures TargetChats(ts + [t]) == TargetChats(ts) + {t.chat}
  {
    forall c | c in TargetChats(ts + [t]) ensures c in TargetChats(ts) + {t.chat} {
      var u :| u in ts + [t] && u.chat == c;
    }
  }

  /** When every batch is non-empty and goes to its own chat only, the fan-out
      goes to exactly the targets' chats. */
  lemma {:induction false} FanOutReaches(ts: seq<Target>, f: int -> seq<Outgoing>)
    requires forall c :: f(c) != [] && ChatsOf(f(c)) == {c}
    ensures ChatsOf(FanOut(ts, f)) == TargetChats(ts)
    decreases |ts|
  {
    if ts != [] {
      var init, last := ts[..|ts| - 1], ts[|ts| - 1];
      FanOutReaches(init, f);
      ChatsOfAppend(FanOut(init, f), f(last.chat));
      assert ts == init + [last];
      TargetChatsSnoc(init, last);
    }
  }

  /** Nothing is sent anywhere but to a target channel, and every target channel
      receives at least one message. */
  lemma PlanReachesExactlyTargets(ts: seq<Target>, text: string, media: seq<MediaItem>)
    ensures ChatsOf(PublishPlan(ts, text, media)) == TargetChats(ts)
  {
    var f := chat => Delivery(chat, text, media);
    forall c ensures f(c) != [] && ChatsOf(f(c)) == {c} {
      var d := Delivery(c, text, media);
      DeliveryStaysInChat(c, text, media);
      DeliverySize(c, text, media);
      assert d[0] in d;
    }
    FanOutReaches(ts, f);
  }

  /** `" ".join(flags)`. */
  function JoinSpace(xs: seq<string>): string {
    if xs == [] then "" else if |xs| == 1 then xs[0] else xs[0] + " " + JoinSpace(xs[1..])
  }

  /** The confirmation the author receives after publishing. */
  const PublishedPrefix: string := "Добавлен пост в каналы: "

  /** With the Russian channel unset the confirmation names the Belarusian and
      the German channel, in that order. */
  lemma ConfirmationWithoutRussia(cfg: Config)
    requires cfg.chatRu == 0
    ensures Flags(Targets(cfg)) == ["🇧🇾", "🇩🇪"]
    ensures JoinSpace(Flags(Targets(cfg))) == "🇧🇾 🇩🇪"
  {
    var fs := Flags(Targets(cfg));
    assert fs == ["🇧🇾", "🇩🇪"];
    assert fs[1..] == ["🇩🇪"];
  }
}
