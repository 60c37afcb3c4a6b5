/**
 * The message and button handlers of bot.py over its two in-memory stores:
 * `DRAFTS` (user id to draft) and `MEDIA_GROUPS` (user id and album id to the
 * album's messages in arrival order). Each handler is a method of `DraftEngine`
 * that updates the stores the way the handler does and returns what it answers
 * and what it sends.
 */
module Bot {
  import opened Wrappers
  import opened Text
  import opened Schema
  import opened Drafts
  import opened Album
  import opened Render
  import opened Publish

  /** Who sent a message or pressed a button: the user id and the lower-cased
      username (`""` when the user has none). */
  datatype Sender = Sender(uid: int, username: string)

  /** The handler's answer in the chat or on the button, keyboards left out. */
  datatype Note =
    | Silent                      // the handler returns without answering
    | AccessDenied                // the refusal for users without access
    | NoDraft                     // the user has no draft
    | ModeMenu                    // the mode choice, after `/new` or `switch_mode`
    | Cancelled                   // the draft is dropped
    | AskReadyText                // ready mode chosen: paste the whole text
    | AskField(prompt: string)    // the prompt of one schema field
    | UnknownMode
    | UnknownAction
    | AddMoreHint
    | MediaCleared
    | OnlyReadyMode
    | OnlyWizardMode
    | PreviewFirst                // the draft is not finalized yet
    | EditMenu                    // the field keyboard
    | AskNewReadyText
    | PreviewResent
    | Published(flags: seq<string>)
    | ChooseModeHint              // free text before a mode was chosen
    | AlreadyFinalized            // free text after the wizard finished
    | Previewed                   // the preview was sent
    | AdminInput                  // the text answered a pending `/allow` or `/deny`
    | MediaAdded
    | AlbumAdded
    | Crash                       // the handler raises after the changes made so far

  /** `prompt_for(key)` as the answer it produces; `Crash` where the schema has
      no such key and the lookup raises. */
  function Ask(key: string): (n: Note)
    ensures n.AskField? <==> IsFieldKey(key)
    ensures n.AskField? ==> PromptFor(key) == Some(n.prompt)
  {
    match PromptFor(key)
    case Some(p) => AskField(p)
    case None => Crash
  }

  /** Every schema field has a prompt. */
  lemma AskSchemaField(i: nat)
    requires i < |Fields|
    ensures Ask(FieldKey(i)).AskField?
  {
    assert Fields[i].key == FieldKey(i);
  }

  /** The preview, when the draft is finalized; nothing otherwise. */
  function PreviewIfFinal(uid: int, d: Draft): seq<Outgoing> {
    if d.finalized then PreviewMessages(uid, d) else []
  }

  /** The confirmation the author receives after publishing to `flags`. */
  function Confirmation(uid: int, flags: seq<string>): Outgoing {
    TextMessage(uid, PublishedPrefix + JoinSpace(flags))
  }

  /** What `on_text` answers for a draft `d` that the text turned into `r`. */
  function TextNote(d: Draft, r: Draft): Note {
    match RouteText(d)
    case NoModeHint => ChooseModeHint
    case WizardDoneHint => AlreadyFinalized
    case WizardOverrun => Crash
    case WizardStep(_) => if r.step < |Fields| then Ask(FieldKey(r.step)) else Previewed
    case _ => Previewed
  }

  /** `on_text` on one draft once the text is stripped: the priority chain, then
      the preview where the chain ends with one. */
  method TextStep(uid: int, d: Draft, text: string) returns (r: Draft, note: Note, out: seq<Outgoing>)
    requires Inv(d)
    ensures r == ApplyText(d, text) && Inv(r)
    ensures note == TextNote(d, r)
    ensures note == Previewed ==> out == PreviewMessages(uid, r)
    ensures note != Previewed ==> out == []
  {
    r, note := TextChain(d, text);
    out := [];
    if note == Previewed {
      out := SendPreview(uid, r);
    }
  }

  /** The priority chain of `on_text`: a pending ready text first, then a pending
      field edit, then by mode. */
  method TextChain(d: Draft, text: string) returns (r: Draft, note: Note)
    requires Inv(d)
    ensures r == ApplyText(d, text) && Inv(r)
    ensures note == TextNote(d, r)
  {
    ApplyTextKeepsInv(d, text);
    if d.awaitingReadyText {
      assert RouteText(d) == ReplaceReady;
      r := d.(awaitingReadyText := false, readyText := text, finalized := true);
      return r, Previewed;
    }
    if PendingEdit(d) {
      assert RouteText(d) == EditOne(d.awaitingEditField.value);
      var key := d.awaitingEditField.value;
      r := d.(awaitingEditField := None);
      if key == ExtraKey {
        r := r.(extraText := text);
      } else {
        r := r.(data := r.data[key := text]);
      }
      r := r.(finalized := true);
      return r, Previewed;
    }
    r, note := ModeStep(d, text);
  }

  /** The rest of the chain, once nothing is pending: by mode. */
  method ModeStep(d: Draft, text: string) returns (r: Draft, note: Note)
    requires Inv(d) && !d.awaitingReadyText && !PendingEdit(d)
    ensures r == ApplyText(d, text)
    ensures note == TextNote(d, r)
  {
    r := d;
    if r.mode == NoMode {
      return r, ChooseModeHint;
    }
    if r.mode == Ready {
      r := r.(readyText := text, finalized := true);
      return r, Previewed;
    }
    if r.finalized {
      return r, AlreadyFinalized;
    }
    if r.step >= |Fields| {
      return r, Crash;
    }
    var key := FieldKey(r.step);
    assert RouteText(d) == WizardStep(key);
    if key == ExtraKey {
      r := r.(extraText := text);
    } else {
      r := r.(data := r.data[key := text]);
    }
    r := r.(step := r.step + 1);
    if r.step < |Fields| {
      return r, Ask(FieldKey(r.step));
    }
    r := r.(finalized := true);
    note := Previewed;
  }

  /** Every draft of a store keeps the draft invariant. */
  ghost predicate AllInv(ds: map<int, Draft>) {
    forall u :: u in ds ==> Inv(ds[u])
  }

  lemma StoreKeepsInv(ds: map<int, Draft>, uid: int, d: Draft)
    requires AllInv(ds) && Inv(d)
    ensures AllInv(ds[uid := d])
  {
  }

  /** Where `on_text` sends a text message. */
  datatype Gate = Ignored | ToAdmin | ToDraft

  /** Which way `on_text` lets a text through: commands and empty messages are
      ignored, a pending `/allow` or `/deny` of an admin comes first, and only a
      user with access and a draft reaches the draft. */
  function TextGate(cfg: Config, s: Sender, allowed: set<string>, adminPending: bool, raw: string,
                    ds: map<int, Draft>): Gate
  {
    if raw == "" || raw[0] == '/' then Ignored
    else if IsAdminId(cfg, s.uid) && adminPending then ToAdmin
    else if !HasAccess(cfg, s.uid, s.username, allowed) || s.uid !in ds then Ignored
    else ToDraft
  }

  /** `on_text` on the draft store. */
  method TextHandler(cfg: Config, ds: map<int, Draft>, s: Sender, allowed: set<string>, adminPending: bool, raw: string)
    returns (ds': map<int, Draft>, note: Note, out: seq<Outgoing>)
    requires AllInv(ds)
    ensures AllInv(ds')
    ensures var g := TextGate(cfg, s, allowed, adminPending, raw, ds);
      g != ToDraft ==> note == (if g == ToAdmin then AdminInput else Silent) && out == [] && ds' == ds
    ensures TextGate(cfg, s, allowed, adminPending, raw, ds) == ToDraft ==>
      var d := ds[s.uid]; var r := ApplyText(d, Strip(raw));
      && ds' == ds[s.uid := r]
      && note == TextNote(d, r)
      && (note == Previewed ==> out == PreviewMessages(s.uid, r))
      && (note != Previewed ==> out == [])
  {
    ds' := ds;
    if raw == "" || raw[0] == '/' {
      return ds, Silent, [];
    }
    if IsAdminId(cfg, s.uid) && adminPending {
      return ds, AdminInput, [];
    }
    if !HasAccess(cfg, s.uid, s.username, allowed) || s.uid !in ds {
      return ds, Silent, [];
    }
    var d;
    d, note, out := TextStep(s.uid, ds[s.uid], Strip(raw));
    StoreKeepsInv(ds, s.uid, d);
    ds' := ds[s.uid := d];
  }

  /** `on_act` on the draft store. */
  method ActHandler(cfg: Config, ds: map<int, Draft>, s: Sender, allowed: set<string>, action: string)
    returns (ds': map<int, Draft>, note: Note, out: seq<Outgoing>)
    requires AllInv(ds)
    ensures AllInv(ds')
    ensures !HasAccess(cfg, s.uid, s.username, allowed) ==> note == AccessDenied && out == [] && ds' == ds
    ensures HasAccess(cfg, s.uid, s.username, allowed) && s.uid !in ds ==> note == NoDraft && out == [] && ds' == ds
    ensures HasAccess(cfg, s.uid, s.username, allowed) && s.uid in ds ==>
              var d := ds[s.uid];
              && (action == "add_more" ==> note == AddMoreHint && out == [] && ds' == ds)
              && (action == "clear_media" ==>
                    && note == MediaCleared
                    && ds' == ds[s.uid := ClearMedia(d)]
                    && out == PreviewIfFinal(s.uid, ClearMedia(d)))
              && (action == "edit_ready" ==>
                    && out == []
                    && (d.mode != Ready ==> note == OnlyReadyMode && ds' == ds)
                    && (d.mode == Ready ==>
                          note == AskNewReadyText && ds' == ds[s.uid := RequestReadyEdit(d)]))
              && (action == "cancel" ==> note == Cancelled && out == [] && ds' == ds - {s.uid})
              && (action == "switch_mode" ==>
                    note == ModeMenu && out == [] && ds' == ds[s.uid := SwitchMode(d)])
              && (action == "edit_menu" ==>
                    && out == [] && ds' == ds
                    && note == (if d.mode != Wizard then OnlyWizardMode
                                else if !d.finalized then PreviewFirst
                                else EditMenu))
              && (action == "back_preview" ==>
                    && ds' == ds
                    && (!d.finalized ==> note == PreviewFirst && out == [])
                    && (d.finalized ==> note == PreviewResent && out == PreviewMessages(s.uid, d)))
              && (action == "publish" ==>
                    && (!d.finalized ==> note == PreviewFirst && out == [] && ds' == ds)
                    && (d.finalized ==>
                          var flags := Flags(Targets(cfg));
                          && note == Published(flags)
                          && out == PublishPlan(Targets(cfg), RenderFinalText(d), d.media)
                                    + [Confirmation(s.uid, flags)]
                          && ds' == ds - {s.uid}))
              && (action !in {"add_more", "clear_media", "edit_ready", "cancel", "switch_mode",
                              "edit_menu", "back_preview", "publish"} ==>
                    note == UnknownAction && out == [] && ds' == ds)
  {
    ds', out := ds, [];
    if !HasAccess(cfg, s.uid, s.username, allowed) {
      return ds, AccessDenied, [];
    }
    if s.uid !in ds {
      return ds, NoDraft, [];
    }
    var d := ds[s.uid];
    if action == "add_more" {
      note := AddMoreHint;
    } else if action == "clear_media" {
      d := d.(media := []);
      StoreKeepsInv(ds, s.uid, d);
      ds' := ds[s.uid := d];
      note := MediaCleared;
      if d.finalized {
        out := SendPreview(s.uid, d);
      }
    } else if action == "edit_ready" {
      if d.mode != Ready {
        return ds, OnlyReadyMode, [];
      }
      d := d.(awaitingReadyText := true);
      StoreKeepsInv(ds, s.uid, d);
      ds' := ds[s.uid := d];
      note := AskNewReadyText;
    } else if action == "cancel" {
      ds' := ds - {s.uid};
      note := Cancelled;
    } else if action == "switch_mode" {
      d := d.(mode := NoMode, finalized := false, step := 0, readyText := "", data := map[],
              extraText := "", awaitingEditField := None, awaitingReadyText := false);
      StoreKeepsInv(ds, s.uid, d);
      ds' := ds[s.uid := d];
      note := ModeMenu;
    } else if action == "edit_menu" {
      if d.mode != Wizard {
        note := OnlyWizardMode;
      } else if !d.finalized {
        note := PreviewFirst;
      } else {
        note := EditMenu;
      }
    } else if action == "back_preview" {
      if !d.finalized {
        return ds, PreviewFirst, [];
      }
      note := PreviewResent;
      out := SendPreview(s.uid, d);
    } else if action == "publish" {
      if !d.finalized {
        return ds, PreviewFirst, [];
      }
      var sent, flags := PublishToTargets(Targets(cfg), RenderFinalText(d), d.media);
      ds' := ds - {s.uid};
      note := Published(flags);
      out := sent + [Confirmation(s.uid, flags)];
    } else {
      note := UnknownAction;
    }
  }

  class DraftEngine {
    const config: Config
    var drafts: map<int, Draft>
    var albums: map<(int, string), seq<MediaMessage>>

    /** Every stored draft keeps the draft invariant, and no album buffer is empty
        (a buffer is created with its first message and dropped when flushed). */
    ghost predicate Valid()
      reads this
    {
      AllInv(drafts) && (forall k :: k in albums ==> albums[k] != [])
    }

    /** `has_access_user_id` / `has_access_cb` for this deployment. */
    predicate Granted(s: Sender, allowed: set<string>) {
      HasAccess(config, s.uid, s.username, allowed)
    }

    constructor (cfg: Config)
      ensures config == cfg && drafts == map[] && albums == map[]
      ensures Valid()
    {
      config := cfg;
      drafts := map[];
      albums := map[];
    }

    /** `/new`: a fresh draft replaces whatever the user had. */
    method New(s: Sender, allowed: set<string>) returns (note: Note)
      requires Valid()
      modifies this
      ensures Valid() && albums == old(albums)
      ensures !Granted(s, allowed) ==> note == AccessDenied && drafts == old(drafts)
      ensures Granted(s, allowed) ==> note == ModeMenu && drafts == old(drafts)[s.uid := NewDraft]
    {
      if !Granted(s, allowed) {
        return AccessDenied;
      }
      drafts := drafts[s.uid := NewDraft];
      note := ModeMenu;
    }

    /** `/cancel`: the draft, if any, is dropped. */
    method Cancel(s: Sender, allowed: set<string>) returns (note: Note)
      requires Valid()
      modifies this
      ensures Valid() && albums == old(albums)
      ensures !Granted(s, allowed) ==> note == AccessDenied && drafts == old(drafts)
      ensures Granted(s, allowed) ==> note == Cancelled && drafts == old(drafts) - {s.uid}
    {
      if !Granted(s, allowed) {
        return AccessDenied;
      }
      drafts := drafts - {s.uid};
      note := Cancelled;
    }

    /** The buttons `new:<choice>`. */
    method OnNewMode(s: Sender, allowed: set<string>, choice: string) returns (note: Note)
      requires Valid()
      modifies this
      ensures Valid() && albums == old(albums)
      ensures !Granted(s, allowed) ==> note == AccessDenied && drafts == old(drafts)
      ensures Granted(s, allowed) && s.uid !in old(drafts) ==> note == NoDraft && drafts == old(drafts)
      ensures Granted(s, allowed) && s.uid in old(drafts) && choice == "cancel" ==>
                note == Cancelled && drafts == old(drafts) - {s.uid}
      ensures Granted(s, allowed) && s.uid in old(drafts) && choice != "cancel" ==>
                && drafts == old(drafts)[s.uid := SelectMode(old(drafts)[s.uid], choice)]
                && note == (if choice == "ready" then AskReadyText
                            else if choice == "wizard" then Ask(FieldKey(0))
                            else UnknownMode)
    {
      if !Granted(s, allowed) {
        return AccessDenied;
      }
      if s.uid !in drafts {
        return NoDraft;
      }
      if choice == "cancel" {
        drafts := drafts - {s.uid};
        return Cancelled;
      }
      var d := drafts[s.uid];
      d := d.(awaitingEditField := None, awaitingReadyText := false, finalized := false);
      if choice == "ready" {
        d := d.(mode := Ready, step := 0, readyText := "", data := map[], extraText := "");
        note := AskReadyText;
      } else if choice == "wizard" {
        d := d.(mode := Wizard, step := 0, readyText := "", data := map[], extraText := "");
        note := Ask(FieldKey(0));
      } else {
        note := UnknownMode;
      }
      drafts := drafts[s.uid := d];
    }

    /** The buttons `act:<action>`. */
    method OnAct(s: Sender, allowed: set<string>, action: string) returns (note: Note, out: seq<Outgoing>)
      requires Valid()
      modifies this
      ensures Valid() && albums == old(albums)
      ensures !Granted(s, allowed) ==> note == AccessDenied && out == [] && drafts == old(drafts)
      ensures Granted(s, allowed) && s.uid !in old(drafts) ==> note == NoDraft && out == [] && drafts == old(drafts)
      ensures Granted(s, allowed) && s.uid in old(drafts) ==>
                var d := old(drafts)[s.uid];
                && (action == "add_more" ==> note == AddMoreHint && out == [] && drafts == old(drafts))
                && (action == "clear_media" ==>
                      && note == MediaCleared
                      && drafts == old(drafts)[s.uid := ClearMedia(d)]
                      && out == PreviewIfFinal(s.uid, ClearMedia(d)))
                && (action == "edit_ready" ==>
                      && out == []
                      && (d.mode != Ready ==> note == OnlyReadyMode && drafts == old(drafts))
                      && (d.mode == Ready ==>
                            note == AskNewReadyText && drafts == old(drafts)[s.uid := RequestReadyEdit(d)]))
                && (action == "cancel" ==> note == Cancelled && out == [] && drafts == old(drafts) - {s.uid})
                && (action == "switch_mode" ==>
                      note == ModeMenu && out == [] && drafts == old(drafts)[s.uid := SwitchMode(d)])
                && (action == "edit_menu" ==>
                      && out == [] && drafts == old(drafts)
                      && note == (if d.mode != Wizard then OnlyWizardMode
                                  else if !d.finalized then PreviewFirst
                                  else EditMenu))
                && (action == "back_preview" ==>
                      && drafts == old(drafts)
                      && (!d.finalized ==> note == PreviewFirst && out == [])
                      && (d.finalized ==> note == PreviewResent && out == PreviewMessages(s.uid, d)))
                && (action == "publish" ==>
                      && (!d.finalized ==> note == PreviewFirst && out == [] && drafts == old(drafts))
                      && (d.finalized ==>
                            var flags := Flags(Targets(config));
                            && note == Published(flags)
                            && out == PublishPlan(Targets(config), RenderFinalText(d), d.media)
                                      + [Confirmation(s.uid, flags)]
                            && drafts == old(drafts) - {s.uid}))
                && (action !in {"add_more", "clear_media", "edit_ready", "cancel", "switch_mode",
                                "edit_menu", "back_preview", "publish"} ==>
                      note == UnknownAction && out == [] && drafts == old(drafts))
    {
      drafts, note, out := ActHandler(config, drafts, s, allowed, action);
    }

    /** The buttons `edit:<key>`: in wizard mode the key becomes the pending edit
        and the draft stops being finalized, before the prompt is looked up. */
    method OnEditField(s: Sender, allowed: set<string>, key: string) returns (note: Note)
      requires Valid()
      modifies this
      ensures Valid() && albums == old(albums)
      ensures !Granted(s, allowed) ==> note == AccessDenied && drafts == old(drafts)
      ensures Granted(s, allowed) && s.uid !in old(drafts) ==> note == NoDraft && drafts == old(drafts)
      ensures Granted(s, allowed) && s.uid in old(drafts) && old(drafts)[s.uid].mode != Wizard ==>
                note == OnlyWizardMode && drafts == old(drafts)
      ensures Granted(s, allowed) && s.uid in old(drafts) && old(drafts)[s.uid].mode == Wizard ==>
                && note == Ask(key)
                && drafts == old(drafts)[s.uid := RequestFieldEdit(old(drafts)[s.uid], key)]
    {
      if !Granted(s, allowed) {
        return AccessDenied;
      }
      if s.uid !in drafts {
        return NoDraft;
      }
      var d := drafts[s.uid];
      if d.mode != Wizard {
        return OnlyWizardMode;
      }
      d := d.(awaitingEditField := Some(key), finalized := false);
      drafts := drafts[s.uid := d];
      note := Ask(key);
    }

    /** `on_text` for a free text `raw`; `adminPending` says whether the sender has
        a pending `/allow` or `/deny`. The draft changes as `ApplyText` says, and
        a finished edit, ready text or last wizard answer is followed by the
        preview. */
    method OnText(s: Sender, allowed: set<string>, adminPending: bool, raw: string)
      returns (note: Note, out: seq<Outgoing>)
      requires Valid()
      modifies this
      ensures Valid() && albums == old(albums)
      ensures var g := TextGate(config, s, allowed, adminPending, raw, old(drafts));
        g != ToDraft ==> note == (if g == ToAdmin then AdminInput else Silent) && out == [] && drafts == old(drafts)
      ensures TextGate(config, s, allowed, adminPending, raw, old(drafts)) == ToDraft ==>
                var d := old(drafts)[s.uid]; var r := ApplyText(d, Strip(raw));
                && drafts == old(drafts)[s.uid := r]
                && note == TextNote(d, r)
                && (note == Previewed ==> out == PreviewMessages(s.uid, r))
                && (note != Previewed ==> out == [])
    {
      drafts, note, out := TextHandler(config, drafts, s, allowed, adminPending, raw);
    }

    method OnAlbumPiece(s: Sender, allowed: set<string>, group: string, m: MediaMessage)
      requires Valid()
      modifies this
      ensures Valid() && drafts == old(drafts)
      ensures !(Granted(s, allowed) && s.uid in drafts) ==> albums == old(albums)
      ensures Granted(s, allowed) && s.uid in drafts ==>
                var key := (s.uid, group);
                albums == old(albums)[key := (if key in old(albums) then old(albums)[key] else []) + [m]]
    {
      if !Granted(s, allowed) || s.uid !in drafts {
        return;
      }
      var key := (s.uid, group);
      var buffered := if key in albums then albums[key] else [];
      albums := albums[key := buffered + [m]];
    }

    /** The delayed `finalize()` of an album: the buffer is taken out; when it held
        messages and the user still has a draft, they are sorted by message id,
        their media appended and the list cut back to ten, and a finalized draft
        is previewed again. */
    method Flush(uid: int, group: string) returns (note: Note, out: seq<Outgoing>)
      requires Valid()
      modifies this
      ensures Valid()
      ensures albums == old(albums) - {(uid, group)}
      ensures (uid, group) !in old(albums) || uid !in old(drafts) ==>
                note == Silent && out == [] && drafts == old(drafts)
      ensures (uid, group) in old(albums) && uid in old(drafts) ==>
                var r := AddAlbum(old(drafts)[uid], old(albums)[(uid, group)]);
                && drafts == old(drafts)[uid := r]
                && note == AlbumAdded
                && out == PreviewIfFinal(uid, r)
    {
      var key := (uid, group);
      var msgs := if key in albums then albums[key] else [];
      albums := albums - {key};
      if msgs == [] || uid !in drafts {
        return Silent, [];
      }
      var d := drafts[uid];
      var sorted := SortByMessageId(msgs);
      var media, added := AppendAll(d.media, sorted);
      d := d.(media := if |media| <= MaxMedia then media else media[..MaxMedia]);
      drafts := drafts[uid := d];
      note := AlbumAdded;
      out := if d.finalized then PreviewMessages(uid, d) else [];
    }

    /** `handle_single_media`: the message's photo, video or document is appended
        and the list cut back to ten; a finalized draft is previewed again. */
    method OnSingleMedia(s: Sender, allowed: set<string>, m: MediaMessage) returns (note: Note, out: seq<Outgoing>)
      requires Valid()
      modifies this
      ensures Valid() && albums == old(albums)
      ensures !(Granted(s, allowed) && s.uid in old(drafts)) ==> note == Silent && out == [] && drafts == old(drafts)
      ensures Granted(s, allowed) && s.uid in old(drafts) ==>
                var r := AddMedia(old(drafts)[s.uid], ItemsOf(m));
                && drafts == old(drafts)[s.uid := r]
                && note == MediaAdded
                && out == PreviewIfFinal(s.uid, r)
    {
      if !Granted(s, allowed) || s.uid !in drafts {
        return Silent, [];
      }
      var d := drafts[s.uid];
      var media := AttachMedia(d.media, m);
      d := d.(media := media);
      drafts := drafts[s.uid := d];
      note := MediaAdded;
      out := if d.finalized then PreviewMessages(s.uid, d) else [];
    }
  }
}
