/**
 * `render_wizard_post`, `render_final_text`, and the 1024-character caption
 * split that the preview and the publication share.
 */
module Render {
  import opened Wrappers
  import opened Text
  import opened Schema
  import opened Drafts
  import opened Layout

  /** The thirteen field lines of the wizard post: the text before each value
      and the key whose value follows. Lines are joined by a newline. */
  const TemplateLines: seq<(string, string)> := [
    ("🚗 ", "brand_model"),
    ("💰 Стоимость: ", "price"),
    ("📅 Дата первичной регистрации: ", "reg_date"),
    ("📏 Пробег: ", "mileage"),
    ("🛠 Объём двигателя: ", "engine"),
    ("⛽️ Вид топлива: ", "fuel"),
    ("⚙️ Коробка передач: ", "gearbox"),
    ("🔋 Гибрид / Электро: ", "hybrid"),
    ("🛡 Технический осмотр: ", "inspection"),
    ("👥 Колличество владельцев: ", "owners"),
    ("🧩 Комплектация: ", "trim"),
    ("👤 Продавец: ", "seller"),
    ("📌 Прозвон. Получена подробная информация от продавца: ", "callcheck")
  ]

  const ExtraHeading: string := "\n\n📝 Дополнительно:\n"

  /** The literal `"-"` that skips the optional remark when rendering. */
  const SkipMarker: string := "-"

  /** The fixed text between the field lines (or the remark) and the link. */
  const Closing: string :=
    "\n\n"
    + "💬 Заинтересовал автомобиль?\n"
    + "Напишите в ДИРЕКТ, чтобы получить детальный расчёт итоговой стоимости и полный обзор возможных нюансов и подводных камней при покупке этого автомобиля.\n\n"
    + "ℹ️  Пример автомобиля, доступного к приобретению.\n"
    + "Информация приведена на основе открытых данных объявления.\n\n"
    + "🔗 Ссылка может быть недоступна в отдельных регионах — это связано с локальными ограничениями доступа к сайту.\n\n"

  /** The template's lines name the first thirteen schema keys, in schema order;
      the link (14th) closes the post and the remark (15th) has its own block. */
  lemma TemplateFollowsSchema()
    ensures |TemplateLines| == FieldCount - 2
    ensures forall i :: 0 <= i < |TemplateLines| ==> TemplateLines[i].1 == FieldKey(i)
  {
  }

  /** The remark block is rendered when the stripped remark is neither empty nor
      the skip marker. */
  predicate HasExtraBlock(extraText: string) {
    var e := Strip(extraText);
    e != "" && e != SkipMarker
  }

  function ExtraBlock(extraText: string): string {
    if HasExtraBlock(extraText) then ExtraHeading + Strip(extraText) else ""
  }

  /** `render_wizard_post(d)`. */
  function RenderWizardPost(d: Draft): string {
    Post(JoinLines(TemplateLines, d.data), ExtraBlock(d.extraText), Closing, Value(d.data, LinkKey))
  }

  /** `render_final_text(d)`: any mode but ready renders the wizard post. */
  function RenderFinalText(d: Draft): string {
    if d.mode == Ready then Strip(d.readyText) else RenderWizardPost(d)
  }

  /** The ready-mode text is published stripped, whatever else the draft holds. */
  lemma ReadyRendersStripped(d: Draft)
    requires d.mode == Ready
    ensures RenderFinalText(d) == Strip(d.readyText)
    ensures RenderFinalText(d) == Strip(RenderFinalText(d))
  {
    StripIdempotent(d.readyText);
  }

  /** The closing text is longer than the remark heading and differs from it in
      its third character. */
  lemma ClosingFacts()
    ensures |Closing| >= |ExtraHeading| > 2 && Closing[2] != ExtraHeading[2]
  {
  }

  /** The wizard post starts with the field lines, in which the value stored
      under the `i`-th schema key sits at its offset ... */
  lemma WizardPostValueAt(d: Draft, i: nat)
    requires i < |TemplateLines|
    ensures var o := ValueOffset(TemplateLines, d.data, i); var v := Value(d.data, FieldKey(i));
      var r := RenderWizardPost(d);
      && o + |v| <= |r|
      && r[o..o + |v|] == v
  {
    TemplateFollowsSchema();
    FieldValueAt(RenderWizardPost(d), TemplateLines, d.data, ExtraBlock(d.extraText) + (Closing + Value(d.data, LinkKey)), i);
  }

  /** ... right after the prefix of its line ... */
  lemma WizardPostPrefixAt(d: Draft, i: nat)
    requires i < |TemplateLines|
    ensures var o := ValueOffset(TemplateLines, d.data, i); var p := TemplateLines[i].0;
      var r := RenderWizardPost(d);
      && |p| <= o <= |r|
      && r[o - |p|..o] == p
  {
    FieldPrefixAt(RenderWizardPost(d), TemplateLines, d.data, ExtraBlock(d.extraText) + (Closing + Value(d.data, LinkKey)), i);
  }

  /** ... and before the value of the next line. */
  lemma WizardPostFieldsInOrder(d: Draft, i: nat)
    requires i + 1 < |TemplateLines|
    ensures ValueOffset(TemplateLines, d.data, i) + |Value(d.data, FieldKey(i))| < ValueOffset(TemplateLines, d.data, i + 1)
  {
    TemplateFollowsSchema();
    OffsetIncreasing(TemplateLines, d.data, 0, i);
  }

  /** The wizard post ends with the link value. */
  lemma WizardPostEndsWithLink(d: Draft)
    ensures var r := RenderWizardPost(d); var link := Value(d.data, LinkKey);
      && |link| <= |r|
      && r[|r| - |link|..] == link
  {
    PostEndsWithLink(RenderWizardPost(d), JoinLines(TemplateLines, d.data), ExtraBlock(d.extraText), Closing, Value(d.data, LinkKey));
  }

  /** Right before the link value stands the fixed closing text. */
  lemma WizardPostClosingBeforeLink(d: Draft)
    ensures var r := RenderWizardPost(d); var n := |r| - |Value(d.data, LinkKey)|;
      && |Closing| <= n
      && r[n - |Closing|..n] == Closing
  {
    PostClosingBeforeLink(RenderWizardPost(d), JoinLines(TemplateLines, d.data), ExtraBlock(d.extraText), Closing, Value(d.data, LinkKey));
  }

  /** The remark block follows the field lines: the remark heading and the
      stripped remark when the remark is neither empty nor `"-"`, nothing
      otherwise. */
  lemma ExtraBlockShown(d: Draft)
    ensures var r := RenderWizardPost(d); var n := |JoinLines(TemplateLines, d.data)|;
      var eb := ExtraBlock(d.extraText);
      && n + |eb| <= |r|
      && r[n..n + |eb|] == eb
  {
    PostBlockAt(RenderWizardPost(d), JoinLines(TemplateLines, d.data), ExtraBlock(d.extraText), Closing, Value(d.data, LinkKey));
  }

  /** Conversely, without a rendered remark no remark heading follows the field
      lines: the closing text stands there, and it does not start like the
      heading. */
  lemma ExtraBlockOnlyWhenGiven(d: Draft)
    requires !HasExtraBlock(d.extraText)
    ensures var r := RenderWizardPost(d); var n := |JoinLines(TemplateLines, d.data)|;
      && n + |ExtraHeading| <= |r|
      && r[n..n + |ExtraHeading|] != ExtraHeading
  {
    ClosingFacts();
    PostHeadingAbsent(RenderWizardPost(d), JoinLines(TemplateLines, d.data), Closing, Value(d.data, LinkKey), ExtraHeading);
  }

  /** The field lines depend only on the values under the template's keys. */
  lemma FieldLinesDependOnSchema(d1: map<string, string>, d2: map<string, string>)
    requires forall i :: 0 <= i < FieldCount - 1 ==> Value(d1, FieldKey(i)) == Value(d2, FieldKey(i))
    ensures JoinLines(TemplateLines, d1) == JoinLines(TemplateLines, d2)
  {
    TemplateFollowsSchema();
    JoinFromDependsOnKeys(TemplateLines, d1, d2, 0);
  }

  /** The link is the value under a schema key. */
  lemma LinkDependsOnSchema(d1: map<string, string>, d2: map<string, string>)
    requires forall i :: 0 <= i < FieldCount - 1 ==> Value(d1, FieldKey(i)) == Value(d2, FieldKey(i))
    ensures Value(d1, LinkKey) == Value(d2, LinkKey)
  {
    SchemaShape();
    assert Value(d1, FieldKey(13)) == Value(d2, FieldKey(13));
  }

  /** The remark block depends only on the stripped remark. */
  lemma ExtraBlockDependsOnStrip(e1: string, e2: string)
    requires Strip(e1) == Strip(e2)
    ensures ExtraBlock(e1) == ExtraBlock(e2)
  {
  }

  /** Two drafts with the same values under the schema keys and the same stripped
      remark render the same post, whatever else their dictionaries hold. */
  lemma RenderDependsOnSchemaOnly(d1: Draft, d2: Draft)
    requires forall i :: 0 <= i < FieldCount - 1 ==> Value(d1.data, FieldKey(i)) == Value(d2.data, FieldKey(i))
    requires Strip(d1.extraText) == Strip(d2.extraText)
    ensures RenderWizardPost(d1) == RenderWizardPost(d2)
  {
    FieldLinesDependOnSchema(d1.data, d2.data);
    LinkDependsOnSchema(d1.data, d2.data);
    ExtraBlockDependsOnStrip(d1.extraText, d2.extraText);
  }

  /** Filling every wizard field in order with `"-"` as the remark finalizes the
      draft, and its post has no remark block. */
  lemma WizardSkipExample(d: Draft, texts: seq<string>)
    requires |texts| == FieldCount && texts[FieldCount - 1] == SkipMarker
    ensures var r := ApplyTexts(SelectMode(d, "wizard"), texts);
      && r.finalized && r.mode == Wizard && r.media == d.media
      && !HasExtraBlock(r.extraText) && ExtraBlock(r.extraText) == ""
  {
    WizardRun(SelectMode(d, "wizard"), texts);
    SkipMarkerRendersNothing();
  }

  lemma SkipMarkerRendersNothing()
    ensures !HasExtraBlock(SkipMarker) && ExtraBlock(SkipMarker) == ""
  {
    StripFixesTrimmed(SkipMarker);
  }

  /** Ready mode, text "Audi A6, 2020": the draft is finalized with that text, which
      is also what gets rendered. */
  lemma ReadyExample(d: Draft)
    requires Inv(d) && d.mode == Ready
    ensures var r := ApplyText(d, Strip("Audi A6, 2020"));
      r.finalized && r.readyText == "Audi A6, 2020" && RenderFinalText(r) == "Audi A6, 2020"
  {
    StripFixesTrimmed("Audi A6, 2020");
    ReadyTextReplaces(d, "Audi A6, 2020");
  }

  // ---------------------------------------------------------------- outgoing content

  /** The caption-length ceiling of one media item. */
  const CaptionLimit: nat := 1024

  /** `text[:1024]`. */
  function Caption(text: string): string {
    if |text| <= CaptionLimit then text else text[..CaptionLimit]
  }

  /** `text[1024:]`. */
  function Continuation(text: string): string {
    if |text| <= CaptionLimit then "" else text[CaptionLimit..]
  }

  /** The caption and its continuation are the text, split at 1024 characters. */
  lemma CaptionSplit(text: string)
    ensures Caption(text) + Continuation(text) == text
    ensures |Caption(text)| <= CaptionLimit
    ensures Continuation(text) != "" <==> |text| > CaptionLimit
    ensures |text| > CaptionLimit ==> |Caption(text)| == CaptionLimit
  {
  }

  /** One entry of a media group: an item with the caption it carries, if any. */
  datatype InputMedia = InputMedia(item: MediaItem, caption: Option<string>)

  /** A message sent by the bot, keyboards left out. */
  datatype Outgoing =
    | TextMessage(chat: int, body: string)
    | MediaGroupMessage(chat: int, group: seq<InputMedia>)

  /** The group built from `media[:10]`, the caption on item 0 only. */
  function MediaGroupOf(media: seq<MediaItem>, cap: string): seq<InputMedia> {
    var items := Clamp(media);
    seq(|items|, i requires 0 <= i < |items| => InputMedia(items[i], if i == 0 then Some(cap) else None))
  }

  /** The loop `for i, item in enumerate(d.media[:10])` that builds the group. */
  method BuildMediaGroup(media: seq<MediaItem>, cap: string) returns (group: seq<InputMedia>)
    ensures group == MediaGroupOf(media, cap)
    ensures |group| <= MaxMedia && |group| == |Clamp(media)|
    ensures forall i :: 0 <= i < |group| ==> group[i].item == media[i]
    ensures forall i :: 0 <= i < |group| ==> (group[i].caption.Some? <==> i == 0)
    ensures group != [] ==> group[0].caption == Some(cap)
  {
    var items := if |media| <= MaxMedia then media else media[..MaxMedia];
    group := [];
    var i := 0;
    while i < |items|
      invariant 0 <= i <= |items|
      invariant |group| == i
      invariant forall k :: 0 <= k < i ==> group[k] == InputMedia(items[k], if k == 0 then Some(cap) else None)
    {
      var c := if i == 0 then Some(cap) else None;
      group := group + [InputMedia(items[i], c)];
      i := i + 1;
    }
  }

  /** What one chat receives for a text with its media: the text alone when there
      is no media; otherwise the media group captioned with the first 1024
      characters, then the remainder as a text message unless it is blank. */
  function Delivery(chat: int, text: string, media: seq<MediaItem>): seq<Outgoing> {
    if media == [] then [TextMessage(chat, text)]
    else
      [MediaGroupMessage(chat, MediaGroupOf(media, Caption(text)))]
      + (if IsBlank(Continuation(text)) then [] else [TextMessage(chat, Continuation(text))])
  }

  /** Without media a chat receives the text as one message. */
  lemma DeliveryWithoutMedia(chat: int, text: string)
    ensures Delivery(chat, text, []) == [TextMessage(chat, text)]
  {
  }

  /** With media a chat first receives the media group, then at most the
      remainder of the text. */
  lemma DeliveryGroupShape(chat: int, text: string, media: seq<MediaItem>)
    requires media != []
    ensures var out := Delivery(chat, text, media);
      && 1 <= |out| <= 2
      && out[0] == MediaGroupMessage(chat, MediaGroupOf(media, Caption(text)))
      && (|out| == 2 <==> !IsBlank(Continuation(text)))
      && (|out| == 2 ==> out[1] == TextMessage(chat, Continuation(text)))
  {
  }

  /** Every message of a delivery goes to its chat. */
  lemma DeliveryStaysInChat(chat: int, text: string, media: seq<MediaItem>)
    ensures forall m | m in Delivery(chat, text, media) :: m.chat == chat
  {
  }

  /** A media group holds at most ten items, the caption on item 0 and on no other. */
  lemma MediaGroupCaptioned(media: seq<MediaItem>, cap: string)
    requires media != []
    ensures var g := MediaGroupOf(media, cap);
      && 0 < |g| <= MaxMedia
      && g[0].caption == Some(cap)
      && forall i :: 0 < i < |g| ==> g[i].caption == None
  {
  }

  /** With media no text is lost: the caption followed by the continuation
      message is the text, and the continuation is left out only when blank. */
  lemma DeliveryLosesNoText(chat: int, text: string, media: seq<MediaItem>)
    requires media != []
    ensures |Delivery(chat, text, media)| == 2 ==>
              Delivery(chat, text, media)[1].TextMessage? && Caption(text) + Delivery(chat, text, media)[1].body == text
    ensures |Delivery(chat, text, media)| == 1 ==> IsBlank(text[|Caption(text)|..])
  {
    CaptionSplit(text);
    if |text| <= CaptionLimit {
      assert text[|Caption(text)|..] == "";
    }
  }

  const PreviewHeader: string := "Предпросмотр:\n\n"
  const ChooseAction: string := "Выберите действие:"

  /** `send_preview(bot, uid, d)`. */
  function PreviewMessages(uid: int, d: Draft): seq<Outgoing> {
    var full := PreviewHeader + RenderFinalText(d);
    if d.media == [] then Delivery(uid, full, d.media)
    else Delivery(uid, full, d.media) + [TextMessage(uid, ChooseAction)]
  }

  /** `send_preview(bot, uid, d)`, with its loop over the media. */
  method SendPreview(uid: int, d: Draft) returns (out: seq<Outgoing>)
    ensures out == PreviewMessages(uid, d)
  {
    var full := PreviewHeader + RenderFinalText(d);
    if d.media == [] {
      return [TextMessage(uid, full)];
    }
    var group := BuildMediaGroup(d.media, Caption(full));
    out := [MediaGroupMessage(uid, group)];
    var rest := Continuation(full);
    if !IsBlank(rest) {
      out := out + [TextMessage(uid, rest)];
    }
    out := out + [TextMessage(uid, ChooseAction)];
  }

  /** The preview goes to the user only. */
  lemma PreviewStaysWithUser(uid: int, d: Draft)
    ensures forall m | m in PreviewMessages(uid, d) :: m.chat == uid
  {
    DeliveryStaysInChat(uid, PreviewHeader + RenderFinalText(d), d.media);
  }

  /** The preview begins, caption included, with the preview header and then the
      rendered text; with media it ends with the request to choose an action. */
  lemma PreviewShowsRendered(uid: int, d: Draft)
    ensures var out := PreviewMessages(uid, d); var full := PreviewHeader + RenderFinalText(d);
      && out != []
      && (d.media == [] ==> out == [TextMessage(uid, full)])
      && (d.media != [] ==> out[0].MediaGroupMessage? && out[0].group[0].caption == Some(Caption(full))
                            && out[|out| - 1] == TextMessage(uid, ChooseAction))
  {
    if d.media != [] {
      var full := PreviewHeader + RenderFinalText(d);
      DeliveryGroupShape(uid, full, d.media);
      MediaGroupCaptioned(d.media, Caption(full));
    }
  }
}
