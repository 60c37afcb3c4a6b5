/**
 * The per-user `Draft` record of bot.py and the pure effect of every handler on
 * one draft. The engine in module Bot applies these effects to the draft store.
 */
module Drafts {
  import opened Wrappers
  import opened Schema

  /** `Draft.mode`: `""`, `"ready"` or `"wizard"`. */
  datatype Mode = NoMode | Ready | Wizard

  datatype MediaKind = Photo | Video | Document

  /** One attached item, `{"type": ..., "file_id": ...}`. */
  datatype MediaItem = MediaItem(kind: MediaKind, fileId: string)

  /** The media list is cut back to this many items after every append. */
  const MaxMedia: nat := 10

  datatype Draft = Draft(
    mode: Mode,
    step: nat,
    data: map<string, string>,
    readyText: string,
    extraText: string,
    media: seq<MediaItem>,
    finalized: bool,
    awaitingEditField: Option<string>,
    awaitingReadyText: bool)

  /** `Draft()`: the record `/new` stores. */
  const NewDraft: Draft := Draft(NoMode, 0, map[], "", "", [], false, None, false)

  /** `v.get(key, '')`. */
  function Value(data: map<string, string>, key: string): string {
    if key in data then data[key] else ""
  }

  /** `if d.awaiting_edit_field:` is Python truthiness, so an empty key counts as
      no pending edit. */
  predicate PendingEdit(d: Draft) {
    d.awaitingEditField.Some? && d.awaitingEditField.value != ""
  }

  /** What every handler keeps true of every stored draft. */
  predicate Inv(d: Draft) {
    && |d.media| <= MaxMedia
    && d.step <= FieldCount
    && (d.mode != Wizard ==> d.step == 0)
    && (d.awaitingReadyText ==> d.mode == Ready)
    && (d.awaitingEditField.Some? ==> d.mode == Wizard)
    && (PendingEdit(d) ==> !d.finalized)
    && (d.mode == NoMode ==> !d.finalized)
  }

  lemma NewDraftInv()
    ensures Inv(NewDraft) && !NewDraft.finalized && NewDraft.media == []
  {
  }

  // ---------------------------------------------------------------- media

  /** `media[:10]`: the first (at most) ten items. */
  function Clamp(media: seq<MediaItem>): (r: seq<MediaItem>)
    ensures |r| <= MaxMedia
    ensures |r| == (if |media| <= MaxMedia then |media| else MaxMedia)
    ensures r == media[..|r|]
  {
    if |media| <= MaxMedia then media else media[..MaxMedia]
  }

  /** Appending then clamping keeps every item already held (there are at most
      ten) and takes from the new ones only what still fits, in order. */
  lemma ClampKeepsExisting(existing: seq<MediaItem>, added: seq<MediaItem>)
    requires |existing| <= MaxMedia
    ensures var fit := if |added| <= MaxMedia - |existing| then |added| else MaxMedia - |existing|;
      Clamp(existing + added) == existing + added[..fit]
  {
    var fit := if |added| <= MaxMedia - |existing| then |added| else MaxMedia - |existing|;
    var r := Clamp(existing + added);
    assert |r| == |existing| + fit;
    forall k | 0 <= k < |r| ensures r[k] == (existing + added[..fit])[k] {
      if k >= |existing| {
        assert r[k] == (existing + added)[k] == added[k - |existing|];
      }
    }
  }

  /** `d.media.append(item)` (when the message carries media), then `d.media = d.media[:10]`. */
  function AddMedia(d: Draft, items: seq<MediaItem>): Draft {
    d.(media := Clamp(d.media + items))
  }

  /** `clear_media`. */
  function ClearMedia(d: Draft): Draft {
    d.(media := [])
  }

  // ---------------------------------------------------------------- modes

  /** The reset that `new:ready`, `new:wizard` and `switch_mode` share: every
      text and flag back to its initial value, the chosen mode, media untouched. */
  function ResetTo(d: Draft, m: Mode): Draft {
    Draft(m, 0, map[], "", "", d.media, false, None, false)
  }

  /** `on_new_mode` for every choice other than `"cancel"`: the pending flags and
      `finalized` are cleared first, whatever the choice; then an unknown choice
      stops there. */
  function SelectMode(d: Draft, choice: string): Draft
    requires choice != "cancel"
  {
    if choice == "ready" then ResetTo(d, Ready)
    else if choice == "wizard" then ResetTo(d, Wizard)
    else d.(awaitingEditField := None, awaitingReadyText := false, finalized := false)
  }

  /** `act:switch_mode`. */
  function SwitchMode(d: Draft): Draft {
    ResetTo(d, NoMode)
  }

  /** `act:edit_ready` once the mode check has passed. */
  function RequestReadyEdit(d: Draft): Draft {
    d.(awaitingReadyText := true)
  }

  /** `on_edit_field` once the mode check has passed. */
  function RequestFieldEdit(d: Draft, key: string): Draft {
    d.(awaitingEditField := Some(key), finalized := false)
  }

  lemma SelectModeResets(d: Draft, choice: string)
    requires choice != "cancel"
    ensures var r := SelectMode(d, choice);
      && r.media == d.media
      && !r.finalized && r.awaitingEditField == None && !r.awaitingReadyText
      && (choice == "ready" ==> r.mode == Ready)
      && (choice == "wizard" ==> r.mode == Wizard)
      && (choice == "ready" || choice == "wizard" ==>
            r.step == 0 && r.data == map[] && r.readyText == "" && r.extraText == "")
      && (choice != "ready" && choice != "wizard" ==>
            r.mode == d.mode && r.step == d.step && r.data == d.data
            && r.readyText == d.readyText && r.extraText == d.extraText)
  {
  }

  lemma SwitchModeResets(d: Draft)
    ensures var r := SwitchMode(d);
      && r.mode == NoMode && r.step == 0 && !r.finalized
      && r.data == map[] && r.readyText == "" && r.extraText == ""
      && r.awaitingEditField == None && !r.awaitingReadyText
      && r.media == d.media
  {
  }

  // ---------------------------------------------------------------- text

  /** Which branch of `on_text` handles the next free text. */
  datatype TextRoute =
    | ReplaceReady          // a pending ready-text replacement
    | EditOne(key: string)  // a pending single-field edit
    | NoModeHint            // no mode chosen yet
    | ReadyInput            // ready mode
    | WizardDoneHint        // wizard already finalized
    | WizardStep(key: string)
    | WizardOverrun         // `FIELDS[d.step]` raises IndexError

  /** The priority chain of `on_text`. */
  function RouteText(d: Draft): TextRoute {
    if d.awaitingReadyText then ReplaceReady
    else if PendingEdit(d) then EditOne(d.awaitingEditField.value)
    else if d.mode == NoMode then NoModeHint
    else if d.mode == Ready then ReadyInput
    else if d.finalized then WizardDoneHint
    else if d.step < |Fields| then WizardStep(FieldKey(d.step))
    else WizardOverrun
  }

  /** Store a value under a schema key; the `"extra"` answer lives in `extraText`. */
  function Store(d: Draft, key: string, text: string): Draft {
    if key == ExtraKey then d.(extraText := text) else d.(data := d.data[key := text])
  }

  /** The effect of one (already stripped) free text on the draft. */
  function ApplyText(d: Draft, text: string): Draft {
    match RouteText(d)
    case ReplaceReady => d.(awaitingReadyText := false, readyText := text, finalized := true)
    case EditOne(k) => Store(d, k, text).(awaitingEditField := None, finalized := true)
    case ReadyInput => d.(readyText := text, finalized := true)
    case WizardStep(k) => Store(d, k, text).(step := d.step + 1, finalized := d.step + 1 == FieldCount)
    case _ => d
  }

  /** A wizard answer goes to the current schema key (or `extraText`), the step
      advances by exactly one, and the draft becomes finalized exactly when the
      step reaches the end of the schema; nothing else changes. */
  lemma WizardStepStores(d: Draft, text: string)
    requires d.mode == Wizard && !d.finalized && !d.awaitingReadyText && !PendingEdit(d)
    requires d.step < FieldCount
    ensures var r := ApplyText(d, text);
      && r.step == d.step + 1
      && (r.finalized <==> r.step == FieldCount)
      && (FieldKey(d.step) == ExtraKey ==> r.extraText == text && r.data == d.data)
      && (FieldKey(d.step) != ExtraKey ==> r.data == d.data[FieldKey(d.step) := text] && r.extraText == d.extraText)
      && r.mode == d.mode && r.media == d.media && r.readyText == d.readyText
      && r.awaitingEditField == d.awaitingEditField && r.awaitingReadyText == d.awaitingReadyText
  {
    SchemaShape();
  }

  /** Free text changes nothing when no mode is chosen or when the wizard is
      already finalized (and nothing is pending). */
  lemma TextNoOps(d: Draft, text: string)
    requires !d.awaitingReadyText && !PendingEdit(d)
    requires d.mode == NoMode || (d.mode == Wizard && d.finalized)
    ensures ApplyText(d, text) == d
  {
  }

  /** In ready mode every text replaces `readyText` and finalizes the draft. */
  lemma ReadyTextReplaces(d: Draft, text: string)
    requires Inv(d) && d.mode == Ready
    ensures ApplyText(d, text) == d.(readyText := text, finalized := true, awaitingReadyText := false)
  {
  }

  /** A pending ready-text replacement wins over a pending field edit, which is
      left pending; the mode is not looked at. */
  lemma PendingReadyFirst(d: Draft, text: string)
    requires d.awaitingReadyText
    ensures var r := ApplyText(d, text);
      && r.readyText == text && r.finalized && !r.awaitingReadyText
      && r.awaitingEditField == d.awaitingEditField
      && r.mode == d.mode && r.step == d.step && r.data == d.data
      && r.extraText == d.extraText && r.media == d.media
  {
  }

  /** A pending field edit overwrites that one key (or `extraText`), clears the
      flag and finalizes; mode, step, media and every other value stay. */
  lemma PendingEditOverwritesOne(d: Draft, text: string)
    requires !d.awaitingReadyText && PendingEdit(d)
    ensures var k := d.awaitingEditField.value; var r := ApplyText(d, text);
      && r.finalized && r.awaitingEditField == None && !r.awaitingReadyText
      && r.mode == d.mode && r.step == d.step && r.media == d.media && r.readyText == d.readyText
      && (k == ExtraKey ==> r.extraText == text && r.data == d.data)
      && (k != ExtraKey ==> r.extraText == d.extraText && r.data == d.data[k := text])
  {
  }

  /** Free text keeps the draft invariant. */
  lemma ApplyTextKeepsInv(d: Draft, text: string)
    requires Inv(d)
    ensures Inv(ApplyText(d, text))
  {
  }

  /** The `new:` and `act:` buttons keep the draft invariant. */
  lemma ButtonsKeepInv(d: Draft, choice: string, key: string)
    requires Inv(d)
    ensures choice != "cancel" ==> Inv(SelectMode(d, choice))
    ensures Inv(SwitchMode(d)) && Inv(ClearMedia(d))
    ensures d.mode == Ready ==> Inv(RequestReadyEdit(d))
    ensures d.mode == Wizard ==> Inv(RequestFieldEdit(d, key))
  {
  }

  /** Adding media keeps the draft invariant. */
  lemma AddMediaKeepsInv(d: Draft, items: seq<MediaItem>)
    requires Inv(d)
    ensures Inv(AddMedia(d, items))
  {
  }

  /** Feeding texts one after another. */
  function ApplyTexts(d: Draft, texts: seq<string>): Draft
    decreases |texts|
  {
    if texts == [] then d else ApplyTexts(ApplyText(d, texts[0]), texts[1..])
  }

  /** Answering every remaining wizard question in order finalizes the draft at
      the end of the schema, the last answer (the remark) in `extraText`. */
  lemma {:induction false} WizardRun(d: Draft, texts: seq<string>)
    requires d.mode == Wizard && !d.finalized && !d.awaitingReadyText && !PendingEdit(d)
    requires d.step + |texts| == FieldCount
    ensures var r := ApplyTexts(d, texts);
      && r.mode == Wizard && r.step == FieldCount && r.media == d.media
      && (r.finalized <==> texts != [])
      && (texts != [] ==> r.extraText == texts[|texts| - 1])
    decreases |texts|
  {
    if texts != [] {
      var d1 := ApplyText(d, texts[0]);
      WizardStepStores(d, texts[0]);
      if texts[1..] != [] {
        WizardRun(d1, texts[1..]);
        assert texts[1..][|texts[1..]| - 1] == texts[|texts| - 1];
      } else {
        SchemaShape();
      }
    }
  }

  /** Along the way the answers given before are left alone ... */
  lemma {:induction false} WizardRunKeepsEarlier(d: Draft, texts: seq<string>)
    requires d.mode == Wizard && !d.finalized && !d.awaitingReadyText && !PendingEdit(d)
    requires d.step + |texts| == FieldCount
    ensures var r := ApplyTexts(d, texts);
      forall j :: 0 <= j < d.step ==> Value(r.data, FieldKey(j)) == Value(d.data, FieldKey(j))
    decreases |texts|
  {
    if texts != [] {
      var d1 := ApplyText(d, texts[0]);
      WizardStepStores(d, texts[0]);
      if texts[1..] != [] {
        WizardRunKeepsEarlier(d1, texts[1..]);
      }
      SchemaShape();
      forall j | 0 <= j < d.step ensures Value(d1.data, FieldKey(j)) == Value(d.data, FieldKey(j)) {
        FieldKeysDistinct(j, d.step);
      }
    }
  }

  /** ... and each answer but the remark is stored under its own schema key. */
  lemma {:induction false} WizardRunStores(d: Draft, texts: seq<string>)
    requires d.mode == Wizard && !d.finalized && !d.awaitingReadyText && !PendingEdit(d)
    requires d.step + |texts| == FieldCount
    ensures var r := ApplyTexts(d, texts);
      forall i :: 0 <= i < |texts| && d.step + i < FieldCount - 1 ==> Value(r.data, FieldKey(d.step + i)) == texts[i]
    decreases |texts|
  {
    if texts != [] {
      var d1 := ApplyText(d, texts[0]);
      var r := ApplyTexts(d, texts);
      assert r == ApplyTexts(d1, texts[1..]);
      WizardStepStores(d, texts[0]);
      SchemaShape();
      if d.step < FieldCount - 1 {
        FieldKeysDistinct(d.step, FieldCount - 1);
        assert Value(d1.data, FieldKey(d.step)) == texts[0];
        if texts[1..] != [] {
          WizardRunKeepsEarlier(d1, texts[1..]);
          WizardRunStores(d1, texts[1..]);
          forall i | 0 < i < |texts| && d.step + i < FieldCount - 1
            ensures Value(r.data, FieldKey(d.step + i)) == texts[i]
          {
            assert texts[1..][i - 1] == texts[i];
          }
        }
      }
    }
  }
}
