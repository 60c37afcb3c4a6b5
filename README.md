# Listing-bot draft engine

A Dafny model of the draft engine of `bot.py`, a Telegram bot through which
operators write car listings and publish them to up to three channels. The
model covers these parts:

- **Drafts.** Each user has at most one `Draft`:
  - a mode: none, ready text, or a fifteen-step wizard;
  - the wizard step and the answers by schema key;
  - the ready text and the optional remark;
  - up to ten media items;
  - the `finalized` flag;
  - two pending-input flags.
- **Handlers.** These change the drafts: `/new`, `/cancel`, the `new:` and
  `act:` buttons, the `edit:` buttons, free text, album pieces with their
  delayed flush, and single media.
- **Rendering.** The wizard post, the final text, and the 1024-character
  caption split shared by the preview and the publication.
- **Publication.** The fan-out over the target channels in `targets()` order.

Module layout:

| module | holds |
|---|---|
| `Text` | Python's `str.strip()` |
| `Schema` | the fifteen-field schema `FIELDS`, `prompt_for`, `targets()`, and the access predicates over a `Config` of deployment constants |
| `Drafts` | the `Draft` record, its invariant, and one pure function per handler effect |
| `Album` | media extraction, the stable sort by message id, and the album flush |
| `Layout` | the line-by-line layout of the wizard post, with position lemmas |
| `Render` | `render_wizard_post`, `render_final_text`, the caption split, media groups, and `send_preview` |
| `Publish` | the publication loop and its fan-out lemmas |
| `Bot` | the class `DraftEngine` |

`DraftEngine` holds the two in-memory stores:

- `DRAFTS`, as a field `drafts: map<int, Draft>`;
- `MEDIA_GROUPS`, as a field `albums: map<(int, string), seq<MediaMessage>>`.

It has one method per handler, and each keeps the draft invariant in every
stored draft. Where a handler changes a draft, its method is proved against the
pure effect function in `Drafts` or `Album` (`ApplyText`, `SelectMode`,
`SwitchMode`, `ClearMedia`, `RequestReadyEdit`, `RequestFieldEdit`, `AddMedia`,
`AddAlbum`); `/new`, `/cancel` and the album buffer update state their new
stores directly. The invariant bounds the media by ten and the step by fifteen. It also
ties the flags to the mode.

Several operations appear twice on purpose: as a function that specifies
them and as the step-by-step method that mirrors the handler's code, proved
equal to it. These pairs are `ApplyText` with `TextChain` and `ModeStep`,
`PreviewMessages` with `SendPreview`, `Delivery` with `DeliverTo`, `AddMedia`
with `AttachMedia`, and `SelectMode` and `SwitchMode` with the bodies of
`OnNewMode` and of the `switch_mode` branch of `ActHandler`.

`on_text` and `on_act` do their work in the store-level methods
`Bot.TextHandler` and `Bot.ActHandler`, which take and return the draft map.
The class methods only assign the result.

A handler's output comes in two parts. The messages whose content the model
states are returned as a list of `Outgoing` values, each either a text message
to a chat or a media group to a chat whose items carry their caption or none.
These are:

- the preview (`send_preview`);
- the deliveries of a publication to every target channel;
- the confirmation sent to the author after publishing.

Every other reply is one `Note` value naming which reply it is. This covers
the callback answers, the command answers and prompts, and the fixed hint
messages: the add-more hint, the media-cleared message, the request for a new
ready text, and the album-added message. Keyboards and exact reply wording are
not modelled.

The deployment constants are a `Config` value: `ADMIN_ID` and the three
channel ids. `SourceConfig` holds the values the repository ships with.

Three things are inputs to the handlers:

- the allow-list, as a `set<string>` of lower-cased usernames;
- whether the administrator has a pending `/allow` or `/deny`;
- the delayed album flush, as the method `Flush(uid, group)`, which the
  environment may call at any time.

## Model

| member | source | states |
|---|---|---|
| Text.TrimLeft | bot.py:260 | `lstrip()` leaves a suffix of the input that does not start with white space |
| Text.TrimRight | bot.py:260 | `rstrip()` leaves a prefix of the input that does not end with white space |
| Text.TrimLeftDropsSpace | bot.py:260 | every character `lstrip()` removes is white space |
| Text.TrimRightDropsSpace | bot.py:260 | every character `rstrip()` removes is white space |
| Text.Strip | bot.py:731 | the stripped text is no longer than the input, and neither starts nor ends with white space |
| Text.StripIsInfix | bot.py:731 | the stripped text occurs in the input, with only white space before and after it |
| Text.BlankIffAllSpace | bot.py:323 | `not s.strip()` holds exactly when every character of `s` is white space |
| Text.StripIdempotent | bot.py:288 | stripping twice is stripping once |
| Text.StripFixesTrimmed | bot.py:731 | a text with no white space at either end is stored unchanged |
| Schema.SchemaShape | bot.py:178-194 | the schema has 15 keys; the link is the 14th and the remark the 15th |
| Schema.FieldKeysDistinct | bot.py:178-194 | no schema key occurs twice |
| Schema.PromptFor | bot.py:246-254 | a prompt exists exactly for the schema keys; for any other key the lookup fails |
| Schema.PromptFrom | bot.py:247 | the search over the schema finds a key exactly when some entry carries it |
| Schema.TargetsOrder | bot.py:197-201 | the Belarusian and German channels come first, in that order; the Russian one is third, with its own id, exactly when that id is non-zero, and there are then three targets, otherwise two |
| Schema.Targets | bot.py:197-201 | `targets()`: Belarusian and German channels, then the Russian one when its id is set; proved by `Schema.TargetsOrder` |
| Schema.IsAdminId | bot.py:121-122 | `is_admin_id`: the id equals `ADMIN_ID` and that is non-zero |
| Schema.HasAccess | bot.py:130-145 | `has_access_user_id` / `has_access_cb`: the administrator, or a non-empty lower-cased username on the allow-list |
| Schema.UnsetAdminHasNoPrivilege | bot.py:121-122 | with `ADMIN_ID` 0 nobody is the administrator, so access depends on the allow-list alone |
| Schema.AdminAlwaysHasAccess | bot.py:130-145 | the administrator is let in whatever the allow-list holds |
| Drafts.NewDraftInv | bot.py:165-175 | a fresh `Draft()` satisfies the invariant, is not finalized and has no media |
| Drafts.Clamp | bot.py:830 | `media[:10]` keeps at most ten items, and they form a prefix of the list |
| Drafts.AddMedia | bot.py:860-870 | append items, then `media[:10]`; bounded and prefix-keeping by `Drafts.ClampKeepsExisting` and `Album.SingleMediaBounded` |
| Drafts.SelectMode | bot.py:489-524 | the draft after a `new:` choice other than `cancel`; described by `Drafts.SelectModeResets` |
| Drafts.SwitchMode | bot.py:569-577 | the draft after `switch_mode`; described by `Drafts.SwitchModeResets` |
| Drafts.RouteText | bot.py:733-782 | the priority chain of `on_text`: pending ready text, pending (truthy) edit, no mode, ready, finalized wizard, wizard step, step past the schema |
| Drafts.ApplyText | bot.py:733-782 | the draft after one stripped text, branch by branch of the chain; described by the `Drafts` lemmas below and proved equal to `Bot.TextChain` |
| Drafts.ClampKeepsExisting | bot.py:860-870 | appending and then cutting to ten keeps every item already held and takes the new ones in order, only as many as still fit |
| Drafts.SelectModeResets | bot.py:489-524 | `new:ready` and `new:wizard` reset every text, the step and the answers and set the mode; an unknown choice still clears both flags and `finalized`; media are kept either way |
| Drafts.SwitchModeResets | bot.py:569-577 | `switch_mode` returns to no mode with everything reset and the flags cleared, media untouched |
| Drafts.WizardStepStores | bot.py:761-779 | a wizard answer goes to the current schema key (the remark to `extraText`), the step advances by one, `finalized` becomes true exactly at step 15, and nothing else changes |
| Drafts.TextNoOps | bot.py:751-764 | with nothing pending, text leaves the draft unchanged when no mode is chosen or the wizard is already finalized |
| Drafts.ReadyTextReplaces | bot.py:755-758 | in ready mode every text replaces the ready text and finalizes |
| Drafts.PendingReadyFirst | bot.py:733-737 | a pending ready-text replacement wins over a pending field edit, which stays pending; the mode is not checked |
| Drafts.PendingEditOverwritesOne | bot.py:740-748 | a pending edit overwrites exactly that key (or the remark), clears the flag and finalizes; mode, step, media and every other value stay |
| Drafts.ApplyTextKeepsInv | bot.py:733-779 | free text keeps the draft invariant |
| Drafts.ButtonsKeepInv | bot.py:489-577 | a mode choice other than `cancel`, `switch_mode` and `clear_media` keep the draft invariant; so do the edit requests in the mode each one demands |
| Drafts.AddMediaKeepsInv | bot.py:860-870 | adding media keeps the draft invariant |
| Drafts.ClearMedia | bot.py:547 | `clear_media`: the media list becomes empty and nothing else changes; keeps the invariant by `Drafts.ButtonsKeepInv` |
| Drafts.RequestReadyEdit | bot.py:558 | `edit_ready` in ready mode: the next text is taken as the new ready text; keeps the invariant by `Drafts.ButtonsKeepInv` |
| Drafts.RequestFieldEdit | bot.py:666-667 | `edit:<key>` in wizard mode: the next text goes to that key and the draft is no longer finalized; keeps the invariant by `Drafts.ButtonsKeepInv` |
| Drafts.Store | bot.py:743-746 | an answer for `extra` goes to the remark, any other key to the answers; described by `Drafts.WizardStepStores` and `Drafts.PendingEditOverwritesOne` |
| Drafts.WizardRun | bot.py:761-779 | answering every remaining question in order ends at step 15, finalized, with the last answer as the remark |
| Drafts.WizardRunKeepsEarlier | bot.py:766-770 | along such a run the answers given before it are left alone |
| Drafts.WizardRunStores | bot.py:766-770 | along such a run each answer but the remark is stored under its own schema key |
| Album.MediaOf | bot.py:860-868 | a message contributes an item exactly when it carries a photo, video or document, and a photo wins |
| Album.Items | bot.py:819-828 | a list of messages yields no more items than there are messages |
| Album.Insert | bot.py:816 | insertion keeps the list sorted by message id and adds exactly the one message |
| Album.SortByMessageId | bot.py:816 | the sorted album is ordered by message id and is a permutation of the buffer |
| Album.SortExample | bot.py:816 | an album that arrived as ids 5, 3, 4 is attached as 3, 4, 5 |
| Album.AppendAll | bot.py:818-828 | the loop appends exactly the messages' items in list order, and `added` counts them |
| Album.AttachMedia | bot.py:859-870 | the single-media body appends the message's item and cuts the list to ten |
| Album.AddAlbum | bot.py:816-830 | the flush on the draft: sort by message id, append the items, cut to ten; described by `Album.AlbumFlushBounded` |
| Album.AlbumFlushBounded | bot.py:816-830 | a flush leaves at most ten items, keeps the existing ones, appends the album's items in message-id order, exactly as many as still fit, and changes nothing but the media |
| Album.SingleMediaBounded | bot.py:859-870 | a single item is appended only while fewer than ten are held; otherwise the media stay as they were |
| Layout.ValueAtFrom | bot.py:264-276 | in the joined field lines the value of line `i` sits at its computed offset |
| Layout.PrefixAtFrom | bot.py:264-276 | right before that value stands the line's label |
| Layout.OffsetIncreasing | bot.py:264-276 | the values occur in line order and do not overlap |
| Layout.JoinFromDependsOnKeys | bot.py:264-276 | the field lines depend only on the values stored under the lines' keys |
| Layout.FieldValueAt | bot.py:263-283 | in the field lines followed by any text, the value of line `i` sits at its offset |
| Layout.FieldPrefixAt | bot.py:263-283 | in the field lines followed by any text, the line's label stands right before that value |
| Layout.PostEndsWithLink | bot.py:277-283 | a post made of field lines, remark block, closing text and link ends with the link |
| Layout.PostClosingBeforeLink | bot.py:277-283 | in such a post the closing text stands right before the link |
| Layout.PostBlockAt | bot.py:276-277 | in such a post the remark block stands right after the field lines |
| Layout.PostHeadingAbsent | bot.py:259-262 | without a remark block, what follows the field lines is not the remark heading |
| Render.TemplateFollowsSchema | bot.py:264-276 | the post's thirteen lines name the first thirteen schema keys in schema order |
| Render.RenderWizardPost | bot.py:257-284 | `render_wizard_post`: field lines, remark block, closing text, link; described by the `Render.WizardPost*` and `Render.ExtraBlock*` lemmas |
| Render.RenderFinalText | bot.py:287-288 | `render_final_text`: the stripped ready text in ready mode, the wizard post otherwise; described by `Render.ReadyRendersStripped` |
| Render.ReadyRendersStripped | bot.py:287-288 | in ready mode the final text is the stripped ready text, and stripping it again changes nothing |
| Render.ClosingFacts | bot.py:262-278 | the closing text is at least as long as the remark heading and differs from it in its third character |
| Render.WizardPostValueAt | bot.py:264-276 | the rendered post holds the value of each of the first thirteen schema keys at its offset |
| Render.WizardPostPrefixAt | bot.py:264-276 | each such value is preceded by its line's label |
| Render.WizardPostFieldsInOrder | bot.py:264-276 | the values appear in schema order without overlap |
| Render.WizardPostEndsWithLink | bot.py:283 | the wizard post ends with the `link` value |
| Render.WizardPostClosingBeforeLink | bot.py:277-283 | the fixed closing text stands right before the link |
| Render.ExtraBlock | bot.py:259-262 | the remark block: the heading and the stripped remark when that is neither empty nor `-`, nothing otherwise; described by `Render.ExtraBlockShown`, `Render.ExtraBlockOnlyWhenGiven` and `Render.ExtraBlockDependsOnStrip` |
| Render.ExtraBlockShown | bot.py:259-262 | after the field lines comes the remark block: the heading and the stripped remark when that is neither empty nor `-`, nothing otherwise |
| Render.ExtraBlockOnlyWhenGiven | bot.py:259-262 | when the stripped remark is empty or `-`, no remark heading follows the field lines |
| Render.FieldLinesDependOnSchema | bot.py:264-276 | the field lines depend only on the values under the schema keys |
| Render.LinkDependsOnSchema | bot.py:283 | the link shown is the value under the `link` schema key |
| Render.ExtraBlockDependsOnStrip | bot.py:260-262 | the remark block depends only on the stripped remark |
| Render.RenderDependsOnSchemaOnly | bot.py:257-284 | drafts with equal values under the schema keys and the same stripped remark render the same post |
| Render.WizardSkipExample | bot.py:761-779 | fifteen answers with `-` last finalize the wizard draft, and its post has no remark block |
| Render.SkipMarkerRendersNothing | bot.py:261 | the remark `-` renders no block |
| Render.ReadyExample | bot.py:755-758 | the ready text "Audi A6, 2020" finalizes the draft and is rendered unchanged |
| Render.Caption | bot.py:613 | `text[:1024]`; described by `Render.CaptionSplit` |
| Render.Continuation | bot.py:624 | `text[1024:]`; described by `Render.CaptionSplit` |
| Render.MediaGroupOf | bot.py:612-621 | the media group of one delivery; described by `Render.BuildMediaGroup` |
| Render.CaptionSplit | bot.py:613-624 | caption plus continuation is the text; the caption has at most 1024 characters; the continuation is non-empty exactly when the text is longer |
| Render.BuildMediaGroup | bot.py:612-621 | the group holds the first (at most ten) items in order, the caption on item 0 and on no other |
| Render.Delivery | bot.py:611-628 | what one chat receives for a text and media; described by `Render.DeliveryGroupShape`, `Render.DeliveryStaysInChat` and `Render.DeliveryLosesNoText` |
| Render.DeliveryWithoutMedia | bot.py:627-628 | without media a chat receives the text as one message |
| Render.DeliveryGroupShape | bot.py:611-626 | with media a chat receives the captioned group, then the continuation exactly when it is not blank |
| Render.DeliveryStaysInChat | bot.py:610-628 | every message of a delivery goes to its chat |
| Render.MediaGroupCaptioned | bot.py:612-615 | a media group holds one to ten items, the caption on item 0 only |
| Render.DeliveryLosesNoText | bot.py:613-626 | the caption and the continuation message together are the text; the continuation is dropped only when blank |
| Render.SendPreview | bot.py:291-325 | the preview is the header and the final text: one message without media; otherwise the captioned group, the non-blank continuation and the action prompt |
| Render.PreviewMessages | bot.py:291-325 | everything `send_preview` sends; described by `Render.PreviewShowsRendered` and `Render.PreviewStaysWithUser` |
| Render.PreviewStaysWithUser | bot.py:291-325 | every preview message goes to the user |
| Render.PreviewShowsRendered | bot.py:306-325 | the preview is never empty; its caption or text is the header plus the rendered text; with media it ends with the action prompt |
| Publish.DeliverTo | bot.py:611-628 | one target's batch is the delivery of the text and media to that chat |
| Publish.PublishToTargets | bot.py:607-630 | the loop sends every target's delivery in `targets()` order and collects their flags in that order |
| Publish.PublishPlan | bot.py:610-630 | the deliveries to all targets laid end to end in target order; described by the `Publish.*Publication*` and `Publish.PlanReaches*` lemmas |
| Publish.DeliverySize | bot.py:611-628 | a chat receives two messages when there is media and a non-blank continuation, one otherwise |
| Publish.FanOutSingle | bot.py:610-630 | with one message per chat, message `j` is channel `j`'s whole batch |
| Publish.FanOutDouble | bot.py:610-630 | with two messages per chat, messages `2j` and `2j+1` are channel `j`'s whole batch |
| Publish.PlanLayoutSingle | bot.py:610-630 | the publication as a sequence of one-message batches in target order |
| Publish.PlanLayoutDouble | bot.py:610-630 | the publication as a sequence of two-message batches in target order |
| Publish.TextOnlyPublication | bot.py:627-628 | without media each channel receives the text as its one message |
| Publish.MediaPublicationShort | bot.py:611-626 | with media and a blank continuation each channel receives just the captioned group |
| Publish.MediaPublicationLong | bot.py:611-626 | with media and a non-blank continuation each channel receives the group and then the continuation |
| Publish.ChatsOfAppend | bot.py:610-630 | the chats reached by two message lists together are the union of the chats each reaches |
| Publish.TargetChatsSnoc | bot.py:197-201 | adding a target adds its chat to the target chats |
| Publish.FanOutReaches | bot.py:610-630 | a fan-out whose batches are non-empty and stay in their chat reaches exactly the targets' chats |
| Publish.PlanReachesExactlyTargets | bot.py:610-630 | the publication reaches every target channel and no other chat |
| Publish.ConfirmationWithoutRussia | bot.py:634 | with the Russian channel unset the published flags are exactly the Belarusian and the German one, in that order, and they are joined as `🇧🇾 🇩🇪` |
| Publish.Flags | bot.py:608-630 | `published_flags`: one flag per target, in target order; described by `Publish.ConfirmationWithoutRussia` and the `Publish.PlanReaches*` lemmas |
| Publish.JoinSpace | bot.py:634 | `" ".join(flags)` |
| Bot.Ask | bot.py:246-254 | the answer is a prompt exactly when the key is a schema key, and then it is that key's prompt |
| Bot.AskSchemaField | bot.py:776 | every schema key has a prompt, so the wizard never fails to ask |
| Bot.TextStep | bot.py:729-782 | one text changes the draft as the priority chain says and keeps the invariant; the preview is sent exactly when the chain ends with one |
| Bot.TextNote | bot.py:751-782 | what `on_text` answers: the mode hint with no mode, the finalized hint for a finalized wizard, the next prompt while wizard steps remain, and the preview otherwise; tied to the draft change by `Bot.TextChain` |
| Bot.Confirmation | bot.py:634 | the message the author gets after publishing: the fixed prefix and the published flags joined by spaces; the flags are described by `Publish.ConfirmationWithoutRussia` |
| Bot.TextChain | bot.py:733-749 | a pending ready text first, then a pending field edit, then by mode |
| Bot.ModeStep | bot.py:751-782 | with nothing pending: hint without a mode, replace in ready mode, hint once finalized, else the next wizard step or the crash past the schema's end |
| Bot.StoreKeepsInv | bot.py:730 | storing a draft that keeps the invariant keeps it for the whole store |
| Bot.TextGate | bot.py:676-727 | the order of `on_text`'s early returns: empty or command text, pending admin input, no access, no draft |
| Bot.TextHandler | bot.py:674-782 | empty or command texts are ignored; a pending admin input is taken first; users without access or a draft are ignored; otherwise the stripped text goes through the chain and the preview follows where the chain ends with one |
| Bot.ActHandler | bot.py:527-638 | the result of each action on the store: refusal without access, "no draft" when none exists; clear, edit-ready, cancel, switch, edit-menu and back-to-preview; publish only when finalized, then fan out, confirm and drop the draft; unknown actions change nothing |
| Bot.DraftEngine.constructor | bot.py:82-83 | both stores start empty |
| Bot.DraftEngine.New | bot.py:386-404 | `/new` stores a fresh draft for a user with access and refuses others |
| Bot.DraftEngine.Cancel | bot.py:374-383 | `/cancel` drops the user's draft, if any, and refuses users without access |
| Bot.DraftEngine.OnNewMode | bot.py:460-524 | refusal without access or draft; `cancel` drops the draft; any other choice applies the mode reset, and an unknown one is rejected after its flags were cleared |
| Bot.DraftEngine.OnAct | bot.py:527-638 | the effect of `Bot.ActHandler` on the engine's stores, album buffers untouched |
| Bot.DraftEngine.OnEditField | bot.py:641-670 | in wizard mode the key becomes the pending edit and `finalized` is cleared, finalized or not; the prompt lookup then fails for a key outside the schema |
| Bot.DraftEngine.OnText | bot.py:674-782 | the effect of `Bot.TextHandler` on the engine's stores, album buffers untouched |
| Bot.DraftEngine.OnAlbumPiece | bot.py:786-806 | a piece from a user with access and a draft is appended to its (user, album) buffer; nothing else changes |
| Bot.DraftEngine.Flush | bot.py:808-846 | the buffer is removed; if it was absent or the draft is gone, nothing else changes; otherwise the sorted album is attached and a finalized draft is previewed again |
| Bot.DraftEngine.OnSingleMedia | bot.py:849-884 | the message's item is appended and the list cut to ten for a user with access and a draft; a finalized draft is previewed again |

## Left out

- Telegram I/O (`send_message`, `send_media_group`, `edit_text`, callback answers) is modelled only as the returned `Outgoing` list and `Note`. Keyboards, the `/start` greeting, and the exact wording of answers are left out.
- Logging (`log_event`, `user_repr`) has no effect on the state and is left out.
- The SQLite allow-list and the admin `/allow`, `/deny` and `/list` flow are file I/O. The allow-list is a set parameter, and a pending admin action is a boolean parameter (`Bot.TextHandler` answers it with `AdminInput` and leaves the drafts alone).
- Username lower-casing and messages without a sender: the sender arrives with its lower-cased username (empty when it has none), and `m.from_user` is assumed present.
- `asyncio.sleep` and `create_task`: each album piece schedules its own delayed flush task. When a task fires it takes whatever buffer exists for its (user, album) key at that moment. The first task to fire takes every piece received so far; a piece that arrives later starts a new buffer, which a later task takes; a task that finds no buffer does nothing. This is modelled by `Flush` being callable at any time, with a call that finds no buffer being a no-op. Interleavings inside a handler (between `await`s) and aliasing of a draft held across an `await` are not modelled.
- Publish has no per-target error handling: a failed send raises and stops the loop before the draft is dropped. Transport failures are not modelled, so `Bot.ActHandler` always completes the fan-out.
- Album.SortByMessageId: Python's sort is stable, and the insertion sort keeps equal ids in arrival order, but stability is not stated as a proved property.
- Render.SendPreview and Render.Delivery: Telegram's own length limits are not modelled. Captions and continuations are cut at 1024 code points, exactly as written.
- Bot.DraftEngine.OnEditField and Bot.Ask: a key outside the schema makes `prompt_for` raise after the draft was changed. This is modelled as the note `Crash` with the change kept.
- Bot.ModeStep: a wizard draft at step 15 that is not finalized (reachable through `edit:` with an empty key, which Python's truthiness treats as no pending edit) raises `IndexError` in `FIELDS[d.step]`. This is modelled as the note `Crash` with no change.
- `setup_commands`, `main` and the bot token are startup plumbing.

Behaviour of the code worth noting, which the model keeps:

- `edit_ready` checks only the ready mode, and `edit:` checks only the wizard mode. Neither looks at `finalized`.
- A ready text of blanks only is stored as the empty string and still finalizes the draft.
- An unknown `edit:` key changes the draft before the handler fails on the prompt lookup.
- The continuation past the caption is sent as one message, and not at all when it is blank.
