# Merchant chat front-end — a Dafny model

This project models the React front-end of a merchant chat platform. It covers:

- the embeddable customer chat widget, which keeps one session per merchant in `localStorage`;
- the dashboard's message composer and conversation view, with the rating buttons under bot replies;
- the negative-feedback dialog;
- the admin notification bell;
- the knowledge-base tabs: documents, FAQs and links;
- the storefront theme page and the chat-widget settings page;
- the storefront footer.

Each source file is one Dafny module. A component whose React state changes is a `class`:

- its fields are the `useState` variables;
- each event handler is a method that states the whole new state;
- a handler guarded by a disabled control does nothing while that control is disabled. In the composer, a mouse press on any control, disabled or not, still reaches the document listener that closes the emoji picker.

What derives values from state is written as functions, and lemmas are proved about them. Examples are the payload a send produces, what a view shows, upload validation, slug sanitising and settings merges.

Shared modules:

- `Wrappers`: `Option`, used for `undefined`, `null` and missing properties.
- `Text`: `String.prototype.trim` with the full ECMAScript whitespace set, JavaScript truthiness of optional strings, ASCII `toLowerCase`, and `Number.prototype.toString` for non-negative integers.
- `Lists`: the `filter`, `reverse` and `slice` patterns of the handlers.
- `ChatTypes`: the message and notification records.
- `Notices`: the snackbar records.

Results from outside the front-end are parameters of the methods:

- REST results: whether a request succeeded, and the list it returned;
- the clock (`Date.now()`);
- microphone permission;
- whether the browser's audio API works.

Two behaviours of the widget that a reader might expect are absent from the code, and so from the model:

- The client never sorts the transcript by timestamp or de-duplicates it by id:
  - a fetched history replaces the transcript;
  - a live message is appended.
- The session store has no in-memory fallback when storage is unavailable. An empty stored id counts as absent and is replaced.

## Model

| member | source | states |
|---|---|---|
| Text.Trim | Front-end/src/components/Chat/FeedbackDialog.tsx:43 | `trim()` yields the infix of the input between leading and trailing whitespace, with no whitespace at either end. It is empty exactly when the input is all whitespace. |
| Text.BlankIffTrimEmpty | Front-end/src/components/Chat/FeedbackDialog.tsx:46 | The guard `!value.trim()` holds exactly when the text is all whitespace. |
| Text.TrimIdempotent | Front-end/src/components/Chat/FeedbackDialog.tsx:43-46 | Trimming an already trimmed text changes nothing. |
| Text.NatToString | Front-end/src/components/chat_Setting/WidgetChatUI.tsx:26 | `Date.now().toString()` is a non-empty string of decimal digits. |
| Text.DecimalRoundTrip | Front-end/src/components/chat_Setting/WidgetChatUI.tsx:26 | Reading the rendered digits back as a decimal number gives the original number. |
| Text.NatToStringInjective | Front-end/src/components/chat_Setting/WidgetChatUI.tsx:26 | Session ids created at different times are different. |
| Text.ToLowerAscii | Front-end/src/components/documents/DocumentsTab.tsx:61 | Lower-casing keeps the length and lowers each ASCII capital. |
| Lists.RemoveById | Front-end/src/components/documents/DocumentsTab.tsx:50 | The delete filter keeps exactly the entries whose id differs from the deleted one. |
| Lists.RemoveByIdAppend | Front-end/src/components/documents/DocumentsTab.tsx:50 | The filter keeps relative order: filtering a concatenation concatenates the filtered parts. |
| Lists.RemoveByIdAbsent | Front-end/src/components/documents/FaqsTab.tsx:47 | Deleting an id that no entry carries leaves the list unchanged. |
| Lists.RemoveByIdIdempotent | Front-end/src/components/documents/LinksTab.tsx:45 | Deleting the same id twice is the same as deleting it once. |
| Lists.Reverse | Front-end/src/components/dashboard_Users/DashboardLayout.tsx:116 | `reverse()` puts entry i at position n-1-i. |
| Lists.Take | Front-end/src/components/store/Footer.tsx:195 | `slice(0, k)` is the prefix of length min(k, n). |
| Lists.TakeLast | Front-end/src/components/dashboard_Users/DashboardLayout.tsx:115 | `slice(-k)` is the suffix of length min(k, n). |
| WidgetChat.SessionKeysDistinct | Front-end/src/components/chat_Setting/WidgetChatUI.tsx:24 | Different merchants get different storage keys. |
| WidgetChat.GetOrCreateSessionId | Front-end/src/components/chat_Setting/WidgetChatUI.tsx:22-30 | A truthy stored id is returned and storage is unchanged. Otherwise the decimal time is stored under the merchant's key and only that key changes. Either way the key then holds the returned id. |
| WidgetChat.GetOrCreateIdempotent | Front-end/src/components/chat_Setting/WidgetChatUI.tsx:22-30 | A second mount, at any time, resumes the same session and writes nothing. |
| WidgetChat.MerchantsIndependent | Front-end/src/components/chat_Setting/WidgetChatUI.tsx:24-27 | One merchant's get-or-create leaves another merchant's key and session id as they were. |
| WidgetChat.SendRequestFor | Front-end/src/components/chat_Setting/WidgetChatUI.tsx:55-62 | A blank input sends nothing. Otherwise the request holds one customer message on the webchat channel, with the trimmed, non-empty input. |
| WidgetChat.SendButtonDisabled | Front-end/src/components/chat_Setting/WidgetChatUI.tsx:168 | The button is disabled iff loading or the input is blank. When enabled, a send produces a request. |
| WidgetChat.HeaderTitle | Front-end/src/components/chat_Setting/WidgetChatUI.tsx:93 | The header is never empty: it shows the bot name when that is non-empty, and exactly "MusaidBot" when it is empty. |
| WidgetChat.Transcript | Front-end/src/components/chat_Setting/WidgetChatUI.tsx:106-135 | The welcome line appears iff there are no messages, and then it is the only line. Otherwise there is one bubble per message, in order, and customer bubbles are on the right. |
| WidgetChat.ChatWidget.constructor | Front-end/src/components/chat_Setting/WidgetChatUI.tsx:22-33 | Mounting runs the get-or-create in place on the shared storage and starts with an empty transcript and input. |
| WidgetChat.ChatWidget.StartHistoryFetch | Front-end/src/components/chat_Setting/WidgetChatUI.tsx:40 | Loading starts; nothing else changes. |
| WidgetChat.ChatWidget.HistoryFetched | Front-end/src/components/chat_Setting/WidgetChatUI.tsx:41-43 | The fetched list replaces the transcript (`[]` for null) and loading ends. |
| WidgetChat.ChatWidget.HistoryFetchFailed | Front-end/src/components/chat_Setting/WidgetChatUI.tsx:43 | Only loading ends. |
| WidgetChat.ChatWidget.LiveMessage | Front-end/src/components/chat_Setting/WidgetChatUI.tsx:35-37 | A socket message is appended at the end; there is no sorting or de-duplication. |
| WidgetChat.ChatWidget.EditInput | Front-end/src/components/chat_Setting/WidgetChatUI.tsx:152 | Only the input changes. |
| WidgetChat.ChatWidget.HandleSend | Front-end/src/components/chat_Setting/WidgetChatUI.tsx:53-64 | A request is sent iff the submit button is enabled (not loading, input not blank), and it is `SendRequestFor` of the old input. The input is cleared iff something is sent, and the transcript and loading flag are untouched. |
| ChatInput.PayloadFor | Front-end/src/components/Chat/ChatInput.tsx:57-60 | Nothing is sent iff the text is blank and there is no file or clip. Otherwise the file and clip are passed on, and the text is the trimmed text, or undefined when blank. |
| ChatInput.SendButtonDisabled | Front-end/src/components/Chat/ChatInput.tsx:272 | The button is disabled iff pressing send would send nothing. |
| ChatInput.ControlsLocked | Front-end/src/components/Chat/ChatInput.tsx:216 | The text field, attach button and emoji button are locked iff a file or clip is held, a recording is running, or audio is loading. |
| ChatInput.MicDisabled | Front-end/src/components/Chat/ChatInput.tsx:316 | The microphone is disabled iff a file or clip is held or audio is loading. |
| ChatInput.PreviewVersusSend | Front-end/src/components/Chat/ChatInput.tsx:272-286 | With no attachment, the preview shows while the send button is disabled exactly when the text is non-empty whitespace. Without a preview the button is disabled, and an enabled button always comes with a preview. |
| ChatInput.AttachmentHidesPreview | Front-end/src/components/Chat/ChatInput.tsx:272-286 | With a file or clip held, the preview is hidden and the send button is enabled. |
| ChatInput.Composer.constructor | Front-end/src/components/Chat/ChatInput.tsx:47-54 | The initial state satisfies the composer invariant. |
| ChatInput.Composer.EditText | Front-end/src/components/Chat/ChatInput.tsx:246-247 | Typing sets the text unless the field is locked, and keeps the invariant. |
| ChatInput.Composer.PressSend | Front-end/src/components/Chat/ChatInput.tsx:57-68 | The payload is `PayloadFor` of the old state. On a send: text, file, clip, picker and error reset, and recording state stays. On no send, only a mouse press changes anything: it closes the picker. |
| ChatInput.Composer.AttachFile | Front-end/src/components/Chat/ChatInput.tsx:71-85 | A mouse press closes the picker, and a keyboard activation leaves it as it was, so a file can be attached with the picker open. A locked button changes nothing else. An oversize file sets the error and changes no attachment. An accepted file replaces the clip and clears text and error. The invariant "file excludes clip" is kept. |
| ChatInput.Composer.RemoveFile | Front-end/src/components/Chat/ChatInput.tsx:87-89 | Only the file is dropped, and a mouse press closes the picker. |
| ChatInput.Composer.RemoveAudio | Front-end/src/components/Chat/ChatInput.tsx:126-128 | Only the clip is dropped, and a mouse press closes the picker. |
| ChatInput.Composer.ClickMic | Front-end/src/components/Chat/ChatInput.tsx:92-115 | A mouse press closes the picker. Apart from that, a disabled mic changes nothing. With permission, recording starts and loading stays set. Without it, the error is set and loading is cleared. |
| ChatInput.Composer.ClickStop | Front-end/src/components/Chat/ChatInput.tsx:118-124 | Stop is requested iff a recorder was held. The recorder is dropped and recording ends; loading stays until the recorder reports. A mouse press closes the picker. |
| ChatInput.Composer.RecorderStopped | Front-end/src/components/Chat/ChatInput.tsx:101-106 | The recorded `audio/webm` clip becomes the attachment, and recording and loading end. |
| ChatInput.Composer.ToggleEmoji | Front-end/src/components/Chat/ChatInput.tsx:229-230 | On a locked button, a mouse press closes the picker and a keyboard activation changes nothing. On an unlocked button, a mouse click always leaves the picker open: the press closes an open picker and the click opens it again. A keyboard activation toggles it. |
| ChatInput.Composer.PickEmoji | Front-end/src/components/Chat/ChatInput.tsx:131-133 | A pick in the open picker appends the emoji to the text. |
| ChatInput.Composer.ClosePicker | Front-end/src/components/Chat/ChatInput.tsx:136-160 | Escape or an outside click closes the picker and nothing else. |
| DashboardLayout.PlayBeep | Front-end/src/components/dashboard_Users/DashboardLayout.tsx:27-45 | An 800 Hz, 200 ms tone plays when audio works. Otherwise the error is swallowed and the handler still completes. |
| DashboardLayout.RecentFirstSpec | Front-end/src/components/dashboard_Users/DashboardLayout.tsx:114-117 | The popover lists min(10, n) entries, and entry i is the i-th most recent notification. |
| DashboardLayout.RecentFirstAfterAppend | Front-end/src/components/dashboard_Users/DashboardLayout.tsx:46-47 | A new notification goes to the top and the rest shift down, keeping at most ten. |
| DashboardLayout.Popover | Front-end/src/components/dashboard_Users/DashboardLayout.tsx:111-117 | The "no notifications" text shows iff none was received, and then no entries are listed. |
| DashboardLayout.NotificationCenter.constructor | Front-end/src/components/dashboard_Users/DashboardLayout.tsx:25 | The center starts with no notifications. |
| DashboardLayout.NotificationCenter.BadgeCount | Front-end/src/components/dashboard_Users/DashboardLayout.tsx:94 | The badge counts every notification received: it is zero exactly when the popover shows "no notifications", and never less than the number of listed entries. |
| DashboardLayout.NotificationCenter.OnAdminNewMessage | Front-end/src/components/dashboard_Users/DashboardLayout.tsx:46-56 | The payload is appended and a toast of its text is shown, then a beep. The badge count grows by one, and the notification is kept whatever the beep does. |
| ChatWindow.MediaFor | Front-end/src/components/Chat/ChatWindow.tsx:57-131 | An attachment shows iff `mediaUrl` is a non-empty string. It is an image, audio, PDF or generic link by `mediaType`, with the string-typed alt or MIME type, or their defaults. |
| ChatWindow.RenderBubble | Front-end/src/components/Chat/ChatWindow.tsx:40-172 | Customer bubbles are aligned right. The rating bar shows iff the sender is the bot. Thumb-up sends 1 and is disabled and highlighted iff the rating is 1; thumb-down likewise for 0. |
| ChatWindow.RenderWindow | Front-end/src/components/Chat/ChatWindow.tsx:21-34 | While loading, only a spinner shows. With no messages, the empty state shows. Otherwise there is one bubble per message, in order. |
| ChatWindow.ClickRate | Front-end/src/components/Chat/ChatWindow.tsx:145-170 | A rating call happens iff the message is the bot's, `onRate` is given and the rating differs. The value is 1 for up and 0 for down. |
| DocumentsTab.LastSegment | Front-end/src/components/documents/DocumentsTab.tsx:61 | The result is the dot-free suffix after the last dot, or the whole name when there is no dot. |
| DocumentsTab.LastSegmentOfDotted | Front-end/src/components/documents/DocumentsTab.tsx:61 | For any base, the extension of base + "." + ext is ext. |
| DocumentsTab.DotlessName | Front-end/src/components/documents/DocumentsTab.tsx:61 | A name without a dot is its own last segment. |
| DocumentsTab.ExtensionShape | Front-end/src/components/documents/DocumentsTab.tsx:61 | The extension is the lower-cased dot-free tail of the name, preceded by a dot unless it is the whole name. It contains no dot and no ASCII capital. |
| DocumentsTab.AcceptsDotlessWhitelisted | Front-end/src/components/documents/DocumentsTab.tsx:61-69 | A small dotless name whose lower-cased form is a whitelisted extension ("PDF", "Docx") is accepted while fewer than five documents are listed. |
| DocumentsTab.CheckUpload | Front-end/src/components/documents/DocumentsTab.tsx:54-68 | Checks run in order: no file, then five documents already listed, then an extension outside the whitelist, then more than 5 MiB. Upload happens iff all pass. |
| DocumentsTab.AcceptsWhitelisted | Front-end/src/components/documents/DocumentsTab.tsx:61-69 | A small file with a whitelisted extension, in any ASCII case, is accepted while fewer than five documents are listed. |
| DocumentsTab.RejectionNotice | Front-end/src/components/documents/DocumentsTab.tsx:57-67 | Exactly the three rejections show a snackbar: a warning for the limit, an error otherwise. |
| DocumentsTab.UploadButtonDisabled | Front-end/src/components/documents/DocumentsTab.tsx:82 | The button is disabled iff uploading or five documents are listed. |
| DocumentsTab.DownloadHref | Front-end/src/components/documents/DocumentsTab.tsx:118-121 | The download link shows iff the status is "completed", and points to the document's endpoint. |
| DocumentsTab.DocumentsPanel.constructor | Front-end/src/components/documents/DocumentsTab.tsx:38-40 | The panel starts empty and loading. |
| DocumentsTab.DocumentsPanel.InitialFetchSettled | Front-end/src/components/documents/DocumentsTab.tsx:42-46 | A fetched list replaces the documents, and loading ends either way. |
| DocumentsTab.DocumentsPanel.Refetched | Front-end/src/components/documents/DocumentsTab.tsx:71 | The refetched list replaces the documents. |
| DocumentsTab.DocumentsPanel.HandleUpload | Front-end/src/components/documents/DocumentsTab.tsx:54-68 | Nothing happens iff the panel is loading or the upload button is disabled. Otherwise the verdict is `CheckUpload` of the current count and is never the five-document limit. A rejection adds its snackbar, and acceptance starts uploading. |
| DocumentsTab.DocumentsPanel.UploadCompleted | Front-end/src/components/documents/DocumentsTab.tsx:69-73 | Uploading ends and the success snackbar is added. |
| DocumentsTab.DocumentsPanel.HandleDelete | Front-end/src/components/documents/DocumentsTab.tsx:48-52 | While loading (only a progress bar is rendered) nothing changes. Otherwise a confirmed delete filters the id out and announces it, and a failed one changes nothing. |
| FaqsTab.AddRequest | Front-end/src/components/documents/FaqsTab.tsx:37-38 | Nothing is posted iff the question or the answer is blank. Otherwise exactly one entry is posted, with both fields untrimmed. |
| FaqsTab.AddRequestNotBlank | Front-end/src/components/documents/FaqsTab.tsx:37-38 | Every posted entry has visible text in both fields. |
| FaqsTab.FaqsPanel.constructor | Front-end/src/components/documents/FaqsTab.tsx:25-28 | The panel starts empty, loading, with blank fields. |
| FaqsTab.FaqsPanel.InitialFetchSettled | Front-end/src/components/documents/FaqsTab.tsx:30-34 | A fetched list replaces the entries, and loading ends either way. |
| FaqsTab.FaqsPanel.Refetched | Front-end/src/components/documents/FaqsTab.tsx:39 | The refetched list replaces the entries. |
| FaqsTab.FaqsPanel.EditQuestion | Front-end/src/components/documents/FaqsTab.tsx:58 | While loading nothing changes; otherwise only the question field changes. |
| FaqsTab.FaqsPanel.EditAnswer | Front-end/src/components/documents/FaqsTab.tsx:64 | While loading nothing changes; otherwise only the answer field changes. |
| FaqsTab.FaqsPanel.HandleAdd | Front-end/src/components/documents/FaqsTab.tsx:36-43 | While loading nothing is sent and nothing changes. Otherwise the request is `AddRequest` of the fields, and both fields are cleared and success is announced only after a successful post. |
| FaqsTab.FaqsPanel.HandleDelete | Front-end/src/components/documents/FaqsTab.tsx:45-49 | While loading nothing changes. Otherwise a confirmed delete filters the id out and announces it, and a failed one changes nothing. |
| LinksTab.AddRequest | Front-end/src/components/documents/LinksTab.tsx:37-38 | Nothing is posted iff the link is blank. Otherwise a one-element list with the untrimmed link is posted. |
| LinksTab.LinksPanel.constructor | Front-end/src/components/documents/LinksTab.tsx:26-28 | The panel starts empty, loading, with a blank field. |
| LinksTab.LinksPanel.InitialFetchSettled | Front-end/src/components/documents/LinksTab.tsx:30-34 | A fetched list replaces the links, and loading ends either way. |
| LinksTab.LinksPanel.Refetched | Front-end/src/components/documents/LinksTab.tsx:39 | The refetched list replaces the links. |
| LinksTab.LinksPanel.EditLink | Front-end/src/components/documents/LinksTab.tsx:56 | While loading nothing changes; otherwise only the field changes. |
| LinksTab.LinksPanel.HandleAdd | Front-end/src/components/documents/LinksTab.tsx:36-42 | While loading nothing is sent and nothing changes. Otherwise the request is `AddRequest` of the field, and the field is cleared and success is announced only after a successful post. |
| LinksTab.LinksPanel.HandleDelete | Front-end/src/components/documents/LinksTab.tsx:43-47 | While loading nothing changes. Otherwise a confirmed delete filters the id out and announces it, and a failed one changes nothing. |
| FeedbackDialog.SubmitDisabled | Front-end/src/components/Chat/FeedbackDialog.tsx:46 | Submit is disabled iff the value is all whitespace. |
| FeedbackDialog.Submission | Front-end/src/components/Chat/FeedbackDialog.tsx:41-46 | `onSubmit` gets the trimmed value, which is non-empty, has no whitespace at either end, and is a fixed point of trimming. Nothing is submitted while disabled. |
| FeedbackDialog.Dialog.constructor | Front-end/src/components/Chat/FeedbackDialog.tsx:22 | The value starts empty. |
| FeedbackDialog.Dialog.Edit | Front-end/src/components/Chat/FeedbackDialog.tsx:34 | Typing sets the value. |
| FeedbackDialog.Dialog.Submit | Front-end/src/components/Chat/FeedbackDialog.tsx:41-46 | `onSubmit(Submission(value))` is called and the value resets to "". A disabled click does nothing. |
| FeedbackDialog.Dialog.Cancel | Front-end/src/components/Chat/FeedbackDialog.tsx:40 | Cancel calls only `onClose`. It modifies nothing, so the value stays. |
| StorefrontTheme.SanitizeSlug | Front-end/src/pages/Dashboard/StorefrontThemePage.tsx:220-222 | The slug keeps only `[A-Za-z0-9-_]`: a character survives iff it is allowed. |
| StorefrontTheme.SanitizeSlugAppend | Front-end/src/pages/Dashboard/StorefrontThemePage.tsx:221 | Sanitising a concatenation concatenates the sanitised parts, so order is kept. |
| StorefrontTheme.SanitizeSlugIdentity | Front-end/src/pages/Dashboard/StorefrontThemePage.tsx:221 | A slug is unchanged iff all its characters are allowed. |
| StorefrontTheme.SanitizeSlugIdempotent | Front-end/src/pages/Dashboard/StorefrontThemePage.tsx:221 | Sanitising twice is the same as sanitising once. |
| StorefrontTheme.StoreUrl | Front-end/src/pages/Dashboard/StorefrontThemePage.tsx:64-68 | The link is https plus the domain when truthy, else the base URL plus the slug. It is empty iff there is neither. |
| StorefrontTheme.CopyText | Front-end/src/pages/Dashboard/StorefrontThemePage.tsx:70-72 | An empty link copies nothing. |
| StorefrontTheme.LoadedTheme | Front-end/src/pages/Dashboard/StorefrontThemePage.tsx:54-57 | A missing or empty colour or style falls back to "#FF8500", "#1976d2" or "rounded"; the slug falls back to "". |
| StorefrontTheme.ValidateSave | Front-end/src/pages/Dashboard/StorefrontThemePage.tsx:79-94 | A storefront with an id is checked first, then a non-empty slug. Only then is the save ready, with that id. |
| StorefrontTheme.ApplyTheme | Front-end/src/pages/Dashboard/StorefrontThemePage.tsx:103-113 | Only the four edited fields change; the id, domain and all other fields are kept. |
| StorefrontTheme.SaveThenLoad | Front-end/src/pages/Dashboard/StorefrontThemePage.tsx:103-113 | Reloading a saved record gives back the form when none of its values is empty. |
| StorefrontTheme.EmptyColourReloadsAsDefault | Front-end/src/pages/Dashboard/StorefrontThemePage.tsx:54 | A saved empty colour reloads as the default. |
| StorefrontTheme.ThemeEditor.constructor | Front-end/src/pages/Dashboard/StorefrontThemePage.tsx:31-46 | The page starts loading, with the default theme. |
| StorefrontTheme.ThemeEditor.Loaded | Front-end/src/pages/Dashboard/StorefrontThemePage.tsx:48-61 | A record fills the form via `LoadedTheme`, and loading ends either way. |
| StorefrontTheme.ThemeEditor.PickPrimaryColor | Front-end/src/pages/Dashboard/StorefrontThemePage.tsx:155 | Until the form is shown (loading ended with a storefront) nothing changes; then only the primary colour changes. |
| StorefrontTheme.ThemeEditor.PickSecondaryColor | Front-end/src/pages/Dashboard/StorefrontThemePage.tsx:176 | Until the form is shown nothing changes; then only the secondary colour changes. |
| StorefrontTheme.ThemeEditor.PickButtonStyle | Front-end/src/pages/Dashboard/StorefrontThemePage.tsx:201-203 | Until the form is shown nothing changes; then only the button style changes. |
| StorefrontTheme.ThemeEditor.EditSlug | Front-end/src/pages/Dashboard/StorefrontThemePage.tsx:220-222 | Until the form is shown nothing changes; then the sanitised text becomes the slug, which holds only allowed characters. |
| StorefrontTheme.ThemeEditor.HandleCopy | Front-end/src/pages/Dashboard/StorefrontThemePage.tsx:70-75 | Until the form is shown nothing is copied. Then the current link is copied and flagged, unless it is empty. |
| StorefrontTheme.ThemeEditor.CopyTimerFired | Front-end/src/pages/Dashboard/StorefrontThemePage.tsx:74 | The copied flag clears. |
| StorefrontTheme.ThemeEditor.HandleSave | Front-end/src/pages/Dashboard/StorefrontThemePage.tsx:78-128 | Until the form is shown nothing is sent and no snackbar opens. Then a failed guard (a record without an id, or an empty slug) shows its error and sends nothing; otherwise the theme is sent for the id. On success only the four fields of the local record change; on failure the error snackbar shows. |
| StorefrontTheme.ThemeEditor.CloseSnackbar | Front-end/src/pages/Dashboard/StorefrontThemePage.tsx:277 | The snackbar closes and keeps its text. |
| ChatSettings.StripApiSuffix | Front-end/src/pages/Dashboard/ChatSettingsPage.tsx:113 | One trailing "/api" is removed; any other base is kept. |
| ChatSettings.InitialSettings | Front-end/src/pages/Dashboard/ChatSettingsPage.tsx:104-114 | Every field is present, with its default. The share link is the stripped API base + "/chat/" + the merchant id. |
| ChatSettings.Effective | Front-end/src/pages/Dashboard/ChatSettingsPage.tsx:154 | The form shows the draft while one exists, else the committed settings. |
| ChatSettings.Changed | Front-end/src/pages/Dashboard/ChatSettingsPage.tsx:189-197 | The form shows the new value for the key. While a draft exists the committed settings are untouched, and whether a draft exists does not change. |
| ChatSettings.ChangeTouchesOneField | Front-end/src/pages/Dashboard/ChatSettingsPage.tsx:193-197 | Every other field of the form keeps its value. |
| ChatSettings.Merge | Front-end/src/pages/Dashboard/ChatSettingsPage.tsx:231 | Draft fields win; settings fields absent from the draft are kept. |
| ChatSettings.MergeCompleteDraft | Front-end/src/pages/Dashboard/ChatSettingsPage.tsx:231 | After a save, the committed settings equal the draft. |
| ChatSettings.SavePayload | Front-end/src/pages/Dashboard/ChatSettingsPage.tsx:221-229 | The payload holds exactly the seven saved fields, read from the draft. The embed mode and share link are never sent. |
| ChatSettings.LoadMerge | Front-end/src/pages/Dashboard/ChatSettingsPage.tsx:134-143 | Server fields override, except that the local bot name is kept. The slug is the server's (or undefined). The share link is rebuilt only from a truthy slug. Completeness is kept. |
| ChatSettings.ChatLink | Front-end/src/pages/Dashboard/ChatSettingsPage.tsx:115-117 | The chat link is built from the committed slug when truthy, else "—". |
| ChatSettings.DraftEditKeepsChatLink | Front-end/src/pages/Dashboard/ChatSettingsPage.tsx:115-117 | Editing a draft never changes the chat link. |
| ChatSettings.SettingsPage.constructor | Front-end/src/pages/Dashboard/ChatSettingsPage.tsx:104-124 | The page starts with the initial settings, no draft, loading. |
| ChatSettings.SettingsPage.Loaded | Front-end/src/pages/Dashboard/ChatSettingsPage.tsx:127-150 | A record is merged in by `LoadMerge`; a failure sets the load error. Loading ends either way. |
| ChatSettings.SettingsPage.HandleChange | Front-end/src/pages/Dashboard/ChatSettingsPage.tsx:189-201 | The new settings and draft are `Changed` of the old ones. |
| ChatSettings.SettingsPage.CloneSettings | Front-end/src/pages/Dashboard/ChatSettingsPage.tsx:204-207 | Without a draft, the draft becomes a copy of the settings. An existing draft is never overwritten, since the edit button is shown only without one. |
| ChatSettings.SettingsPage.DiscardDraft | Front-end/src/pages/Dashboard/ChatSettingsPage.tsx:210-213 | The draft is dropped and the settings stay. |
| ChatSettings.SettingsPage.SaveAll | Front-end/src/pages/Dashboard/ChatSettingsPage.tsx:216-239 | Without a draft nothing happens. Otherwise `SavePayload` is sent. On success the settings become the draft and the draft is cleared. On failure the draft is kept and the error is set. |
| ChatSettings.SettingsPage.SlugGenerated | Front-end/src/pages/Dashboard/ChatSettingsPage.tsx:90-103 | The settings take the new slug. The draft takes it only if a draft existed at the click and still exists. |
| ChatSettings.SettingsPage.CloseSuccess | Front-end/src/pages/Dashboard/ChatSettingsPage.tsx:269 | The success snackbar closes. |
| Footer.FormatHour | Front-end/src/components/store/Footer.tsx:46 | An entry reads "day: open - close": it starts with the day, ends with the close time, and has their combined length plus five. |
| Footer.JoinAppend | Front-end/src/components/store/Footer.tsx:47 | Joining one more part appends the separator and that part. |
| Footer.JoinNonEmpty | Front-end/src/components/store/Footer.tsx:47 | A join of non-empty parts is empty iff there are no parts. |
| Footer.FormatHours | Front-end/src/components/store/Footer.tsx:46 | Each entry is formatted in place, and none is empty. |
| Footer.WorkingHoursText | Front-end/src/components/store/Footer.tsx:43-48 | The text is "" iff the hours are missing or empty, so the clock row shows iff there is an entry. A single entry is shown as is. |
| Footer.WorkingHoursAppend | Front-end/src/components/store/Footer.tsx:43-48 | One more entry appends " \| " and its text, and the earlier entries keep their order. |
| Footer.ShownCategories | Front-end/src/components/store/Footer.tsx:195 | The first min(n, 5) categories are shown, in order. |
| Footer.IconFor | Front-end/src/components/store/Footer.tsx:25-31 | An icon exists iff the platform is one of the five known keys. |
| Footer.SocialButtons | Front-end/src/components/store/Footer.tsx:91-118 | There is a button for every entry with a truthy URL, and for no other entry. Each button has its entry's link and the icon of its platform. |
| Footer.SocialButtonsAppend | Front-end/src/components/store/Footer.tsx:92-118 | Buttons keep the order of the entries. |
| Footer.CategoryHrefInjective | Front-end/src/components/store/Footer.tsx:199 | Category links are distinct: equal routes mean equal ids. |
| Footer.SocialRow | Front-end/src/components/store/Footer.tsx:91-118 | The row is empty exactly when there is no links record or no entry has a truthy URL. |
| Footer.Description | Front-end/src/components/store/Footer.tsx:86 | The description is never empty: the merchant's own when truthy, else the default. |
| Footer.AddressText | Front-end/src/components/store/Footer.tsx:240-242 | The address reads "street, city, country": it starts with the street, ends with the country, and is four characters longer than the three parts. |
| Footer.ContactRows | Front-end/src/components/store/Footer.tsx:228-270 | The contact column lists the address, phone and hours rows in that order, each at most once. The address row shows the first address iff there is one, the phone row iff the phone is truthy, and the hours row iff there is an entry. |

## Left out

- Rendering details are not modelled: styling, layout, icons, tooltips, `toLocaleTimeString`/`toLocaleString`, twemoji parsing and scrolling to the last message.
- The socket plumbing is not part of this model: `useChatWebSocket`, and `useAdminNotifications` with its fixed admin room. Pushed events are method calls.
- The REST wrappers (`api/*.ts`) are not part of this model. Each request's outcome is a method parameter, and the posted body is the method's result.
- Browser APIs are parameters or dropped: `MediaRecorder` and `getUserMedia` (a granted flag), `AudioContext` (an availability flag), the clipboard (the copied text), and timers (an event method).
- Asynchronous interleavings are modelled only where the model splits a handler into a request step and an answer step, as it does for the document upload (`HandleUpload` sets `uploading`, `UploadCompleted` clears it). The storefront save is one step, so its in-flight flag `saveLoading` (which disables the save button) is not part of the model. Overlapping requests, and answers that arrive after unmount, are not modelled.
- DocumentsTab.DocumentsPanel: a rejected upload request is not an event of the model. The source has no try/finally around the upload, so a rejection leaves `uploading` true and the upload button disabled until the panel remounts. In the model this is the state after `HandleUpload` accepts a file and `UploadCompleted` is never called.
- The live preview of the chat settings page is not modelled: the `previewLoaded` flag, the script injection, and the embed-script text with its copy button. This is string assembly for a third-party script.
- A failed storefront load is kept as the source has it: the request has no `.catch`, so `storefront` stays empty and the page shows its spinner for good. In the model `ThemeEditor.FormShown()` then stays false, and every form handler changes nothing.
- ChatSettings.SettingsPage.SlugGenerated takes the "draft existed at click time" flag as a parameter; the timing that makes it differ from the current draft is not modelled.
- The merchant and category records (`types/merchant`, `types/Category`) are not part of this model. The footer takes only the fields it reads.
- Text.ToLowerAscii lowers ASCII letters only. For the document whitelist this decides the same as full Unicode `toLowerCase`, because no non-ASCII character lowers to one of the letters of pdf, doc, docx, xls or xlsx.
- Footer.IconFor does not model lookups of inherited `Object.prototype` keys (a platform named "constructor", say), which the source's object indexing would also reach.
- ChatWindow.RenderWindow models the message list as given: the optional `_id` used as the React key does not affect what is shown.
