# OMR admin console: client state model

This project is a Dafny model of the client side of the OMR admin console. The
console is a single-page application in which a small business configures its
WhatsApp assistant: company data, products, FAQs, the connected instance, a
test chat and a support channel. The model covers:

- **the global store** (`store.dfy`, `domain.dfy`): one application state,
  shallow-merged by `setState`. A commit that names `theme` persists the theme
  and sets the root `data-theme` attribute. A commit that names `auth`
  persists or removes the session. A commit that names `layout` syncs two
  root attributes. Listeners are notified after all of that.
- **the session format** (`session_codec.dfy`): the JSON written to
  `omr:session`, with its own encoder and decoder and a round-trip proof.
- **routing and layout** (`app.dfy`): the hash router and its fixed point,
  bootstrap, the debouncer and the layout resize.
- **the backend envelope** (`api.dfy`): the request body, response parsing,
  the timeout race and the logout side effect.
- **the view handlers** (`handlers.dfy`, `ui_helpers.dfy`, `cards.dfy`):
  login, demo, logout, theme, the company form and its editable cards, chat,
  instance actions and support.
- **the data-access layer** (`service.dfy`): sanitising, price parsing, row
  mappers, error translation and tolerance, and the workspace fetch and save
  flows.
- **the start-up configuration** (`config.dfy`): the environment lookup and
  the missing-configuration error.

Dynamic JavaScript values (server JSON, error objects, form data) are the
datatype `Js.Value`. Objects are maps and numbers are integers. `Js.Trim` is
`String.prototype.trim` over the ECMAScript white-space set.

The store is a class (`State.Store`). It holds:

- the state;
- `localStorage`, as a map;
- the root element's attributes, as a map;
- the listener ids;
- a trace of every effect performed, in order.

Each handler is a method that performs the same `setState` commits as the
source, in the same order. A network call is a list of race events: the
response or the 20 s timer, whichever fires first. Each query of the
data-access layer is answered by a `Reply` taken from a `Backend`. The flows
return the list of calls they make, in order.

## Model

| member | source | states |
|---|---|---|
| State.Store.constructor | src/state.js:12-48 | The initial state: the stored theme or `light`, the login view, signed out, every pending flag off, persona josi. The root theme and layout attributes are applied at load. |
| State.Store.SetState | src/state.js:57-76 | The new state is the old state shallow-merged with the partial, or with what the updater returns for the old state. The trace is the theme step, then the auth step, then the layout step (each only when its key is named), then one notification per listener. |
| State.Store.PersistTheme | src/state.js:78-81 | Stores the theme under `omr:theme` and sets `data-theme` on the root. Nothing else changes. |
| State.Store.PersistAuth | src/state.js:89-101 | With a token, stores the session JSON under `omr:session`. Without one, removes that key. |
| State.Store.SyncLayout | src/state.js:83-87 | Sets the root breakpoint and viewport attributes from the layout. Storage is untouched. |
| State.Store.NotifyListeners | src/state.js:75 | Notifies every subscribed listener once, in order, and writes nothing. |
| State.Store.Subscribe | src/state.js:52-55 | Adding a listener that is already present changes nothing. A new listener is added at the end. |
| State.Store.Unsubscribe | src/state.js:54 | The listener is removed, the others stay in order, and the result says whether it was present. |
| State.Without | src/state.js:54 | The removed listener is absent, every other listener is kept, and duplicate-freedom is preserved. |
| State.ListenersAfterPersistence | src/state.js:63-75 | In a commit's trace every notification comes after every persistence effect. The last entries are the listeners in order, and no listener is notified twice. |
| State.ThemePersistedIffNamed | src/state.js:57-81 | After a commit naming `theme`, storage key `omr:theme` and attribute `data-theme` hold the new theme. Otherwise the stored theme is untouched. |
| State.ThemeStepWrites | src/state.js:78-81 | Persisting a theme sets exactly the stored theme key and the `data-theme` attribute. |
| State.SessionPersistedIffNamed | src/state.js:57-101 | After a commit naming `auth`, `omr:session` holds the encoded session when there is a token, and is removed when there is none. Otherwise it is untouched. |
| State.PersistThenHydrate | src/state.js:89-126 | What a commit persists, hydration reads back: the same auth when there is a token, nothing stored otherwise. |
| State.PersistedSessionRestores | src/state.js:89-126 | A single persisted session, read by hydration, restores the same auth, or reads as nothing stored when there is no token. |
| State.AuthOnlyCommit | src/state.js:57-76 | A commit naming only `auth` changes storage exactly by the session write and leaves the attributes alone. |
| State.QuietCommit | src/state.js:57-76 | A commit naming none of theme, auth or layout performs only the notifications and changes neither storage nor attributes. |
| State.NotificationsWriteNothing | src/state.js:75 | Notifying listeners writes neither storage nor attributes. |
| State.HydrationOf | src/state.js:103-126 | Hydration restores a session only when that session carries a token. |
| State.Store.HydrateAuth | src/state.js:103-126 | A stored session with a token is committed together with the `dados` view. Unreadable content is removed and the state is left alone. An absent or token-less session changes nothing. |
| State.Store.ShowToast | src/state.js:132-143 | Only the toast changes: message, tone (default success) and timestamp. Storage and attributes are untouched and listeners are notified. |
| State.Store.ExpireToast | src/state.js:144-146 | As written, the timer clears whatever toast is showing and notifies every listener, even when no toast was showing or a newer toast replaced the timer's own. Storage and attributes are untouched. |
| State.Store.ExpireOwnToast | src/state.js:144-146 | The intended timer, for the toast shown at a given time: the toast becomes ClearToastCorrected of the one showing. Listeners are notified only when it changed, and storage and attributes are untouched. |
| State.ClearToastCorrected | src/state.js:144-146 | The result is empty exactly when nothing was shown or the shown toast is the timer's own. Otherwise it is the current toast. |
| State.AsWrittenClearsNewerToast | src/state.js:132-146 | As written, a toast shown 2.9 s after another is removed by the first toast's timer. With the corrected clear it stays. |
| State.CorrectedToastStaysUntilOwnTimer | src/state.js:132-146 | With the corrected clear, a toast stays through other timers and goes when its own timer fires. |
| Domain.MergeNoChange | src/state.js:60 | Merging an empty partial leaves the state unchanged. |
| Domain.MergeIdempotent | src/state.js:60 | Merging the same partial twice is merging it once. |
| SessionCodec.EscapeChar | src/state.js:91-97 | A JSON string escape is never empty and never starts with a quote. |
| SessionCodec.SessionRoundTrip | src/state.js:89-126 | Decoding the JSON `persistAuth` writes gives back the same user and token. |
| SessionCodec.UserRoundTrip | src/state.js:93-95 | The user object (null, or id and email, each nullable) round-trips, whatever follows it. |
| SessionCodec.NullableRoundTrip | src/state.js:93-95 | A nullable string round-trips through `null` or a quoted string. |
| SessionCodec.QuotedRoundTrip | src/state.js:93-96 | A quoted, escaped string parses back to itself, whatever follows it. |
| SessionCodec.StringBodyOfEscape | src/state.js:93-96 | The body of an escaped string parses up to its closing quote. |
| SessionCodec.NextCharOfEscape | src/state.js:93-96 | Each escaped character decodes to itself. |
| SessionCodec.DecodeSteps | src/state.js:108-110 | A string made of the session's parts, in order, decodes to that user and token. |
| App.StripHash | src/app.js:17 | `replace('#', '')` removes the first `#` only, so the length drops by one exactly when a `#` is present. |
| App.StripHashRemovesFirst | src/app.js:17 | When the first `#` of the hash is at position i, the result is the hash with exactly that character removed: everything before and after it is kept in order. |
| App.HashTarget | src/app.js:16-23 | The router switches views exactly when the hash names a valid view other than the current one. |
| App.HashWrite | src/app.js:25-34 | The login view clears the hash. Any other view writes itself, and only when the hash does not already name it. |
| App.HashAfterSyncReadsView | src/app.js:25-34 | After syncing, the hash reads back as the current view, or as empty for login. |
| App.SyncFixedPoint | src/app.js:16-34 | Syncing state to hash and then hash to state does not loop: the second step changes nothing. |
| App.SyncHashWithState | src/app.js:16-23 | A valid new hash is committed as the current view and notifies listeners. Otherwise nothing happens. |
| App.SyncStateWithHash | src/app.js:25-34 | The location's hash is written only as `HashWrite` decides, and the write is recorded. |
| App.Location.Assign | src/app.js:25-34 | Assigning the hash stores it with a leading `#`, or empty for the empty string. |
| App.Location.constructor | src/app.js:16 | The location starts with the page's hash and no writes. |
| App.InitialRoute | src/app.js:74-82 | Login stays login. Otherwise a valid hash wins, and anything else falls back to `dados`. |
| App.Bootstrap | src/app.js:71-100 | After start-up, the view is the initial route of the hydrated view, auth is the restored session if any, `hasHydrated` is set and the layout matches the window. Every other state field keeps its value. Storage is changed only by hydration: a restored session is rewritten and an unreadable one is removed. The app listener is added once, at the end. The root attributes change only when the layout does. |
| App.SettleInitialRoute | src/app.js:74-82 | The `route:init` commit changes only the view, to the initial route of the current one, and writes neither storage nor attributes. Listeners are notified unless the view is login, in which case nothing is committed. |
| App.MarkHydrated | src/app.js:95 | The `app:hydrated` commit sets `hasHydrated` and changes nothing else. |
| App.ApplyLayoutResize | src/app.js:41-64 | An unchanged breakpoint and viewport commit nothing. A change commits the new layout, syncs the root attributes and notifies listeners. |
| App.BurstKeepsLast | src/app.js:8-14 | A burst of calls leaves pending only the last call's arguments. |
| App.BurstRunsLastOnce | src/app.js:8-14 | A burst followed by a quiet delay runs the function once, with the last arguments. |
| App.Debouncer.constructor | src/app.js:9 | A new debouncer has no pending call and has run nothing. |
| App.Debouncer.Invoke | src/app.js:10-13 | A call replaces the pending arguments and runs nothing. |
| App.Debouncer.Fire | src/app.js:12 | The timer runs the pending call, if any, and leaves nothing pending. |
| App.Debouncer.Replay | src/app.js:8-14 | Replaying events runs exactly the calls the debouncing specification says. |
| Api.BuildRequestBody | src/api.js:22-37 | The body carries the action and payload. The `auth` key is present exactly when requested, with the user id or null and the token or null. |
| Api.UserIdOf | src/api.js:31 | The user id is sent when it is a non-empty string, otherwise null. |
| Api.FieldOrNull | src/api.js:44-46 | An envelope field is the body's field when truthy, otherwise null. |
| Api.ParseResponse | src/api.js:39-54 | A reply succeeds exactly when the status is 2xx and the body's `ok` is truthy. Success carries the status and the data, error and meta fields. Failure carries the body's error, or INTERNAL_ERROR, and it is always truthy. |
| Api.UnparseableBodyIsInternalError | src/api.js:39-54 | A body that is not JSON fails with INTERNAL_ERROR, whatever the status. |
| Api.WithTimeout | src/api.js:8-20 | The outcome is whichever of the response and the timer fires first, and the promise settles once. |
| Api.Post | src/api.js:56-83 | The body sent, the result, and the state change on a successful logout: signed out, login view, session removed, listeners notified. Any other call changes no state, storage or attributes. |
| UiHelpers.EscapeHTML | src/ui.js:4-10 | Null and undefined escape to the empty string. Any other value is converted to text and each character is escaped. |
| UiHelpers.EscapeEach | src/ui.js:4-10 | The escaped text contains no `<`, `>`, `"` or `'`. |
| UiHelpers.PassesAreEach | src/ui.js:4-10 | Chained global replaces, `&` first, equal per-character escaping: nothing is escaped twice. |
| UiHelpers.UnescapeEscape | src/ui.js:4-10 | Escaping loses nothing: unescaping gives the original text back. |
| UiHelpers.DadosViewOf | src/ui.js:292-297 | The company form shows the draft's fields over the saved company's, and every saved field the draft does not set. The persona is the form's when truthy, otherwise josi. Without a draft, the products and FAQs are the saved company's when present, otherwise empty. With one, they are the draft's. |
| UiHelpers.ConexoesViewOf | src/ui.js:453-456 | Without a draft the panel shows the first saved instance. With a draft its keys are the instance's keys plus the draft's: each draft setting is shown, and every instance key the draft does not set keeps the instance's value. |
| UiHelpers.ToneKey | src/ui.js:578-581 | The toast tone is a known tone, falling back to `info`. |
| UiHelpers.ErrorMessage | src/ui.js:1079 | A caught error shows its own message when truthy, otherwise the handler's fallback. |
| UiHelpers.EmpresaOf | src/ui.js:894-906 | The company name is the form's `empresa_nome` field, or empty. The persona is never empty, because it defaults to josi. |
| UiHelpers.KeptProdutos | src/ui.js:908-916 | Only products with a name are kept. |
| UiHelpers.KeptFaqs | src/ui.js:918-923 | Only FAQs with both a question and an answer are kept. |
| UiHelpers.KeptProdutosMembers | src/ui.js:908-916 | A product is kept exactly when it is some card's product and has a name. |
| UiHelpers.KeptFaqsMembers | src/ui.js:918-923 | A FAQ is kept exactly when it is some card's FAQ and has both texts. |
| UiHelpers.KeptInCardOrder | src/ui.js:908-923 | Kept items follow card order: more cards only extend the list, which is never longer than the number of cards. |
| UiHelpers.KeptProdutosInOrder | src/ui.js:908-916 | Kept products follow card order: more cards only extend the list, which is never longer than the number of cards. |
| UiHelpers.KeptFaqsInOrder | src/ui.js:918-923 | Kept FAQs follow card order: more cards only extend the list, which is never longer than the number of cards. |
| UiHelpers.BuildDadosPayload | src/ui.js:890-923 | The loop over cards builds exactly the company and the kept products and FAQs. |
| UiHelpers.CollectProdutos | src/ui.js:908-916 | The loop over the product cards pushes exactly the kept products, in card order. |
| UiHelpers.CollectFaqs | src/ui.js:918-923 | The loop over the FAQ cards pushes exactly the kept FAQs, in card order. |
| Cards.RenderCard | src/ui.js:612-652 | A new card's inputs are named `collection[index].field` and its label is numbered from one. |
| Cards.CardList.constructor | src/ui.js:822-827 | The card list starts as the rendered cards, each with one name per field. |
| Cards.CardList.Reindex | src/ui.js:829-844 | After reindexing, every card is numbered by its position, names and labels included. Nothing else changes. |
| Cards.CardList.Append | src/ui.js:846-860 | Adding a card keeps every other card element in place, puts the new element last, and leaves the list numbered by position. |
| Cards.CardList.Remove | src/ui.js:864-878 | Removing card `k` leaves exactly the other card elements, in their old order, renumbered by position. |
| Handlers.SetFlag | src/ui.js:1055-1060 | Spreading the pending flags changes exactly the named flag. |
| Handlers.FlagRoundTrip | src/ui.js:1055-1078 | Raising and then lowering a flag restores it, and restores the whole flag set if it was down. |
| Handlers.SavedEmpresa | src/ui.js:941-949 | The saved company is the previous company overlaid with the submitted fields, products and FAQs. |
| Handlers.BeginDados | src/ui.js:925-931 | The save raises its flag and keeps the payload as the draft. |
| Handlers.FinishDados | src/ui.js:933-957 | Success stores the merged company, clears the draft and shows the success toast. Failure keeps the draft and shows the error or fallback message. |
| Handlers.SubmitDados | src/ui.js:890-958 | The whole submit: the payload built from the form, the request sent, the flag lowered, and the outcome's state and toast. |
| Handlers.BeginAction | src/ui.js:1055-1060 | Starting an action raises only its flag. |
| Handlers.FinishAction | src/ui.js:1063-1078 | Finishing an action merges its outcome and lowers only its flag. |
| Handlers.RefreshedInstancias | src/ui.js:1066 | A truthy refresh result replaces the instances with it. Otherwise they are kept. |
| Handlers.SettleRefresh | src/ui.js:1063-1080 | Success stores the returned instance, clears the draft, lowers the flag and confirms. Failure lowers the flag and shows the error or the fallback message. |
| Handlers.RefreshInstancias | src/ui.js:1054-1081 | Refresh raises and lowers its flag. Success stores the instance, clears the draft and confirms. Failure shows the error. |
| Handlers.SettleDisconnect | src/ui.js:1091-1108 | Success empties the instances, clears the draft, lowers the flag and confirms. Failure lowers the flag and shows the error or the fallback message. |
| Handlers.DisconnectInstancia | src/ui.js:1083-1109 | Disconnect raises and lowers its flag. Success empties the instances and clears the draft. Failure shows the error. |
| Handlers.BeginDrafted | src/ui.js:1122-1128 | Starting a drafted action raises its flag and stores the draft. |
| Handlers.SavedInstancias | src/ui.js:1135-1140 | The saved instance list has exactly one object. |
| Handlers.SavedInstanciaOverlays | src/ui.js:1135-1140 | That object is the previous first instance overlaid with the submitted settings. |
| Handlers.SettleInstSave | src/ui.js:1130-1155 | Success stores the overlay, clears the draft and confirms. Failure keeps the draft and shows the error. |
| Handlers.SaveInstancia | src/ui.js:1111-1156 | The whole save: the draft stored, the settings sent, and the outcome's state and toast. |
| Handlers.SettleSupport | src/ui.js:1180-1196 | Success lowers the flag, clears the support field and shows the reply or "Solicitação enviada.". Failure lowers the flag, keeps the raw text and shows the error or "Erro ao enviar mensagem.". Nothing else changes. |
| Handlers.SubmitSupport | src/ui.js:1163-1198 | A blank message does nothing. Otherwise the trimmed message is sent. Success clears the field and shows the reply or the fallback. Failure keeps the raw text and shows the error. |
| Handlers.NextTheme | src/ui.js:749-752 | The toggle always gives light or dark, and flips a valid theme. |
| Handlers.ToggleTwice | src/ui.js:749-752 | Toggling twice restores a valid theme. |
| Handlers.ToggleTheme | src/ui.js:747-754 | Toggling persists the new theme to storage and to the root attribute. Only the theme changes. |
| Handlers.SelectPersona | src/ui.js:970-978 | The selected persona, or josi for an empty value, becomes the chat persona. |
| Handlers.AgentText | src/ui.js:1013-1026 | The agent's entry is the reply, or "Sem resposta.", or the error message, or "Falha ao processar.". |
| Handlers.AppendChat | src/ui.js:996-1004 | A chat entry is appended and the send flag is set as given. |
| Handlers.SendChat | src/ui.js:987-1037 | A blank message does nothing. Otherwise the chat gains the user's entry and then the agent's, with the persona and trimmed message sent, and the flag ends down. |
| Handlers.EndSession | src/ui.js:763-782 | Signing out resets auth, the view, the forms and the chat, removes the stored session and shows "Sessão encerrada.". |
| Handlers.Logout | src/ui.js:756-784 | Whether or not the request succeeds, the session ends and the stored session is gone, so nothing is restored on reload. |
| Handlers.AsText | src/ui.js:1204-1206 | A nullish identity value is absent. A string is kept as it is. |
| Handlers.LoginIdentity | src/ui.js:1204-1206 | The `??` chains: the user id from `user_id`, then `user.id`. The email from `email`, then `user.email`, then the fallback. The token from `session_token`, then `sessionToken`. |
| Handlers.LoginPartial | src/ui.js:1210-1234 | The login commit names auth and never theme or layout. It names the company only when truthy, and the instances only when an array. |
| Handlers.ContextPartial | src/ui.js:1244-1250 | The context commit names exactly two fields: the company or null, and the instances or an empty list. Nothing else is named, so nothing is persisted. |
| Handlers.Greeted | src/ui.js:1204-1238 | After the login commit and greeting, auth is the login identity, the view is dados, forms and chat are reset, the signup modal is closed and the toast is the greeting. A truthy company and an array of instances from the reply are taken. Theme, layout, pending flags, onboarding, drawer and the hydration flag are unchanged. |
| Handlers.LoggedIn | src/ui.js:1204-1253 | After the `auth.me` call, a failure leaves the greeted state. A success sets the company (or null) and the instances (or an empty list) of its reply. |
| Handlers.CommitLogin | src/ui.js:1236 | The login commit persists exactly the new session and touches no attribute. |
| Handlers.HydrateContext | src/ui.js:1242-1253 | Success commits the context. Failure leaves the state alone. |
| Handlers.GreetLogin | src/ui.js:1204-1238 | The login commit and the greeting leave the state equal to Greeted. The storage is the persisted session, which would be restored on reload, and the root attributes are unchanged. |
| Handlers.HandleLoginSuccess | src/ui.js:1201-1254 | The session is persisted and would be restored on reload. When the context call is skipped, the state is Greeted with the demo greeting. Otherwise the `auth.me` body is sent and the state is LoggedIn. |
| Handlers.Credentials | src/ui.js:703 | The login payload is an object with exactly the keys `email` and `password`, holding the values given. |
| Handlers.SettleLogin | src/ui.js:702-708 | Success leaves exactly the state LoggedIn gives (identity, dados view, reset forms and chat, greeting, the `auth.me` context, everything else unchanged) and a restorable session. Failure shows the error or "Falha ao autenticar. Confira as credenciais." and changes nothing else. |
| Handlers.SubmitLogin | src/ui.js:683-716 | Blank input shows "Informe e-mail e senha." and sends nothing. Otherwise the email is drafted and the request is sent without auth. On success the state is LoggedIn with the flag down and the session is persisted. On failure only the flag, the drafted email and the error toast change. |
| Handlers.SendLogin | src/ui.js:694-715 | With non-blank credentials, the request body sent, the drafted email, and the settled state LoginSettled: LoggedIn with the flag down on success, only the flag, email and error toast on failure. |
| Handlers.DemoData | src/ui.js:724-728 | The demo token is `demo-` followed by the time. |
| Handlers.DemoIdentity | src/ui.js:722-731 | The demo identity is demo-user, demo@omr.studio, and a non-empty token. |
| Handlers.EnterDemo | src/ui.js:721-731 | The demo signs in as the demo user: the state is exactly Greeted with "Sessão demo iniciada." (the dados view, reset forms and chat, everything else unchanged), and the persisted session restores it. |
| Service.Translate | src/supabaseService.js:3-7 | A client error keeps the original code and message when truthy, otherwise the fallbacks. |
| Service.TranslateKeepsCode | src/supabaseService.js:3-7 | A translated error always has a truthy code. |
| Service.SanitizeString | src/supabaseService.js:9 | Null and undefined become the empty string, other non-strings are kept, and a string never grows. SanitizeTrims states the trim. |
| Service.SanitizeTrims | src/supabaseService.js:9 | A sanitised string is the slice of the input after its leading white space that neither starts nor ends with white space. It is empty exactly when the input is all white space. |
| Service.SanitizeIdempotent | src/supabaseService.js:9 | Sanitising twice is sanitising once. |
| Service.PriceChars | src/supabaseService.js:14 | Only digits, `.`, `,` and `-` remain, and the text never grows. |
| Service.PriceCharsCounts | src/supabaseService.js:14 | Each price character occurs as often as in the input, and nothing else occurs. |
| Service.ReplaceFirstComma | src/supabaseService.js:15 | The length is kept, and a text without a comma is unchanged. |
| Service.ReplaceFirstCommaCounts | src/supabaseService.js:15 | With a comma, one comma becomes a point and every other character count is kept. Without one, the text is unchanged. |
| Service.NormalizePreco | src/supabaseService.js:11-15 | Null and undefined give no text, and any other value gives some. |
| Service.NormalizePrecoChars | src/supabaseService.js:11-15 | A normalised price holds only price characters and is no longer than the input's text. |
| Service.NormalizePrecoCounts | src/supabaseService.js:11-15 | A normalised price keeps every digit of the input's text and has one comma fewer when the text has one. |
| Service.PrecoValue | src/supabaseService.js:11-18 | A missing price is null. |
| Service.MapProdutoRow | src/supabaseService.js:20-25 | Exactly the keys id, nome, descricao and preco. The id is copied. A truthy name or description is the row's, otherwise empty. A non-null price becomes its string form, so a string price is kept, and a null price is empty. |
| Service.MapFaqRow | src/supabaseService.js:27-31 | Exactly the keys id, pergunta and resposta. The id is copied. A truthy question or answer is the row's own, otherwise empty. |
| Service.LastEvent | src/supabaseService.js:35-44 | The last event is empty when falsy, the string itself, the object's string message, or otherwise its JSON text. |
| Service.SettingsOf | src/supabaseService.js:34 | A truthy object `settings` is returned as it is. Anything else gives `{}`. |
| Service.ToggleFields | src/supabaseService.js:52-56 | Each toggle is the truthiness of its setting. |
| Service.MapInstanciaRow | src/supabaseService.js:33-61 | Each toggle is the truthiness of its setting. A falsy status is desconectado. Logs are always an array and the last event is its text. Without a settings object every toggle is off, logs are empty, the rejection text is empty and the QR is null. |
| Service.MapInstanciaRowKeys | src/supabaseService.js:46-60 | A mapped instance has exactly the eight instance fields and the five toggles. |
| Service.MapInstanciaRowKeeps | src/supabaseService.js:47-50 | The ids are copied, the Evolution id defaults to empty, and a truthy status is kept. |
| Service.MapInstanciaRowSettings | src/supabaseService.js:51-59 | The rejection text and the QR come from the settings, defaulting to empty and null. The logs are the settings' logs when those are an array, otherwise empty. |
| Service.RowsOf | src/supabaseService.js:181 | A list is its items when an array, otherwise empty. |
| Service.AuthenticatedUser | src/supabaseService.js:63-72 | An auth error is translated. A missing user is AUTH_REQUIRED. Otherwise it is the user. |
| Service.UsuarioRow | src/supabaseService.js:77-80 | The user row has the user's id, and the override email when that is truthy. |
| Service.EnsureUsuarioRecord | src/supabaseService.js:74-105 | Without an id nothing is called. A 23505 upsert error and a PGRST116 read error are tolerated, and other errors fail. Success is the stored row or the written one. |
| Service.ReadChildren | src/supabaseService.js:170-209 | Products, FAQs and instances are read in that order. The first error stops the reads and is translated with its own message. Success maps every row of the three replies. |
| Service.EmpresaOfRow | src/supabaseService.js:211-224 | The company keeps the row's id. The persona defaults to josi. The products and FAQs are the mapped children. A falsy name is empty. |
| Service.Context | src/supabaseService.js:228-233 | The context has exactly the keys user, usuario, empresa and instancias: the user's id and email, the user record, the company and the instances. |
| Service.CompanyContextOf | src/supabaseService.js:170-233 | With a company row, the context fails exactly when a child read fails, with that error. Otherwise it carries the user record, the company built from the row and mapped children, and the mapped instances. |
| Service.ContextOf | src/supabaseService.js:144-234 | The fetch's result: an auth error; a translated company error; no company giving a null company and no instances; a child error; or the full context. A failure comes only from those errors, and a success carries the user record or null. |
| Service.FetchWorkspaceContext | src/supabaseService.js:144-234 | The fetch starts with the user and writes nothing but the user record. Its result is ContextOf: an auth failure fails at once, and no company means no child read. |
| Service.FetchAsUser | src/supabaseService.js:147-233 | Once the user is known, the reads write nothing, read no child without a company, and give UserContextOf. |
| Service.LoadUsuario | src/supabaseService.js:147-152 | Ensuring the user record touches no company, and a failure leaves the record null. |
| Service.LoadCompany | src/supabaseService.js:170-233 | With a company row only children are read, and the result is CompanyContextOf. |
| Service.EmpresaData | src/supabaseService.js:246-254 | Exactly the six sanitised texts and a truthy persona defaulting to josi. |
| Service.ProdutoInsertRow | src/supabaseService.js:306-311 | An inserted product has the company id, the sanitised name, and the sanitised description or null when that is empty. |
| Service.ProdutoInsertRowPreco | src/supabaseService.js:310 | Its price is the parsed submitted price, and null when none was given. |
| Service.ProdutoInserts | src/supabaseService.js:304-313 | Every inserted product has a name and a null or non-empty description. |
| Service.ProdutoInsertsKeep | src/supabaseService.js:305-312 | Every submitted product whose sanitised name is non-empty has its row among the inserts. |
| Service.ProdutoInsertsOnly | src/supabaseService.js:305-312 | Every insert is the row of some submitted product. |
| Service.ProdutoInsertsAppend | src/supabaseService.js:305-312 | Filtering keeps input order. |
| Service.FaqInsertRow | src/supabaseService.js:332-336 | An inserted FAQ has the company id and the sanitised question and answer. |
| Service.FaqInserts | src/supabaseService.js:330-337 | Every inserted FAQ has both texts. |
| Service.FaqInsertsKeep | src/supabaseService.js:331-337 | The filter keeps exactly the FAQs with both texts. |
| Service.FaqInsertsAppend | src/supabaseService.js:331-337 | Filtering keeps input order. |
| Service.NewEmpresa | src/supabaseService.js:281 | A new company row is the company fields plus the owner's id. |
| Service.WriteEmpresa | src/supabaseService.js:256-294 | A lookup error fails. A found company is updated, and the result is its id or the update's error. Otherwise a company is inserted with the owner's id, and the result is the inserted id, the insert's error, or "Não foi possível determinar a empresa.". The calls are exactly those. |
| Service.EmpresaCallsOf | src/supabaseService.js:256-290 | A company write is the lookup, then at most one update with the data or one insert with the data and owner. |
| Service.EmpresaWriteOf | src/supabaseService.js:256-294 | A company write that succeeds gives a truthy id. |
| Service.ReplaceProdutos | src/supabaseService.js:299-323 | Delete first. An insert is made only when some product is kept. The call list and the error are exactly as the source goes. |
| Service.ReplaceFaqs | src/supabaseService.js:325-348 | Delete first. An insert is made only when some FAQ is kept. The call list and the error are exactly as the source goes. |
| Service.ProdutoCallsShape | src/supabaseService.js:299-323 | A product replacement deletes first and inserts only the kept rows. |
| Service.FaqCallsShape | src/supabaseService.js:325-348 | A FAQ replacement deletes first and inserts only the kept rows. |
| Service.ChildWriteCallsShape | src/supabaseService.js:296-348 | A child replacement deletes products first, only deletes and inserts children, and inserts exactly the kept rows, all valid. |
| Service.ReplaceChildren | src/supabaseService.js:296-348 | Products are replaced before FAQs, starting with the product delete, and a product error stops before the FAQs. Every insert holds exactly the kept rows of the submitted lists. The error is the products' or else the FAQs'. |
| Service.EmpresaDataWrites | src/supabaseService.js:246-290 | Every company write carries a non-empty name and the defaulted persona. |
| Service.ChildCallsAppend | src/supabaseService.js:296-348 | Appending the child calls keeps both invariants. |
| Service.WriteWorkspace | src/supabaseService.js:246-348 | The company is written, then its children. A failed company write stops there with its error. A child error fails the whole write. Every insert holds exactly the kept submitted rows for the company written, and every company write carries the name and persona. |
| Service.WorkspaceWriteOf | src/supabaseService.js:256-348 | A save's writes give a truthy id on success, and a failed company write's error otherwise. |
| Service.WorkspaceCallsShape | src/supabaseService.js:256-348 | A save's writes start with the lookup, write only the workspace, and stop after a failed company write. |
| Service.WorkspaceCallsValid | src/supabaseService.js:256-348 | Every company write of a save carries the name and the persona, and every insert is valid. |
| Service.WorkspaceCallsInserts | src/supabaseService.js:296-348 | Every insert of a save holds exactly the kept submitted rows for the company written. |
| Service.WriteCompanyThenChildren | src/supabaseService.js:256-348 | The company write, then, unless it failed, the child replacement: exactly WorkspaceWriteOf and WorkspaceCallsOf. |
| Service.WriteThenFetch | src/supabaseService.js:256-351 | A write error is the result. Otherwise the result is the fresh fetch ContextOf, and inserts hold the kept submitted rows. |
| Service.SaveAsUser | src/supabaseService.js:236-351 | Once the user is known: a record failure or an empty name fails before any company query, with INVALID_INPUT for the name. Otherwise the write error or the fresh fetch. |
| Service.SaveWorkspaceContext | src/supabaseService.js:236-351 | The save starts with the user. An auth failure fails at once and a user-record failure fails before any company query. An empty sanitised name then gives INVALID_INPUT with no company query. Otherwise a write error is the result, and a success is exactly the fresh fetch ContextOf. Inserts hold the kept submitted rows. |
| Config.PickInSource | src/supabase.js:30-34 | The value found is never falsy. |
| Config.PickEnvValue | src/supabase.js:27-37 | The value found is never falsy: `''` is skipped. |
| Config.PickInSourceFirst | src/supabase.js:30-34 | Within one source, the first key held wins, and null means none is held. |
| Config.PickNullIffNothingFound | src/supabase.js:27-37 | `pickEnvValue` is null exactly when no object source holds any listed key with a truthy value. |
| Config.PickIsFirstFound | src/supabase.js:28-34 | Lookup is source-major: the value comes from the earliest source holding any key, under its earliest key. |
| Config.ShiftFound | src/supabase.js:28-29 | Skipping the first source shifts every later find by one. |
| Config.Sources | src/supabase.js:3-25 | The three environments, each `{}` when absent, are all truthy. |
| Config.Chain | src/supabase.js:43-61 | The first direct field wins, then the second, then the keyed lookup. |
| Config.ChainProvided | src/supabase.js:43-61 | A value is found exactly when a direct field or a source provides one. |
| Config.LoadConfig | src/supabase.js:63-67 | Success carries a truthy URL and key. Failure is the missing-configuration error. |
| Config.LoadConfigSucceedsIff | src/supabase.js:43-67 | Start-up succeeds exactly when both the URL and the anonymous key are provided somewhere. |
| Config.UrlFromEarliestSource | src/supabase.js:43-51 | Without the direct fields, the URL comes from the earliest environment and key holding one. |
| Js.Trim | src/supabaseService.js:9 | The trimmed text is never longer than the input, and it is empty exactly when the input is all white space. TrimSlice states which slice it is. |
| Js.TrimSlice | src/supabaseService.js:9 | The trimmed text is the slice of the input after its leading white space, and it neither starts nor ends with white space. |
| Js.TrimIdempotent | src/ui.js:1167 | Trimming twice is trimming once. |

## Left out

- Floating point is not modelled. Numbers are integers. `Number.parseFloat` and the finiteness check are the parameter `parseNumber`. `JSON.stringify` of a last event is the parameter `stringify`, and its throw path (a cyclic object) is not modelled.
- The clock and random ids are parameters. Each handler takes one `now`, and chat entries take their ids from the caller.
- Listener bodies are not executed. `render` is not modelled. The router listener's effect is `App.SyncStateWithHash`, which is called separately.
- The DOM is abstract. The location is a `Location` object with a hash. Cards are a `CardList` of input names and labels, and each card's element is an abstract `node` number that the page supplies. Aliasing between DOM nodes is not modelled. The inputs the handlers clear (`input.value = ''`) are not modelled.
- Spreads of non-object values are treated as empty objects.
- Handlers.AsText: an identity value that is neither a string nor nullish is converted with `ToStr`, a simplified `String()`.
- SessionCodec: only the JSON shape `persistAuth` writes is decoded. Any other JSON, even if equivalent, reads as malformed.
- A null `layout` in the state is not modelled. The layout is always present.
- Event timing is not modelled. A `hashchange` or resize is a method call at a chosen point.
- The signup modal, the drawer and the tabs are not part of this model. `onboarding.js`, `constants.js` and the render functions are not part of this model either.
- Service.RowsOf: a truthy reply that is not an array is treated as empty. The source would throw on `.map`.
- Service.MapProdutoRow, Service.MapFaqRow, Service.MapInstanciaRow: a null row is treated as an empty object. The source throws on `row.id`, so a child reply holding a null row makes `ReadChildren` and `FetchWorkspaceContext` succeed here where the source rejects.
- The backend answers each query the same way every time. The fetch after a save reuses the same `getUser` reply.
- The network, the database client and its auth calls are replies drawn from a `Backend`. `createClient` is not modelled.
- Config: a truthy primitive source is treated as holding no keys. In JavaScript, `in` throws on it.
- Logging (`console.*`) is not modelled.
- `localStorage` calls and listeners never throw. The `catch` of `hydrateAuth` is modelled only for a stored value that is not the session JSON, which is then removed.

Where the code and its design description differ, the model follows the code:

- Outside `hydrateAuth`, nothing catches a storage error: a `setItem` that throws in `persistTheme` or `persistAuth` propagates out of `setState`. Inside `hydrateAuth`, the `try` covers the read, the parse and the whole restoring commit, including its storage write and its listeners.
- The empty-company-name check happens in `saveWorkspaceContext`. On the form, the name field is only marked `required`.
- A timeout rejects with an `Error` whose message is REQUEST_TIMEOUT. It is not a `{code, message}` object.

## Findings

| source | as written | input that shows it | evidently intended | confidence | as-written member | corrected member |
|---|---|---|---|---|---|---|
| src/state.js:144-146 | The 3 s timer of `showToast` clears whatever toast is showing. | Show toast A at 0 ms, then toast B at 2900 ms. A's timer at 3000 ms removes B after only 100 ms. | Each timer clears only its own toast, so every toast stays about 3 s. | not executed | State.AsWrittenClearsNewerToast | State.ClearToastCorrected |
