# magic-web client logic in Dafny

This project models the client-side logic of the magic-web chat application (a React front
end for the Magic2k chat service) and proves properties of it. The markup, styles and browser
APIs are not modelled; the logic underneath them is:

- **Token store and authenticated requests** (`token_store.dfy`, `api.dfy`, `auth.dfy`).
  - localStorage is a `Storage` object holding a string map.
  - The network is a `Network` object. It answers each `fetch` with the next outcome of a
    script and records every request sent.
  - `fetchWithAuth` and `refreshAccessToken` are imperative methods. Each is proved equal to a
    pure reference function (`FetchSpec`, `RefreshSpec`), and the properties are proved about
    those functions:
    - request and refresh bounds;
    - which paths clear the store;
    - the error classification, where a 5xx status overrides the server's message;
    - the `Bearer ` prefix.
  - The auth context's `login`/`logout` go through a `Session` value (auth record plus store).
- **Message timeline of the chat window** (`timeline.dfy`).
  - A socket message is appended only when its `_id` is new.
  - The lemmas prove, for any sequence of messages:
    - idempotence;
    - prefix preservation;
    - id-set growth;
    - distinct ids stay distinct.
  - The history load replaces the list instead of merging. `HistoryDropsEarlierLiveMessage`
    shows a socket message being lost to a later history reply.
- **Local conversation screen** (`local_chat.dfy`): seeded entries, then one unconditional
  append per send.
- **Roster helpers** (`roster.dfy`, `chat_list.dfy`):
  - the self-exclusion filter of the user search;
  - resolution of the other participant;
  - the badge and label fallbacks;
  - the list screens' load, search and chat-creation state.
- **Registration and login modals** (`register.dfy`):
  - the ordered `validate` checks;
  - an executable e-mail check, proved equivalent to the meaning of `^\S+@\S+\.\S+$`;
  - `getInitials`;
  - the register payload's avatar;
  - the error-text fallbacks;
  - the `/home` guard.
- **Shell navigation** (`navigation.dfy`, `legacy_app.dfy`).
  - `getAvatarUrl` and its idempotence.
  - The section/selection state machine, shared by the current and the older shell. Whatever
    the clicks, a room section always has its selection. No screen calls `onSelectGroup`, so
    no group is ever selected and the group room is unreachable.
- **Socket lifecycle** (`sockets.dfy`, `socket_provider.dfy`). Sockets are abstract handles
  in a `SocketIo` object that logs every operation. The provider keeps at most one of its
  own sockets live.
- **Message composer** (`message_input.dfy`):
  - the send/clear rule on the raw input;
  - the typing callback;
  - the image field reset;
  - the recorder toggle.

`js.dfy` holds the JavaScript notions the code relies on:
- `undefined`/`null`/string values and their truthiness;
- `String(v)` as stored by localStorage;
- `trim` over the ECMAScript white-space set;
- `||`;
- ASCII upper-casing.

`entities.dfy` holds the server records, reduced to the fields the code reads.

## Model

| member | source | states |
|---|---|---|
| TokenStore.Saved | src/chat/api.js:2-5 | the access token is always written, stringified (a missing token is stored as "undefined"); the refresh token only when truthy, otherwise the old one stays; other keys untouched |
| TokenStore.Cleared | src/chat/api.js:15-18 | both token keys read back as null afterwards; every other key unchanged |
| TokenStore.SaveTokens | src/chat/api.js:2-5 | the store becomes `Saved` of the old store |
| TokenStore.GetAccessToken | src/chat/api.js:7-9 | returns the stored access token, null exactly when the key is absent |
| TokenStore.GetRefreshToken | src/chat/api.js:11-13 | returns the stored refresh token, null exactly when the key is absent |
| TokenStore.ClearTokens | src/chat/api.js:15-18 | the store becomes `Cleared` of the old store |
| TokenStore.ClearAfterSave | src/chat/api.js:2-18 | clearing after any save gives the same store as clearing alone |
| Api.Network.Fetch | src/chat/api.js:44-47 | each fetch consumes the next scripted outcome (a lost connection past the end) and records the request |
| Api.WithBearer | src/chat/api.js:41 | an empty token stays empty; a prefixed token is unchanged; any other gets `Bearer ` once; a non-empty result always carries the prefix |
| Api.WithBearerIdempotent | src/chat/api.js:41 | prefixing twice is prefixing once |
| Api.Authorization | src/chat/api.js:40-41 | the first request's header is null iff no token is stored, else the stored token with the prefix |
| Api.RefreshSpec | src/chat/api.js:21-36 | no stored (or an empty) refresh token fails without a request; otherwise one refresh request; a thrown request, a non-ok reply, an unreadable body and a body without a truthy `token` each fail with their own reason; an ok reply with a truthy `token` succeeds with that token, storing it as access token and keeping the refresh token; a failure leaves the store unchanged |
| Api.RefreshAccessToken | src/chat/api.js:21-36 | the method's result, store, sent requests and remaining script are those of `RefreshSpec` |
| Api.ErrorMessage | src/chat/api.js:70-80 | status >= 500 gives the server-unavailable text; otherwise the body's `msg` when truthy, else 'Error desconocido' |
| Api.Classify | src/chat/api.js:70-82 | an ok response is returned unchanged; a non-ok one becomes an error with `ErrorMessage` |
| Api.FetchSpec | src/chat/api.js:39-83 | one to three requests, the first to `url` with the prefixed stored token; a refresh only as the second request and only after a first 401; a retry goes to the same url with the new token; a thrown first request gives the connection error with the store untouched; a failed refresh or a thrown retry gives session-expired and clears both tokens; a 401 on the retry is classified without clearing; an ok result is an ok response; any change to the refresh key means session-expired with a cleared store |
| Api.FetchWithAuth | src/chat/api.js:39-83 | the method's result, store, sent requests and remaining script are those of `FetchSpec` |
| Api.Finish | src/chat/api.js:70-82 | the final response is returned exactly as `Classify` says |
| Api.FetchRequestBounds | src/chat/api.js:43-68 | at most two calls to the url and at most one refresh per call, and a refresh only when the first status is 401 |
| Api.UsersUrl | src/chat/api.js:86-90 | the URL is the base or the base plus `?q=` and the encoded search, and it carries the query exactly when the search has a non-white-space character |
| Api.TextField | src/chat/api.js:171-174 | a profile text field becomes one entry exactly when truthy, carrying its value under its name |
| Api.ProfileForm | src/chat/api.js:169-175 | every text entry carries a truthy field's own value; every truthy field appears; the avatar appears exactly when it is a file, under `avatar` |
| Api.ProfileFormNamesDistinct | src/chat/api.js:169-175 | no entry name appears twice in the profile form: each field is appended at most once, in a fixed order |
| Api.LoginUser | src/chat/api.js:111-119 | a failed fetch gives its own error; a non-ok status gives 'Login incorrecto'; the data is returned only for an ok, readable reply |
| Auth.LoginSpec | src/chat/AuthContext.jsx:9-12 | the auth record becomes `{data.token, data.user}`; the access token is stored; the refresh token is stored only when present, else the old one stays |
| Auth.LogoutSpec | src/chat/AuthContext.jsx:14-17 | the record is reset to `{null, null}`, both tokens are gone, other keys untouched |
| Auth.LogoutIdempotent | src/chat/AuthContext.jsx:14-17 | logging out twice equals logging out once |
| Auth.LoginThenLogout | src/chat/AuthContext.jsx:7-17 | a login followed by a logout equals a logout alone: the initial record and no stored token |
| Auth.AuthProvider.constructor | src/chat/AuthContext.jsx:7 | the record starts as `{token: null, user: null}` |
| Auth.AuthProvider.Login | src/chat/AuthContext.jsx:9-12 | record and store become `LoginSpec` of the old ones |
| Auth.AuthProvider.Logout | src/chat/AuthContext.jsx:14-17 | record and store become `LogoutSpec` of the old ones |
| Sockets.SocketIo.Open | src/chat/components/ChatWindow.js:24 | `getSocket(token)` yields a new live handle and logs the opening |
| Sockets.SocketIo.Emit | src/chat/components/ChatWindow.js:25 | an emit is logged and changes no socket's liveness |
| Sockets.SocketIo.Disconnect | src/chat/components/ChatWindow.js:31 | the handle stops being live and the disconnect is logged |
| Timeline.AnyHasId | src/chat/components/ChatWindow.js:27 | `prev.some(m => m._id === id)` holds exactly when some entry has that id |
| Timeline.Merge | src/chat/components/ChatWindow.js:27 | the message is appended iff no entry has its `_id`, else the list is unchanged; old entries stay in order; length grows by at most one; the id set gains exactly the message's id; distinct ids stay distinct |
| Timeline.MergeIdempotent | src/chat/components/ChatWindow.js:27 | delivering the same message twice equals delivering it once |
| Timeline.MergeAll | src/chat/components/ChatWindow.js:27 | after any sequence of socket messages the old list is a prefix, the id set is the union, and distinct ids stay distinct |
| Timeline.MergeAllKnown | src/chat/components/ChatWindow.js:27 | messages whose ids are all present change nothing |
| Timeline.MergeAllIdempotent | src/chat/components/ChatWindow.js:27 | re-delivering a whole batch changes nothing |
| Timeline.ApplyAllDistinct | src/chat/components/ChatWindow.js:13-28 | under any interleaving of socket messages and history replies with distinct ids, the list keeps distinct ids |
| Timeline.HistoryDropsEarlierLiveMessage | src/chat/components/ChatWindow.js:13-28 | a socket message delivered before the history reply is gone afterwards when the page lacks it: the reply replaces rather than merges |
| Timeline.ChatWindow.constructor | src/chat/components/ChatWindow.js:6-10 | empty list and input, loading, no error, no socket |
| Timeline.ChatWindow.LoadHistory | src/chat/components/ChatWindow.js:13-20 | nothing without chat and token; otherwise the reply replaces the list or sets the error, and loading ends false |
| Timeline.ChatWindow.Open | src/chat/components/ChatWindow.js:22-28 | nothing without chat and token; otherwise a new socket is held, `join` is emitted with the chat id, and the listener is on |
| Timeline.ChatWindow.OnMessage | src/chat/components/ChatWindow.js:26-28 | with the listener on, the list becomes `Merge` of the old list |
| Timeline.ChatWindow.OnInput | src/chat/components/ChatWindow.js:158 | the input takes the typed value; nothing else changes |
| Timeline.ChatWindow.HandleSend | src/chat/components/ChatWindow.js:39-48 | blank input sends nothing; otherwise the raw input is sent, cleared on success, kept with the error set on failure; the list is never touched |
| Timeline.ChatWindow.Close | src/chat/components/ChatWindow.js:29-32 | `leave` is emitted with the chat id on the held socket, then that socket is disconnected |
| Roster.ExcludeSelf | src/chat/screens/ChatsScreen.jsx:37 | the kept users are exactly the input's users differing from the current one in both `_id` and `email`; nothing is added; all-others input is unchanged |
| Roster.ExcludeSelfAppend | src/chat/screens/ChatsScreen.jsx:37 | filtering a concatenation is concatenating the filtered parts, so order is kept |
| Roster.ExcludeSelfSingle | src/chat/screens/ChatsScreen.jsx:37 | a single user is kept exactly when they are not the current one |
| Roster.ExcludeSelfCounts | src/chat/screens/ChatsScreen.jsx:37 | each other user appears as often as in the input; the current user never |
| Roster.ExcludeSelfIdempotent | src/chat/screens/ChatsScreen.jsx:37 | filtering twice equals filtering once |
| Roster.SearchResults | src/chat/screens/ChatsScreen.jsx:34-41 | results never contain the current user; a non-array or thrown search yields none; every other user of the reply is shown |
| Roster.FindOther | src/chat/screens/ChatsScreen.jsx:74 | the result is the first participant that is not the current user, and none exactly when every participant is |
| Roster.OtherParticipant | src/chat/screens/ChatsScreen.jsx:74 | the participant found, else `chat.otherUser` |
| Roster.OtherParticipantFromParticipants | src/chat/screens/ChatsScreen.jsx:74 | when a participant other than the current user exists, the resolved user is such a participant |
| Roster.WithOther | src/chat/screens/ChatsScreen.jsx:76 | the selected chat differs from the row's chat only in `otherUser` |
| Roster.Badge | src/chat/screens/ChatsScreen.jsx:78 | the first char of `firstName`, else of `email`, else '?' (also the result rows' badge at line 117) |
| Roster.ChatsScreen.constructor | src/chat/screens/ChatsScreen.jsx:6-11 | modal closed, empty search and results, roster loading |
| Roster.ChatsScreen.LoadChats | src/chat/screens/ChatsScreen.jsx:14-23 | the roster is the reply when an array, `[]` otherwise or on failure, and `loadingChats` ends false |
| Roster.ChatsScreen.HandleSearch | src/chat/screens/ChatsScreen.jsx:26-43 | the field takes the value; under two characters the results empty with no request; otherwise `getUsers` is requested and its filtered results shown, loading ending false |
| Roster.ChatsScreen.OpenModal | src/chat/screens/ChatsScreen.jsx:63 | the modal opens; nothing else changes |
| Roster.ChatsScreen.CloseModal | src/chat/screens/ChatsScreen.jsx:101 | the modal closes; nothing else changes |
| Roster.ChatsScreen.HandleCreateChat | src/chat/screens/ChatsScreen.jsx:46-57 | the modal closes and search and results clear whatever happens; the chat is requested between the two users; the returned chat is selected, a failure selects none |
| ChatListing.Label | src/chat/components/ChatList.js:27 | `name`, else the other user's `firstName`, else the other user's `email` |
| ChatListing.Labels | src/chat/components/ChatList.js:25-29 | one label per chat, in order |
| ChatListing.Render | src/chat/components/ChatList.js:18-31 | loading hides everything; then a non-empty error hides the list; else the labels |
| ChatListing.ChatList.constructor | src/chat/components/ChatList.js:5-7 | no chats, loading, no error |
| ChatListing.ChatList.Load | src/chat/components/ChatList.js:9-16 | nothing with a falsy token; otherwise the roster is `data.chats \|\| data` or the error is set, and loading ends false |
| Register.Changed | src/App.jsx:22-29 | a chosen avatar file sets only `avatar`; any other change sets only the named field |
| Register.FirstChar | src/App.jsx:32 | `s[0] \|\| ''` |
| Register.Initials | src/App.jsx:31-33 | the upper-cased first letters of first and last name, so at most two characters |
| Register.EmailMatchesPattern | src/App.jsx:40 | the executable check accepts exactly the white-space-free strings with an `@` after one character, a later `.` with one character between, and one character after |
| Register.EmailShapeLength | src/App.jsx:40 | a matching address has at least five characters |
| Register.ValidationOrder | src/App.jsx:35-54 | blank field first, then e-mail shape, then raw password length < 6, then mismatch; a form passes exactly when none applies |
| Register.PassingFormFacts | src/App.jsx:35-54 | a passing form has every text field non-blank and a repetition of at least six characters |
| Register.PayloadAvatar | src/App.jsx:62-82 | the data URL when an avatar was set and read to a non-empty URL, else the initials |
| Register.ErrorText | src/App.jsx:86 | the server `msg` when truthy, else the fallback |
| Register.SubmitOutcome | src/App.jsx:85-86 | a rejected fetch or unreadable body gives its own message; a non-ok reply gives `msg` or the fallback; only an ok, readable reply succeeds |
| Register.RegisterSubmit | src/App.jsx:59-93 | a failed avatar read posts nothing and shows its error; otherwise the form is posted with `PayloadAvatar`; `/home` is reached exactly when the reply succeeds, logging in with its data; otherwise its error text shows |
| Register.LoginAuthorizes | src/App.jsx:273 | the initial and the logged-out records never open `/home`; a login does exactly when it brings a non-empty token and a user |
| Register.RegisterModal.constructor | src/App.jsx:13-17 | all fields empty, no avatar, no error, not loading |
| Register.RegisterModal.HandleChange | src/App.jsx:22-29 | the form becomes `Changed` of the old form |
| Register.RegisterModal.Validate | src/App.jsx:35-54 | fails exactly when a check fails, setting its message; passing clears the error |
| Register.RegisterModal.HandleRegister | src/App.jsx:56-94 | a failing form posts nothing and shows the first check's message; a passing one proceeds as `RegisterSubmit` |
| Register.RegisterModal.Submit | src/App.jsx:59-93 | posted body, navigation, error, loading and auth state are those of `RegisterSubmit` |
| Register.LoginModal.constructor | src/App.jsx:145-147 | empty credentials, no error, not loading |
| Register.LoginModal.HandleLogin | src/App.jsx:151-170 | reaches `/home` exactly when the reply succeeds, logging in with its data; otherwise shows its message; loading ends false |
| Navigation.StripLeadingSlashes | src/chat/ChatApp.jsx:17 | removes exactly the leading run of `/`; the rest does not start with `/` |
| Navigation.AvatarUrl | src/chat/ChatApp.jsx:14-18 | a falsy avatar gives the default; an `http` one is unchanged; any other goes under `API_URL/api/` with no `/` right after it |
| Navigation.AvatarUrlIdempotent | src/chat/ChatApp.jsx:14-18 | for a non-empty avatar the result starts with `http`, so applying it again changes nothing |
| Navigation.SidebarAvatar | src/chat/ChatApp.jsx:64-71 | an image only when the user has a truthy avatar, at the normalised address |
| Navigation.MainArea | src/chat/ChatApp.jsx:84-157 | the chat view only in section `chat` with a selected chat, the group chat likewise; the welcome overlay on the groups screen while no group is selected |
| Navigation.Handle | src/chat/ChatApp.jsx:51-156 | selecting a chat sets it and section `chat`; the group callback sets the group and `groupchat`; the sidebar and profile link set their section; back from `groupchat` goes to `groups`, from the rest to `chats`; selections are never cleared |
| Navigation.Step | src/chat/ChatApp.jsx:51-156 | a click raised by a rendered control does what its callback does; any other click, select-group included, changes nothing; the selected group never changes |
| Navigation.StepsConsistent | src/chat/ChatApp.jsx:85-156 | after any clicks, a room section has its selection, so the main area is never blank |
| Navigation.StepsGroupFree | src/chat/ChatApp.jsx:84-156 | since nothing calls `onSelectGroup` (src/chat/screens/ChatsScreen.jsx:5, src/chat/screens/GroupsScreen.jsx:3-10), after any clicks from a state without a group no group is selected, `groupchat` is never reached and the groups screen always shows its welcome overlay |
| Navigation.BackFromRoom | src/chat/ChatApp.jsx:87-156 | entering a chat from the chats screen and going back returns to `chats`; the group callback followed by back returns to `groups` with the group kept |
| Navigation.ChatApp.constructor | src/chat/ChatApp.jsx:21-23 | section `chats`, nothing selected |
| Navigation.ChatApp.View | src/chat/ChatApp.jsx:25-27 | nothing is rendered exactly when the token is falsy |
| Navigation.ChatApp.Click | src/chat/ChatApp.jsx:51-96 | with a token the state takes one `Step`; the invariant (room sections have their selection, no group ever selected) is kept |
| LegacyApp.LegacyMain | src/chat/ChatAppRESPALDO.js:75-94 | the chat screen only in section `chat` with a selected chat; no welcome overlay |
| LegacyApp.Render | src/chat/ChatAppRESPALDO.js:33-45 | the login form, with the error, exactly while the token is falsy |
| LegacyApp.LegacyChatApp.constructor | src/chat/ChatAppRESPALDO.js:13-19 | empty token, no user, empty credentials and error, section `chats` |
| LegacyApp.LegacyChatApp.SetEmail | src/chat/ChatAppRESPALDO.js:38 | only the e-mail changes |
| LegacyApp.LegacyChatApp.SetPassword | src/chat/ChatAppRESPALDO.js:39 | only the password changes |
| LegacyApp.LegacyChatApp.HandleLogin | src/chat/ChatAppRESPALDO.js:21-31 | the error is cleared; success sets token and user from the data; failure sets the error and leaves token and user alone |
| LegacyApp.LegacyChatApp.Click | src/chat/ChatAppRESPALDO.js:55-93 | with a token the state takes one `Step` (same transitions as the current shell) |
| SocketProvider.RerunOps | src/chat/SocketContext.jsx:10-23 | a re-run's operations are disconnects of the held socket only, followed by one opening of the new handle exactly when the guard passes; without the guard only disconnects; exactly one disconnect for a registered cleanup and one for the body when a socket is held |
| SocketProvider.Provider.constructor | src/chat/SocketContext.jsx:7-8 | not ready, no socket |
| SocketProvider.Provider.Render | src/chat/SocketContext.jsx:10-23 | unchanged keys do nothing; otherwise cleanup then body run; no socket opens without both id and token; with them the held socket is disconnected before a new one is held; only the held socket stays live; ready is untouched |
| SocketProvider.Provider.Cleanup | src/chat/SocketContext.jsx:20-22 | a registered cleanup disconnects the held socket and nothing else; without one nothing happens |
| SocketProvider.Provider.Body | src/chat/SocketContext.jsx:10-19 | without both id and token nothing opens and no cleanup is registered; with them the held socket is disconnected, a new one opened and held with its handler, and the cleanup registered |
| SocketProvider.Provider.OnConnect | src/chat/SocketContext.jsx:16-19 | a live socket's connect emits `identify` with exactly the registered user id, on that socket, then sets ready; ready never goes back to false |
| SocketProvider.Provider.Unmount | src/chat/SocketContext.jsx:20-22 | the cleanup disconnects the held socket, leaving none of the provider's sockets live, whether or not the last effect run passed its guard |
| SocketProvider.AtMostOneLive | src/chat/SocketContext.jsx:12-15 | at most one of the provider's sockets is live |
| LocalChat.Seed | src/chat/screens/ChatScreen.jsx:8-12 | three entries with ids 1, 2, 3, from the user, the other user, the user |
| LocalChat.SendAllAppends | src/chat/screens/ChatScreen.jsx:24-42 | each send appends exactly one entry of the user's own at the end, in order, leaving earlier entries in place |
| LocalChat.SameMillisecondTwice | src/chat/screens/ChatScreen.jsx:25 | appends are unconditional: two identical sends in the same millisecond both stay, with the same id |
| LocalChat.ChatScreen.constructor | src/chat/screens/ChatScreen.jsx:8-12 | the list starts as the seed |
| LocalChat.ChatScreen.HandleSend | src/chat/screens/ChatScreen.jsx:24-26 | one text entry from the user appended, exactly as `SendAll` does for that one send |
| LocalChat.ChatScreen.HandleSendImage | src/chat/screens/ChatScreen.jsx:29-32 | one image (its object URL) entry from the user appended, exactly as `SendAll` does for that one send |
| LocalChat.ChatScreen.HandleSendAudio | src/chat/screens/ChatScreen.jsx:35-38 | one audio (its object URL) entry from the user appended, exactly as `SendAll` does for that one send |
| LocalChat.ChatScreen.HandleSendTic | src/chat/screens/ChatScreen.jsx:41-42 | one tic entry from the user appended, exactly as `SendAll` does for that one send |
| MessageInput.SendRule | src/chat/components/ChatMessageInput.jsx:12-18 | sends iff the input has a non-white-space character; the raw input is sent and the field cleared, else the field is left as is |
| MessageInput.SubmitTwice | src/chat/components/ChatMessageInput.jsx:12-18 | a second submit right after the first sends nothing and changes nothing |
| MessageInput.Composer.constructor | src/chat/components/ChatMessageInput.jsx:5-9 | empty input, not recording, empty buffer |
| MessageInput.Composer.HandleSend | src/chat/components/ChatMessageInput.jsx:12-18 | the parent gets `onSend` and the field changes as `SendRule` says |
| MessageInput.Composer.OnChange | src/chat/components/ChatMessageInput.jsx:68-71 | the input takes the value and `onTyping` fires iff provided |
| MessageInput.Composer.HandleImage | src/chat/components/ChatMessageInput.jsx:21-25 | `onSendImage` only with a chosen file; the field is reset either way |
| MessageInput.Composer.HandleRecord | src/chat/components/ChatMessageInput.jsx:28-46 | while recording, stop and clear the flag; else, when recording is possible, start with an empty buffer and set the flag |
| MessageInput.Composer.OnData | src/chat/components/ChatMessageInput.jsx:39 | each chunk is buffered |
| MessageInput.Composer.OnStop | src/chat/components/ChatMessageInput.jsx:40-43 | the buffered chunks go to `onSendAudio` as one blob |
| MessageInput.Composer.HandleTic | src/chat/components/ChatMessageInput.jsx:49-51 | `onSendTic` fires |

## Left out

- HTTP transport, `res.json()` parsing and localStorage itself are abstracted. A response body
  is reduced to the `token` and `msg` fields it may carry, or to "unreadable" when `json()`
  rejects or the body is `null`.
- JSON values of other types (numbers or objects where a string is expected) are not
  representable. Only `undefined`, `null` and strings are.
- List payloads read as `data.x || data` are either a bare array or an object holding one. A
  payload that is neither is not representable; the source would fail while rendering it.
- Api.FetchSpec: a fetch past the end of the network script is treated as a lost connection.
- A network reply to the create-chat request that is JSON `null` is not representable.
  `Roster.ChatsScreen.HandleCreateChat` selects only a chat record.
- String lengths and indices count Unicode scalar values, not UTF-16 code units. This affects
  `value.length < 2`, the password length and `s[0]` on characters outside the BMP.
- Register.Initials: `toUpperCase` is modelled on ASCII letters only. With full Unicode
  case mapping a letter such as `ß` becomes two characters, and the bound of two would not
  hold.
- Api.UsersUrl: `encodeURIComponent` is a function parameter, not a percent-encoder.
- Async interleaving of React effects is not modelled: the `mounted` flag, a reply arriving
  after unmount, and effect re-runs of `ChatWindow` when `chat` or `token` change. Each
  event is one sequential step.
- The FileReader, `URL.createObjectURL`, `MediaRecorder`/`getUserMedia`, audio playback,
  `alert`, `scrollIntoView`, the CSS vibration and `navigate` are not modelled. Their
  results are parameters (the data URL outcome, the object URL, whether recording is
  supported and granted) or are left out.
- `Date.now()` and `toLocaleTimeString` are parameters.
- `ChatMessageInput`'s `disabled={loading}` is not modelled: a disabled control raises no
  event.
- The socket transport, `socket.js`, and the server side of `join`/`leave`/`identify` are not
  modelled. A socket is a handle whose operations are logged.
- All JSX rendering beyond which screen or text is shown, and all styles, are not modelled.
- `ProtectedRoute.jsx` is only a wrapper; its decision is `Register.IsAuthorized`.
- The group, groups and profile screens are stubs without logic and are not modelled.
- The remaining `api.js` request wrappers (`getChats`, `getChatMessages`, `sendMessage`,
  `sendImage`, `sendAudio`, `markChatAsRead`, `updateStatusMsg`, `createChat`) each make one
  `fetchWithAuth` call and throw on a non-ok response. Their callers' model takes that
  outcome as a `Result`.
