# Launchpad client: a Dafny model of its session, realtime and decision logic

This project models the core of the Launchpad front end, a Next.js client. It covers:

- **Session layer.**
  - The token manager: two `localStorage` keys.
  - The token storage service: an in-memory copy with a `localStorage` backup, plus expiry checks.
  - The refresh-token service: one refresh in flight at a time, and a single 10-minute keep-alive interval.
  - The API base query. It parks every 401 from a non-auth URL behind one refresh, then replays or fails the parked callers in arrival order.
  - The `userRole` cookie.
  - The auth thunks: login, register, verify-OTP, resend-OTP, logout and the start-up check.
- **Realtime.**
  - The socket provider: connection flag, presence list, guarded emits and listener bookkeeping.
  - The chat window: merging with de-duplication, the optimistic send, and the typing debounce.
  - The chat page: the user list, online markers and which conversation is open.
- **Pure decision logic.**
  - The route gate (`proxy.ts`).
  - The form validators.
  - The error-message extractor.
  - The media rules of the post form.
  - The comment card's edit state machine.
  - The dashboard's pagination bar and delete dialog.
  - The badges and the Aadhaar mask of the admin user card.

**How the model is built.**

- One Dafny module per source file. Three helper modules support them:
  - `Js`: truthiness, `startsWith`, `includes`, and `trim` with its exact whitespace set;
  - `BrowserEnv`: the window flag, `localStorage`, the cookie jar and `location.href`;
  - `Types`: the user and chat records.
- Objects whose fields the client updates in place are classes. Examples are the browser, the token storage, the refresh service, the gateway's queue and flag, the socket provider, the chat window, and the form and page states.
- Pure helpers are functions, with lemmas about them.
- Every asynchronous flow is split at its `await`s into event methods. How the awaited call settled is a parameter: the refresh `fetch`, the API calls, the upload, update and delete calls, and the server's answers to replays.

**Quirks of the code that the model keeps:**

- The refresh goes through the cookie-setting `/api/refresh-token` route and writes no token the client reads. A replayed request therefore carries the same `Authorization` header as the attempt that got the 401 (`BaseQuery.Gateway.OnRefreshSettled`).
- The chat de-duplication keeps the optimistic copy of one's own message and drops the server's echo (`ChatWindow.EchoOfOwnSendIsDropped`).
- Two messages without a `tempId` compare equal, so after one such message every later one is dropped (`ChatWindow.UntaggedMessagesCollide`).
- The chat page renders the chat window without a `key`. Choosing another user keeps the open window's messages, typing flag, input and pending timeout, and only moves the room membership (`ChatWindow.Conversation.ChangePeer`, `ChatWindow.SwitchConversationScenario`).

## Model

| member | source | states |
|---|---|---|
| TokenManager.GetAccessToken | lib/utils/tokenManager.ts:30-38 | the access token is the stored `accessToken` value; it is null without a window or a key |
| TokenManager.GetRefreshToken | lib/utils/tokenManager.ts:56-64 | the refresh token is the stored `refreshToken` value; it is null without a window or a key |
| TokenManager.SetAccessToken | lib/utils/tokenManager.ts:17-25 | only the access key is written; afterwards the getter returns the token and the refresh token is unchanged |
| TokenManager.SetRefreshToken | lib/utils/tokenManager.ts:43-51 | only the refresh key is written; afterwards the getter returns the token and the access token is unchanged |
| TokenManager.SetTokens | lib/utils/tokenManager.ts:69-72 | with a window, both getters afterwards return the pair just set; cookies and location are untouched |
| TokenManager.WithoutTokens | lib/utils/tokenManager.ts:77-86 | exactly the two token keys are dropped; every other entry keeps its value |
| TokenManager.ClearTokens | lib/utils/tokenManager.ts:77-86 | with a window, both getters return null afterwards and the user is no longer authenticated |
| TokenManager.ClearTokensIdempotent | lib/utils/tokenManager.ts:77-86 | clearing twice leaves the same storage as clearing once |
| TokenManager.IsAuthenticated | lib/utils/tokenManager.ts:105-107 | authenticated iff both token keys are stored and non-empty |
| TokenManager.GetAuthHeader | lib/utils/tokenManager.ts:112-115 | a header exists iff a non-empty access token is stored; it is `Bearer ` followed by that token |
| TokenStorageService.Effective | lib/services/tokenStorage.ts:47-66 | a getter returns the memory copy when truthy, else the backup when truthy, else null; it never returns "" |
| TokenStorageService.ExpiredAt | lib/services/tokenStorage.ts:152-164 | with no token or no usable `exp` the token counts as expired; otherwise expired iff now is within the buffer of `exp` |
| TokenStorageService.TimeRemainingAt | lib/services/tokenStorage.ts:170-182 | the milliseconds left before `exp`, never negative, and 0 without a token or an `exp` |
| TokenStorageService.ExpiredIffNoTimeRemaining | lib/services/tokenStorage.ts:152-182 | with a zero buffer, expired iff no time remains |
| TokenStorageService.ExpiryIsMonotonic | lib/services/tokenStorage.ts:152-164 | a token once expired stays expired as the clock advances, and a larger buffer only expires it sooner |
| TokenStorageService.DefaultBufferIsThirtySeconds | lib/services/tokenStorage.ts:152-164 | with the default 30-second buffer, a token counts as expired iff at most 30 seconds of it remain |
| TokenStorageService.TokenStorage.SetTokens | lib/services/tokenStorage.ts:27-41 | memory and backup both hold the new pair; the getters return each token unless it is "" |
| TokenStorageService.TokenStorage.GetAccessToken | lib/services/tokenStorage.ts:47-66 | returns the effective access token and restores a backup value into memory without changing any later answer |
| TokenStorageService.TokenStorage.GetRefreshToken | lib/services/tokenStorage.ts:72-91 | the same fallback and restore for the refresh token |
| TokenStorageService.TokenStorage.SetAccessToken | lib/services/tokenStorage.ts:96-106 | the access token is replaced in memory and backup; the refresh token's answer is unchanged |
| TokenStorageService.TokenStorage.ClearTokens | lib/services/tokenStorage.ts:111-125 | memory is nulled and both backup keys are removed, so both getters answer null |
| TokenStorageService.TokenStorage.HasTokens | lib/services/tokenStorage.ts:130-132 | true iff both getters would return a token; no answer changes |
| TokenStorageService.TokenStorage.IsAccessTokenExpired | lib/services/tokenStorage.ts:152-164 | the expiry verdict for the effective access token and its decoded `exp` |
| TokenStorageService.TokenStorage.GetAccessTokenTimeRemaining | lib/services/tokenStorage.ts:170-182 | the non-negative time left for the effective access token |
| TokenStorageService.SetThenClear | lib/services/tokenStorage.ts:27-132 | after setting a non-empty pair the access getter answers it and `hasTokens` holds; after clearing no token is returned and `hasTokens` fails |
| RefreshService.RefreshTokenService.constructor | lib/services/refreshTokenService.ts:4-5 | starts with no refresh in flight and no interval |
| RefreshService.RefreshTokenService.AtMostOneInterval | lib/services/refreshTokenService.ts:39-61 | at most one keep-alive interval is ever live |
| RefreshService.RefreshTokenService.BeginRefresh | lib/services/refreshTokenService.ts:7-21 | while a refresh is in flight the call answers false and sends nothing; otherwise it raises the flag and sends exactly one request |
| RefreshService.RefreshTokenService.SettleRefresh | lib/services/refreshTokenService.ts:23-36 | succeeds iff the response is ok, and then restarts the timer; the flag is lowered on every path |
| RefreshService.RefreshTokenService.StartTimer | lib/services/refreshTokenService.ts:39-49 | any old interval is cleared and exactly one new 600000 ms interval is live |
| RefreshService.RefreshTokenService.StopTimer | lib/services/refreshTokenService.ts:51-57 | no interval is live afterwards; a second call changes nothing |
| RefreshService.RefreshTokenService.ResetTimer | lib/services/refreshTokenService.ts:59-61 | the same new state as starting the timer |
| RefreshService.RefreshTokenService.OnIntervalFired | lib/services/refreshTokenService.ts:43-46 | a tick of the live interval sends a refresh unless one is in flight; with no interval nothing happens |
| BaseQuery.PrepareHeaders | lib/store/api/baseQuery.ts:21-32 | always JSON content type; `Authorization: Bearer <token>` exactly when a non-empty access token is stored |
| BaseQuery.AuthorizationIsAuthHeader | lib/store/api/baseQuery.ts:21-32 | the header set here is the token manager's auth header |
| BaseQuery.ExemptFromRefresh | lib/store/api/baseQuery.ts:43-49 | a 401 is passed back as-is exactly for URLs containing one of the five auth paths; all lie under `/auth/`, so a URL outside it always waits for a refresh |
| BaseQuery.CallIds | lib/store/api/baseQuery.ts:15 | lists the callers of a queue in queue order |
| BaseQuery.DeliveredIds | lib/store/api/baseQuery.ts:67-88 | lists the resolved callers in resolution order |
| BaseQuery.RetryQueued | lib/store/api/baseQuery.ts:61-74 | every parked request is replayed once, in arrival order, with fresh headers, and its own caller gets the result |
| BaseQuery.FailQueued | lib/store/api/baseQuery.ts:75-88 | every parked caller, in order, gets the synthetic 401 "Token refresh failed" |
| BaseQuery.Gateway.constructor | lib/store/api/baseQuery.ts:15-16 | starts with an empty queue and the flag down |
| BaseQuery.Gateway.Drain | lib/store/api/baseQuery.ts:59-93 | lowers the flag and empties the queue; on success it replays everything, on failure it fails everything and redirects to the login page |
| BaseQuery.Gateway.OnResponse | lib/store/api/baseQuery.ts:42-58 | non-401 and exempt results return unchanged; other 401s park at the queue's tail, and only the first starts a refresh (or fails at once when the service is busy) |
| BaseQuery.Gateway.OnRefreshSettled | lib/store/api/baseQuery.ts:54-93 | every parked caller is resolved exactly once, in arrival order; replays carry the unchanged headers; a successful refresh restarts the keep-alive timer and a failed one leaves it |
| BaseQuery.Gateway.OnTimerTick | lib/services/refreshTokenService.ts:43-46 | a keep-alive refresh leaves the gateway's queue and flag untouched |
| BaseQuery.ScenarioRequestsPark | lib/store/api/baseQuery.ts:42-51 | 401s on `/posts`, `/users` and `/posts/7` are all parked |
| BaseQuery.ParkThree | lib/store/api/baseQuery.ts:51-58 | three 401s on an idle gateway start exactly one refresh and wait in arrival order |
| BaseQuery.ConcurrentUnauthorizedScenario | lib/store/api/baseQuery.ts:42-74 | three concurrent 401s cause one refresh, and the callers are answered in arrival order |
| BaseQuery.TimerRefreshInFlightScenario | lib/store/api/baseQuery.ts:54-92 | a 401 during a keep-alive refresh fails at once and redirects to login |
| Cookies.SetUserRoleCookie | lib/utils/cookies.ts:1-6 | with a document, the role cookie holds the role and nothing else changes |
| Cookies.ClearUserRoleCookie | lib/utils/cookies.ts:8-12 | with a document, the role cookie is gone afterwards |
| AuthThunks.RejectionMessage | lib/store/thunks/authThunks.ts:62-64 | the first truthy of `data.message` and `message`, else the fallback; never empty with a non-empty fallback |
| AuthThunks.StoredUser | lib/store/thunks/authThunks.ts:20-28 | no user without a window or a non-empty entry; otherwise the parse of the stored text |
| AuthThunks.StoredUserAfterSave | lib/store/thunks/authThunks.ts:11-28 | a saved user reads back as the same user |
| AuthThunks.StoredUserAfterRemove | lib/store/thunks/authThunks.ts:11-28 | after saving null, no user reads back |
| AuthThunks.SaveUserToStorage | lib/store/thunks/authThunks.ts:11-18 | writes or removes the `user` key; the user then reads back (or does not) accordingly |
| AuthThunks.PersistSignIn | lib/store/thunks/authThunks.ts:47-58 | the user is saved, both tokens are stored only when both are present, the role cookie is set and the timer restarts |
| AuthThunks.SignIn | lib/store/thunks/authThunks.ts:31-149 | success sets and saves the user, stores both tokens only when both are present, sets the role cookie and starts the timer; failure records a non-empty error and changes nothing else |
| AuthThunks.ResendOtp | lib/store/thunks/authThunks.ts:151-172 | only the error and the loading flag change; a failure rejects with a non-empty message |
| AuthThunks.Logout | lib/store/thunks/authThunks.ts:174-197 | whatever the backend says, the session, stored user, role cookie and tokens are cleared and the timer stops |
| AuthThunks.CheckAuthStatus | lib/store/thunks/authThunks.ts:199-238 | restores the session iff a user is stored and both tokens are present; otherwise it clears the session and tokens and answers null |
| AuthThunks.SignInThenRestore | lib/store/thunks/authThunks.ts:31-238 | after a sign-in carrying both tokens, the start-up check restores that user |
| AuthThunks.LogoutThenCheck | lib/store/thunks/authThunks.ts:174-238 | after a logout, the start-up check restores nobody |
| SocketContext.AddOnlineUser | lib/socket/SocketContext.tsx:104-111 | appends the user unless that user id is already listed |
| SocketContext.RemoveOfflineUser | lib/socket/SocketContext.tsx:113-116 | keeps exactly the entries with another id; the id is no longer listed |
| SocketContext.RemoveAbsentIsIdentity | lib/socket/SocketContext.tsx:113-116 | removing an id that is not listed leaves the list unchanged |
| SocketContext.AddKeepsUniqueIds | lib/socket/SocketContext.tsx:104-111 | `user_online` keeps ids unique |
| SocketContext.RemoveKeepsUniqueIds | lib/socket/SocketContext.tsx:113-116 | `user_offline` keeps ids unique |
| SocketContext.AddIsIdempotent | lib/socket/SocketContext.tsx:104-111 | a repeated `user_online` changes nothing |
| SocketContext.OnlineAfterAdd | lib/socket/SocketContext.tsx:104-111 | afterwards the user is listed, and other ids are listed exactly as before |
| SocketContext.OnlineAfterRemove | lib/socket/SocketContext.tsx:113-116 | other ids are listed exactly as before |
| SocketContext.RemoveFirstMultiset | lib/socket/SocketContext.tsx:165-213 | `off` takes exactly one registration out |
| SocketContext.SubscribeThenUnsubscribe | lib/socket/SocketContext.tsx:165-213 | subscribing then unsubscribing restores the listeners |
| SocketContext.RemoveAppendedAbsent | lib/socket/SocketContext.tsx:165-213 | a listener appended to a list without it is exactly the one `off` removes |
| SocketContext.SocketProvider.constructor | lib/socket/SocketContext.tsx:48-50 | starts with no socket, disconnected, with nobody online |
| SocketContext.SocketProvider.Sent | lib/socket/SocketContext.tsx:135-163 | an emit goes out on the current socket iff a socket exists and is connected |
| SocketContext.SocketProvider.RenderWithAuth | lib/socket/SocketContext.tsx:53-133 | the effect re-runs only on a change; losing auth drops the socket and presence, gaining it opens a new unconnected socket |
| SocketContext.SocketProvider.OnSocketEvent | lib/socket/SocketContext.tsx:83-125 | connect raises the flag, disconnect and error lower it; the presence events replace or update the list |
| SocketContext.SocketProvider.Emit | lib/socket/SocketContext.tsx:135-163 | a message is recorded on the current socket when connected, and dropped otherwise |
| SocketContext.SocketProvider.Subscribe | lib/socket/SocketContext.tsx:165-213 | registers on the current socket iff there is one, and returns that registration |
| SocketContext.SocketProvider.Unsubscribe | lib/socket/SocketContext.tsx:165-213 | removes the one registration it was given |
| SocketContext.LogoutTeardownScenario | lib/socket/SocketContext.tsx:53-163 | after a logout, nobody is online and a send is dropped |
| ChatWindow.MergeIncoming | components/chat/ChatWindow.tsx:40-45 | appends the message unless one listed shares its `id` or `tempId` |
| ChatWindow.MergeIsAppendOnly | components/chat/ChatWindow.tsx:40-45 | the list only grows at its end, by at most one |
| ChatWindow.MergeKeepsDistinct | components/chat/ChatWindow.tsx:40-45 | merging keeps the list duplicate-free |
| ChatWindow.MergeIsIdempotent | components/chat/ChatWindow.tsx:40-45 | receiving a message twice is the same as receiving it once |
| ChatWindow.EchoOfOwnSendIsDropped | components/chat/ChatWindow.tsx:40-45 | the server echo carrying a listed `tempId` is dropped |
| ChatWindow.UntaggedMessagesCollide | components/chat/ChatWindow.tsx:42 | once an untagged message is listed, every later untagged one is dropped |
| ChatWindow.AppendedIffNew | components/chat/ChatWindow.tsx:40-45 | appended iff no listed message shares its `id` or `tempId` |
| ChatWindow.Optimistic | components/chat/ChatWindow.tsx:111-128 | the optimistic message uses the fresh id as both `id` and `tempId`, and lies in this conversation |
| ChatWindow.SendKeepsDistinct | components/chat/ChatWindow.tsx:130 | an optimistic message with a fresh id keeps the list duplicate-free |
| ChatWindow.Conversation.constructor | components/chat/ChatWindow.tsx:19-22 | a conversation starts empty, not typing, with no timeout |
| ChatWindow.Conversation.Mount | components/chat/ChatWindow.tsx:28-47 | with a signed-in user, joins the room and subscribes iff a socket exists |
| ChatWindow.Conversation.Unmount | components/chat/ChatWindow.tsx:49-52 | leaves the room and removes exactly its own subscription |
| ChatWindow.Conversation.OnReceiveMessage | components/chat/ChatWindow.tsx:34-47 | messages of this conversation are merged; all others are ignored |
| ChatWindow.Conversation.OnUserTypingStart | components/chat/ChatWindow.tsx:58-62 | only the peer's event turns the indicator on |
| ChatWindow.Conversation.OnUserTypingStop | components/chat/ChatWindow.tsx:64-68 | only the peer's event turns the indicator off |
| ChatWindow.Conversation.HandleInputChange | components/chat/ChatWindow.tsx:81-101 | typing is announced only when no stop is pending, and the pending stop is replaced |
| ChatWindow.Conversation.OnTypingTimeout | components/chat/ChatWindow.tsx:95-98 | only the pending timeout announces the stop, to the peer its closure captured, and clears itself |
| ChatWindow.Conversation.HandleSendMessage | components/chat/ChatWindow.tsx:103-141 | blank input or no user does nothing; otherwise it appends the optimistic copy, sends the trimmed text, clears the input and announces the stop |
| ChatWindow.Conversation.ChangePeer | components/chat/ChatWindow.tsx:28-54 | a new `selectedUser` keeps messages, input, typing flag and pending timeout; only the room and the message subscription move to the new peer |
| ChatWindow.SwitchConversationScenario | app/chat/page.tsx:201-206 | after a switch from A to B, A's untagged message stays and B's untagged one is dropped, A's typing flag still shows, and the stop pending from A goes to A |
| ChatWindow.SendThenEchoScenario | components/chat/ChatWindow.tsx:28-141 | send then echo leaves exactly one copy |
| ChatWindow.TypingDebounceScenario | components/chat/ChatWindow.tsx:81-101 | two keystrokes then waiting give exactly one start and one stop |
| ChatPage.OtherUsers | app/chat/page.tsx:35-37 | keeps exactly the active, undeleted users other than me |
| ChatPage.OtherUsersKeepsOrder | app/chat/page.tsx:35-37 | the filter keeps the server's order |
| ChatPage.MeIsNotListed | app/chat/page.tsx:35-37 | the signed-in user never lists themselves |
| ChatPage.OnlineMarkerFollowsPresence | app/chat/page.tsx:40-42 | online markers follow the presence events and touch nobody else |
| ChatPage.IsUserOnline | app/chat/page.tsx:40-42 | a user is shown online iff some presence entry carries their id |
| ChatPage.DashboardButtonIffDashboardRole | app/chat/page.tsx:134 | the Dashboard button is shown exactly to signed-in users whose role the route gate lets into the dashboard |
| ChatPage.Page.constructor | app/chat/page.tsx:18-19 | no conversation is open at first |
| ChatPage.Page.HandleUserSelect | app/chat/page.tsx:44-47 | opens that user's conversation and shows the pane |
| ChatPage.Page.HandleBackToList | app/chat/page.tsx:49-52 | closes the conversation and shows the list |
| Proxy.FindRoute | proxy.ts:19-21 | the route found contains the path; none is found iff no route does |
| Proxy.Gate | proxy.ts:10-51 | unconfigured paths pass; a login redirect carries the path and happens only without an access token; a refusal needs both cookies; a token without a role cookie always passes |
| Proxy.Cookie | proxy.ts:7-8 | a cookie's value, or undefined when it is unset |
| Proxy.RouteTableIsPrefixFree | proxy.ts:12-17 | no configured route is a prefix of another |
| Proxy.FoundRouteIsTheMatch | proxy.ts:19-21 | in a prefix-free table, the route a path falls under is the one found |
| Proxy.GateUnder | proxy.ts:12-21 | the lookup finds the configured route a path falls under |
| Proxy.UnmatchedPathsPass | proxy.ts:23-25 | unconfigured paths pass whatever the cookies say |
| Proxy.PostsXIsUnmatched | proxy.ts:19-21 | `/postsX` falls under no route |
| Proxy.LazyLoadingIsPublic | proxy.ts:12-31 | the lazy-loading area is public |
| Proxy.AllowedRoles | proxy.ts:13-15 | admins and superadmins are allowed into every protected area |
| Proxy.ProtectedPathDecision | proxy.ts:33-50 | on a protected path: no token means redirect; a set role that is not allowed means unauthorized; otherwise pass |
| Proxy.DashboardIsItsOwnArea | proxy.ts:13-15 | dashboard paths are under neither posts nor chat |
| Proxy.DashboardNeedsAdmin | proxy.ts:40-47 | with a token and a role, the dashboard passes iff the role is admin or superadmin |
| Validation.FirstLine | lib/utils/validation.ts:28 | the longest prefix without a line terminator |
| Validation.LookaheadIffInFirstLine | lib/utils/validation.ts:28 | a lookahead matches iff its class occurs in the first line |
| Validation.SingleLineLookahead | lib/utils/validation.ts:28 | on one line, a lookahead matches iff its class occurs anywhere |
| Validation.DigitFieldsAreExact | lib/utils/validation.ts:16-43 | Aadhaar, mobile and OTP take exactly 12, 10 and 6 ASCII digits |
| Validation.RegisterPasswordRule | lib/utils/validation.ts:25-31 | a one-line password passes iff it is at least 8 long, has all four classes and starts with an allowed character |
| Validation.RegisterPasswordIsLoginPassword | lib/utils/validation.ts:7-31 | every registration password is a valid login password |
| Validation.SecondLineIsNotSearched | lib/utils/validation.ts:28 | class characters after a line break do not count |
| Validation.FirstLineOfPrefix | lib/utils/validation.ts:28 | a terminator-free prefix is carried into the first line |
| Validation.LeadingSpaceIsRefused | lib/utils/validation.ts:28 | a password beginning with a space is refused |
| Validation.ConfirmNeedsSamePassword | lib/utils/validation.ts:32-34 | confirmation passes only on an identical, non-empty password |
| Validation.LoginSchemaAccepts | lib/utils/validation.ts:3-10 | accepts iff the email passes the email rule and the password has at least 8 characters |
| Validation.RegisterSchemaAccepts | lib/utils/validation.ts:12-35 | an accepted registration passes the login schema with the same credentials, confirms the same password and has 12 and 10 digits |
| Validation.VerifyOtpSchemaAccepts | lib/utils/validation.ts:37-44 | accepts iff the email passes the resend rule and the OTP is exactly six ASCII digits |
| Validation.ResendOtpSchemaAccepts | lib/utils/validation.ts:46-50 | accepts iff the email is non-empty and passes the email rule |
| ErrorHandler.GetErrorMessage | lib/utils/errorHandler.ts:1-30 | throws iff the error is nullish; a string is its own message, or the default when empty |
| ErrorHandler.DataMessageWins | lib/utils/errorHandler.ts:6-8 | a truthy `data.message` wins |
| ErrorHandler.ResponseFieldsInOrder | lib/utils/errorHandler.ts:10-29 | the first truthy of `response.data.message`, `.error`, `.errors` (arrays joined) and `message`, else the default |
| ErrorHandler.MessageIsTruthyUnlessErrorsArray | lib/utils/errorHandler.ts:1-30 | the result is truthy unless it comes from an `errors` array |
| ErrorHandler.EmptyErrorsArrayYieldsEmptyMessage | lib/utils/errorHandler.ts:18-20 | an empty `errors` array gives the empty message |
| ErrorHandler.ErrorsArrayIsCommaSeparated | lib/utils/errorHandler.ts:19-20 | two errors are joined with ", " |
| ErrorHandler.IsNetworkError | lib/utils/errorHandler.ts:32-34 | throws iff the input is nullish; otherwise true iff there is no truthy response and the message is exactly "Network Error" |
| ErrorHandler.CallIncludes | lib/utils/errorHandler.ts:37 | `includes` answers a boolean on strings and arrays and throws otherwise |
| ErrorHandler.IsTimeoutError | lib/utils/errorHandler.ts:36-38 | throws on nullish input; otherwise answers a boolean or undefined |
| ErrorHandler.TimeoutIff | lib/utils/errorHandler.ts:36-38 | for a string or absent message: a timeout iff the code is ECONNABORTED or the message contains "timeout" |
| ErrorHandler.TimeoutThrowsOnOddMessage | lib/utils/errorHandler.ts:37 | a message that is neither string nor array makes the check throw |
| ErrorHandler.NetworkErrorIsTimeoutOnlyByCode | lib/utils/errorHandler.ts:32-38 | a network error is a timeout only by its code |
| ErrorHandler.NetworkErrorReportsItself | lib/utils/errorHandler.ts:1-34 | a network error without `data.message` reports "Network Error" |
| PostForm.CheckSelection | components/posts/PostForm.tsx:48-64 | accepted iff at most 3 images, at most 1 video, and no video when one is attached; refused in the source's order |
| PostForm.ImageLimitIsPerSelection | components/posts/PostForm.tsx:51-54 | three images are accepted whatever is already attached |
| PostForm.VideoCount | components/posts/PostForm.tsx:72-76 | mirrored upload types count the selection's videos |
| PostForm.WithoutIndex | components/posts/PostForm.tsx:86-90 | removes one element when the index is in range, none otherwise |
| PostForm.WithoutIndexIsSplice | components/posts/PostForm.tsx:86-90 | the result is the list before and after the index, in order |
| PostForm.MediaState.constructor | components/posts/PostForm.tsx:32-35 | no media is attached at first |
| PostForm.MediaState.HandleFileSelect | components/posts/PostForm.tsx:44-84 | a refused or failed selection changes nothing; a successful one appends all three lists, keeping them aligned and at most one video |
| PostForm.MediaState.RemoveMedia | components/posts/PostForm.tsx:86-90 | removes the same position from all three lists, keeping them aligned and at most one video |
| PostForm.SubmitEnabledIffContent | components/posts/PostForm.tsx:221 | submit is enabled iff the content has a non-whitespace character |
| PostForm.SubmitDisabled | components/posts/PostForm.tsx:221 | disabled while a post is being created; otherwise disabled iff the content is all whitespace |
| CommentCard.SaveRequest | components/comments/CommentCard.tsx:55-65 | sends nothing when the trimmed text equals the comment; otherwise sends a different, trimmed text |
| CommentCard.SaveDisabled | components/comments/CommentCard.tsx:163 | Save is enabled iff the text is not all whitespace and differs, untrimmed, from the comment |
| CommentCard.EnabledSaveSendsText | components/comments/CommentCard.tsx:55-163 | an enabled Save never sends blank text |
| CommentCard.TrailingSpaceEnablesSaveButSendsNothing | components/comments/CommentCard.tsx:56-163 | adding a trailing space enables Save but sends nothing |
| CommentCard.Card.constructor | components/comments/CommentCard.tsx:27-29 | the editor starts closed on the comment's text |
| CommentCard.Card.IsOwner | components/comments/CommentCard.tsx:34 | the viewer owns the comment only with an id equal to the author's; a viewer without an id owns nothing |
| CommentCard.Card.ToggleActions | components/comments/CommentCard.tsx:101-106 | only the owner can flip the menu |
| CommentCard.Card.HandleEdit | components/comments/CommentCard.tsx:49-53 | opens the editor on the current text and closes the menu |
| CommentCard.Card.EditChange | components/comments/CommentCard.tsx:141 | stores the typed text |
| CommentCard.Card.HandleSaveEdit | components/comments/CommentCard.tsx:55-73 | sends the save request; the editor stays open only after a failed send |
| CommentCard.Card.HandleCancelEdit | components/comments/CommentCard.tsx:75-78 | restores the text and closes the editor |
| CommentCard.Card.OnCommentRefetched | components/comments/CommentsSection.tsx:140-145 | the refetched list gives the same card (keyed by id) the stored text; the menu and editor state are kept |
| CommentCard.SavedTextBecomesTheComment | components/comments/CommentCard.tsx:49-73 | after a successful save and the refetch it triggers, editing starts from the saved text and Save is disabled |
| CommentCard.EditThenCancel | components/comments/CommentCard.tsx:49-78 | editing then cancelling restores the card |
| CommentCard.FailedSaveKeepsEditing | components/comments/CommentCard.tsx:55-73 | a failed save keeps the editor open with the typed text |
| Dashboard.ShownUpToSpec | app/dashboard/page.tsx:260-265 | the filter keeps exactly the shown pages, ascending |
| Dashboard.PageWindow | app/dashboard/page.tsx:260-265 | the buttons are the first, last and neighbouring pages, strictly ascending |
| Dashboard.WindowHasEndsAndCurrent | app/dashboard/page.tsx:260-265 | the first, last and current pages always have buttons |
| Dashboard.EllipsisIffGap | app/dashboard/page.tsx:268-270 | an ellipsis appears iff the previous page has no button |
| Dashboard.RangeFrom | app/dashboard/page.tsx:243 | the first user shown on a page |
| Dashboard.RangeTo | app/dashboard/page.tsx:244 | the last user shown, capped by the total |
| Dashboard.RangeIsAPage | app/dashboard/page.tsx:243-245 | the label names 1 to 10 users within the total, and consecutive pages abut |
| Dashboard.PaginationBar | app/dashboard/page.tsx:240-289 | shown iff there are users and more than one page; the buttons follow `hasPrev`, `hasNext` and the window |
| Dashboard.MiddleOfNine | app/dashboard/page.tsx:260-270 | page 5 of 9 shows 1, 4, 5, 6, 9 with two ellipses |
| Dashboard.Page.constructor | app/dashboard/page.tsx:29-43 | starts on page 1 with the dialog closed |
| Dashboard.Page.HandlePageChange | app/dashboard/page.tsx:95-98 | moves to the requested page and leaves the dialog alone |
| Dashboard.Page.HandleDeleteClick | app/dashboard/page.tsx:45-51 | opens the dialog on that user |
| Dashboard.Page.CloseDialog | app/dashboard/page.tsx:310 | closes and clears the dialog |
| Dashboard.Page.HandleDeleteConfirm | app/dashboard/page.tsx:53-65 | deletes only a non-empty id; the dialog closes on success and stays as it was on failure |
| Dashboard.DeleteFailsThenRetry | app/dashboard/page.tsx:45-65 | a failed delete keeps the dialog, so a retry succeeds |
| UserCard.ShowsDeleteButton | components/admin/UserCard.tsx:13-85 | the delete button is shown on cards other than the viewer's own |
| UserCard.DeleteFromCard | app/dashboard/page.tsx:228-235 | a confirmed delete started from a card's button never sends the viewer's own id, and sends the card user's id when it is non-empty; a failed call keeps the dialog on that user |
| UserCard.DisplayName | components/admin/UserCard.tsx:57 | the name when non-empty, else "No Name"; never empty |
| UserCard.LastFour | components/admin/UserCard.tsx:104 | the last four characters, or the whole string when shorter |
| UserCard.MaskedAadhaar | components/admin/UserCard.tsx:101-106 | shown iff the number is non-empty; four stars and at most four characters |
| UserCard.MaskRevealsOnlyTheTail | components/admin/UserCard.tsx:101-106 | only a suffix of at most four characters is revealed |
| UserCard.RoleBadge | components/admin/UserCard.tsx:24-32 | purple iff admin or superadmin, blue otherwise |
| UserCard.PurpleBadgeIffDashboardRole | components/admin/UserCard.tsx:24-32 | purple marks exactly the roles the gate lets into the dashboard |
| UserCard.ProviderBadge | components/admin/UserCard.tsx:34-71 | a badge iff the provider is non-empty; red for google, gray otherwise |
| Js.IncludedCharOccurs | lib/store/api/baseQuery.ts:43-49 | every character of an included string occurs in the string |
| Js.IncludesAt | lib/store/api/baseQuery.ts:43-49 | an occurrence at an offset makes `includes` true |
| Js.Trim | components/chat/ChatWindow.tsx:106 | `trim` leaves an infix without surrounding whitespace, and everything it drops at either end is whitespace |
| Js.TrimEmptyIffBlank | components/chat/ChatWindow.tsx:106 | the trim is empty iff the string is all whitespace |
| Js.TrimOfTrimmed | components/comments/CommentCard.tsx:56 | trimming is the identity on a trimmed string |

## Left out

- Console logging and toast notifications: they have no effect on the modelled state.
- Exceptions thrown by `localStorage` are left out, and so is the `try/catch` that swallows them.
- JWT payload decoding is a parameter of the expiry checks. They read only the `exp` claim of section 4.1.4 of RFC 7519.
- Clocks, `setInterval`/`setTimeout` scheduling, fresh ids and timestamps are parameters or counters.
- Socket.io transport, reconnection and ordering across sockets are left out. A disconnected socket delivers no more events.
- React effect scheduling and re-render timing are left out. Each handler runs on the current state, except the pending typing timeout, whose closure keeps the peer it was created for (`ChatWindow.Conversation.OnTypingTimeout`).
- The replay loop of the base query runs atomically: no other event interleaves between awaited retries.
- When the refresh service is busy, the gateway's refresh call settles at once, before any other event.
- `BaseQuery.Gateway.OnRefreshSettled` replays with the same `Authorization` header, because the refresh writes no token the client reads. The model states nothing about a token the server may set in a cookie.
- Email syntax validation is a parameter predicate, as the validation library's rules are not part of this model.
- Strings are sequences of characters, not UTF-16 code units.
- `JSON.stringify` and `JSON.parse` of the stored user form a parameter codec.
- The Redux auth slice (`authSlice.ts`) is not part of this model. `setUser` and `clearAuth` are taken to set or clear the user and the authenticated flag.
- Cookie attributes (`path`, `SameSite`, `max-age`) are left out, except that `max-age=0` deletes the cookie.
- JavaScript numbers are integers here: no NaN and no fractions.
- `AuthThunks.CheckAuthStatus`: the `catch` path is left out, because nothing in its `try` block throws once storage exceptions are left out.
- Validator error messages are left out. The model says only whether a form passes.
- `ErrorHandler.GetErrorMessage`: objects with a custom `toString` are left out, and so are array elements other than strings, numbers, booleans, nullish values and nested arrays. The result may be a non-string, as in the code.
- `ErrorHandler.ResponseFieldsInOrder` covers `errors` values only as the code returns them: an array is joined and anything else is returned as it is.
- `PostForm.MediaState.HandleFileSelect`: the three list setters apply together, and no other event interleaves with the upload's `await`. An empty selection is still uploaded, as in the code.
- The post form's content schema (required, at most 300 characters) and its `maxLength` are left out.
- Comment deletion (`handleDelete`) is left out: it is only a confirm dialog and a server call.
- The comment editor's `maxLength` of 500 and the avatar initial are left out.
- The dashboard's scroll on page change and refetch after delete are left out. So are its stats cards and its logout handler; the logout itself is `AuthThunks.Logout`.
- User card date formatting, the avatar initial, the verified/active badges and the "(You)" label are left out.
- The chat window's typing-indicator subscriptions are left out. Their callbacks are modelled (`ChatWindow.Conversation.OnUserTypingStart` and `OnUserTypingStop`); how they are registered and removed is the same bookkeeping as `SocketContext.SocketProvider.Subscribe`.
- `ChatPage`'s user query and its logout handler are left out. The logout is `AuthThunks.Logout`.
