# Chat and call relay — Dafny model

This project models the core of a one-to-one chat and video-call application. It has two sides.

The server side:

- the socket.io connection supervisor: the token gate, the presence registry of user id to socket id, the roster broadcast and the queue consumer;
- the text relay: `send-message` and the typing indicators;
- the call-signalling forwarder, including the call record that `end-call` writes;
- the chat controller: history, users, call logs and chats;
- the auth controller: register, login and profile update.

The client side:

- the call session (`CallContext`): the peer connection, the two ICE candidate buffers and the "remote description set" flag, the pending incoming offer, and the call state;
- the chat page;
- the sign-in / sign-up form;
- the message composer;
- the side list with its search filter and call-log tab.

The model is written in these forms:

- Server state that handlers update in place is a class, `Presence.Relay`. It holds the registry, the live sockets, an outbox of emitted events, the broker queue and the message store.
- The user collection is another class, `AuthController.UserStore`.
- Each client component's state is a class: `CallContext.CallSession`, `ChatPage.ChatView`, `AuthPage.AuthView` and `MessageInput.Composer`.
- The controllers' request handling and the list filter are pure functions over records.

Each socket event, user action and peer-connection callback is one atomic step. The one exception is answering a call, which is split in two at its wait for the remote description (`BeginAnswer` / `CompleteAnswer`), so that events arriving in between can be modelled.

Collaborators outside the core are parameters:

- the JWT verifier and signer, and the bcrypt hash and compare;
- the ObjectId validator;
- whether a database write succeeds (`dbOk`, `createOk`, `saveOk`);
- whether a query by id runs (`findOk`); Mongo throws a cast error for an id it cannot read as an ObjectId;
- whether a remote description is accepted (`srdOk`);
- the offer and answer text that the browser produces;
- the clock (`now`).

"Truthy" is JavaScript truthiness of an optional string: absent and `""` are falsy.

The central proved properties:

- **ICE buffering.** `CallSession.Valid()` holds after every step: every local candidate the peer gathered is either already emitted or still buffered, in gathering order and exactly once, and every remote candidate received since the current peer was created (or the call was last reset) is either offered to the peer or still buffered. Candidates still buffered when a new peer is created, or when the call is reset, are discarded. Once the remote description is set, both buffers are empty.
- **History and call logs.** The history is exactly the messages between the two users, oldest first. The call logs are exactly the user's call records, newest first, with the right direction and the right other party. Both rest on a proved stable sort.
- **Registration checks.** A form that the client's checks let through passes every server registration check except uniqueness.
- **Login privacy.** Login failures for an unknown e-mail and for a wrong password are indistinguishable.
- **Presence registry.** The registry keeps JavaScript `Map` key order. A superseded socket that disconnects removes the live user from the roster.
- **End-to-end call record.** An `end-call` the page emits is recorded as a zero-length video call in both parties' logs.

## Model

| member | source | states |
|---|---|---|
| Common.TrimEmptyIffAllSpace | client/src/components/MessageInput.jsx:9 | `s.trim()` is empty exactly when every character of `s` is whitespace |
| Records.FindById | server/controllers/auth.controller.js:111 | `findById` yields an account with that id taken from the collection, or none exists |
| Presence.Authenticate | server/socket/index.js:13-23 | a missing/empty token or one the verifier rejects gives the single authentication error; otherwise the identity is the verified `userId` |
| Presence.Registry.Set | server/socket/index.js:40 | `Map.set`: the new entry is stored, a new key goes last, an existing key keeps its place, keys stay distinct |
| Presence.Registry.Delete | server/socket/index.js:54 | `Map.delete`: the key is removed, nothing changes when it is absent, keys stay distinct |
| Presence.DeleteKeepsOthers | server/socket/index.js:54-55 | deleting a user keeps every other entry and the others' roster order |
| Presence.Receivers | server/socket/index.js:39 | an emit reaches only live sockets; a broadcast reaches all of them |
| Presence.Delivery | server/socket/index.js:25-31 | the consumer pushes `receive-message` with only sender, text and timestamp to the recipient's room |
| Presence.Relay.constructor | server/socket/index.js:9 | empty registry, no sockets, nothing emitted or queued |
| Presence.Relay.Connect | server/socket/index.js:33-50 | rejected connections change nothing; accepted ones register the user on the socket, send `user-id` to it, then broadcast the roster in key order |
| Presence.Relay.Disconnect | server/socket/index.js:52-56 | the registry entry for the socket's user is deleted (whichever socket it names) and the roster is broadcast |
| Presence.Relay.Publish | server/socket/chat.socket.js:35 | the envelope is queued when a channel exists and dropped otherwise |
| Presence.Relay.ConsumeOne | server/socket/index.js:25-31 | the oldest envelope is pushed to the recipient's room, then removed from the queue |
| Presence.Relay.ConsumeCrashBeforeAck | server/socket/index.js:25-31 | a push without acknowledgement leaves the envelope queued for a repeat push |
| Presence.SupersededDisconnectDropsLiveUser | server/socket/index.js:40-55 | two sockets for one user, then the first disconnects: the user leaves the roster while the second socket is still live and reachable through the room |
| ChatSocket.SendMessage | server/socket/chat.socket.js:7-51 | a falsy or invalid receiver does nothing; a throwing log line gives an error ack and nothing else; otherwise the record is stored if the write succeeds, and the envelope is published and 'sent' acked either way |
| ChatSocket.Typing | server/socket/chat.socket.js:54-56 | `typing` goes to room `to` carrying the verified sender |
| ChatSocket.StopTyping | server/socket/chat.socket.js:58-60 | `stop-typing` goes to room `to` carrying the verified sender |
| ChatSocket.SendUsesVerifiedSender | server/socket/chat.socket.js:9-28 | record and envelope ignore the claimed `from`; the stored text falls back to 'Image'; the record is marked delivered |
| ChatSocket.RelayedPushMatchesSend | server/socket/chat.socket.js:16 | the later push of a published send carries the payload's own text to the receiver's room |
| CallSocket.IsObjectId | server/socket/call.socket.js:4 | exactly 24 hexadecimal digits of either case |
| CallSocket.ToUser | server/socket/call.socket.js:8-12 | nothing for a falsy target, otherwise one emit to the target's room |
| CallSocket.FirstKeyFor | server/socket/call.socket.js:17-19 | a registry key that names the socket, or none names it |
| CallSocket.Resolve | server/socket/call.socket.js:14-21 | null for falsy; an ObjectId-shaped value as is; else a user registered on that socket; else the socket's `userId` property |
| CallSocket.ResolveMongoId | server/socket/call.socket.js:14-21 | the search loop with early return computes `Resolve` |
| CallSocket.ResolveSocketIdIsOwner | server/socket/call.socket.js:17-19 | in a consistent relay a registered socket id resolves to the user registered on it |
| CallSocket.ResolveFallbackIsDead | server/socket/call.socket.js:20 | since no handler sets a socket's `userId` property, an unregistered non-ObjectId value resolves to null |
| CallSocket.CallUser | server/socket/call.socket.js:23-31 | forwards exactly sender, offer, media type and caller name to `to` |
| CallSocket.WebrtcAnswer | server/socket/call.socket.js:33-39 | forwards exactly sender and answer to `to` |
| CallSocket.IceCandidate | server/socket/call.socket.js:41-46 | forwards exactly sender and candidate to `to` |
| CallSocket.CallRejected | server/socket/call.socket.js:48-50 | forwards only the sender to `to` |
| CallSocket.DurationOrZero | server/socket/call.socket.js:70 | `duration \|\| 0` |
| CallSocket.CallRecordShape | server/socket/call.socket.js:65-71 | the record is audio exactly when `callType` is 'audio', video otherwise (absent included), with the matching text, and with the duration or 0 |
| CallSocket.EndCall | server/socket/call.socket.js:52-76 | `{from}` is forwarded first and unconditionally; a record is written only when both ids resolve and the write succeeds |
| ChatController.InsertSorted | server/controllers/chat.controller.js:18 | inserting into a time-sorted sequence keeps it sorted (either direction) |
| ChatController.SortByTime | server/controllers/chat.controller.js:18 | the sort is a permutation of its input |
| ChatController.SortByTimeSorted | server/controllers/chat.controller.js:18 | the sort's result is ordered by creation time |
| ChatController.GetHistory | server/controllers/chat.controller.js:4-35 | 400 'Missing user IDs' when either id is falsy; 500 'Internal server error' when the query fails; otherwise 200 with the conversation formatted entry by entry (type and fileUrl defaults, `isMe` iff sent by the asker) |
| ChatController.ConversationIsExact | server/controllers/chat.controller.js:13-18 | the history is sorted oldest first and holds exactly the messages between the two users, with multiplicity |
| ChatController.ConversationSymmetric | server/controllers/chat.controller.js:14-17 | asking from either side gives the same messages |
| ChatController.FormatCall | server/controllers/chat.controller.js:72-87 | direction outgoing iff the user sent it, the call type, the date, and the other party's id, name and avatar from the directory; it fails exactly when the sender is missing, or the user is the caller and the receiver is missing |
| ChatController.FormatCalls | server/controllers/chat.controller.js:72-87 | every call formatted in order, or failure when any one fails |
| ChatController.GetCallLogs | server/controllers/chat.controller.js:56-94 | 400 'Missing user ID'; 500 'Error fetching call logs' when the query or the formatting fails; 200 exactly otherwise, with one entry per call carrying its type, direction, date and the other party's id, name and avatar |
| ChatController.CallsOfIsExact | server/controllers/chat.controller.js:64-68 | the call log source is exactly the user's call records, newest first |
| ChatController.GetUsers | server/controllers/chat.controller.js:37-50 | every account in order, with `fullName` published as `name` |
| ChatController.GetChats | server/controllers/chat.controller.js:96-99 | always 200 with an empty list |
| AuthController.RegisterError | server/controllers/auth.controller.js:9-30 | each 400 message exactly when the earlier checks pass and its own check fails, the password length counted in UTF-16 code units; none exactly when all pass |
| AuthController.PasswordLengthInCodeUnits | server/controllers/auth.controller.js:22 | `password.length` counts a character outside the Basic Multilingual Plane twice, so three such characters reach the minimum of 6 |
| AuthController.NewAccount | server/controllers/auth.controller.js:36-43 | the account stores the form's username, full name, e-mail and phone, the hashed password, status 'online' and the schema defaults for avatar and bio |
| AuthController.FindByEmail | server/controllers/auth.controller.js:71 | an account with that e-mail, or none exists |
| AuthController.Login | server/controllers/auth.controller.js:63-98 | 400 for missing fields; 400 'Invalid credentials' for an unknown e-mail; success only with a matching password, returning the signed session |
| AuthController.LoginFailuresIndistinguishable | server/controllers/auth.controller.js:72-86 | an unknown e-mail and a wrong password give the same reply |
| AuthController.LoginSucceedsIff | server/controllers/auth.controller.js:67-86 | login succeeds exactly when both fields are given, the e-mail is known, and the hash comparison or plain equality holds |
| AuthController.MergeProfile | server/controllers/auth.controller.js:116-119 | each truthy field overwrites its counterpart; every other field is kept |
| AuthController.MergeIdempotent | server/controllers/auth.controller.js:116-119 | applying the same update twice equals applying it once |
| AuthController.MergeEmptyIsIdentity | server/controllers/auth.controller.js:116-119 | an update with no truthy field changes nothing |
| AuthController.ViewOf | server/controllers/auth.controller.js:125-133 | the reply's user view copies the seven public fields |
| AuthController.UserStore.constructor | server/models/User.js:3-35 | a collection of accounts with unique ids |
| AuthController.UserStore.Register | server/controllers/auth.controller.js:7-61 | a failed check gives 400 and changes nothing; a refused write gives 500 'Registration failed'; otherwise the new account is appended and 201 returns the signed session |
| AuthController.UserStore.UpdateProfile | server/controllers/auth.controller.js:105-140 | 500 when the lookup fails; 404 for an unknown id; 500 when the save fails; nothing changes in those cases; otherwise only that account is merged and the reply carries its view |
| CallContext.IceOuts | client/src/context/CallContext.jsx:72-74 | one `ice-candidate` emit per candidate, in order |
| CallContext.EmitEach | client/src/context/CallContext.jsx:72-74 | the `forEach` loop emits `IceOuts` of the buffer |
| CallContext.LeaveTarget | client/src/context/CallContext.jsx:352 | `call.from \|\| callTo` |
| CallContext.CallSession.constructor | client/src/context/CallContext.jsx:34-53 | no peer, empty buffers, no id, initial call state; the buffering invariant holds |
| CallContext.CallSession.FlushLocalIce | client/src/context/CallContext.jsx:68-77 | the buffered local candidates are emitted to `to` in order, then the buffer is empty; the ledger records them as sent |
| CallContext.CallSession.DrainRemoteIce | client/src/context/CallContext.jsx:79-89 | every buffered remote candidate is offered to the peer in order, then the buffer is empty |
| CallContext.CallSession.OnUserId | client/src/context/CallContext.jsx:96-99 | the announced id is remembered |
| CallContext.CallSession.OnCallUser | client/src/context/CallContext.jsx:101-107 | shows the incoming call with its media type (default video) and keeps its offer; peer and buffers untouched |
| CallContext.CallSession.CreatePeerConnection | client/src/context/CallContext.jsx:160-171 | the old peer is closed, the buffers and flag are cleared, and a fresh peer is made for `remote` |
| CallContext.CallSession.OnWebrtcAnswer | client/src/context/CallContext.jsx:109-128 | accepted in every case; when no peer, stable or closed, or rejected, nothing else changes; otherwise the answer is set, remote candidates are drained, and local ones are flushed to the sender |
| CallContext.CallSession.OnIceCandidate | client/src/context/CallContext.jsx:130-144 | absent is ignored; buffered when there is no peer or no remote description; otherwise offered at once |
| CallContext.CallSession.OnLocalCandidate | client/src/context/CallContext.jsx:173-181 | end-of-gathering is ignored; emitted straight to the peer's user once the remote description is set, else buffered |
| CallContext.CallSession.CallUser | client/src/context/CallContext.jsx:243-284 | nothing without own id or target (no field changes, no peer is closed or created); otherwise an outgoing video call on a fresh peer holding the offer, and `call-user` with the caller name or '' |
| CallContext.CallSession.BeginAnswer | client/src/context/CallContext.jsx:288-304 | nothing without a pending offer (no field changes, no peer is closed or created); otherwise accepted with the offer's media type on a fresh peer for the caller, awaiting its description |
| CallContext.CallSession.CompleteAnswer | client/src/context/CallContext.jsx:306-323 | a replaced peer or a rejected description stops the answer; otherwise the remote candidates are drained before the answer is emitted and the local ones are flushed after it, and the offer is cleared |
| CallContext.CallSession.ResetCall | client/src/context/CallContext.jsx:146 | also `end-call` received: call ended, buffers, flag, offer and remote user cleared, peer closed and dropped, media type kept |
| CallContext.CallSession.LeaveCall | client/src/context/CallContext.jsx:351-375 | `end-call` with only from/to goes to the caller, else the callee, when there is one; then the call is reset: the peer is closed and dropped, and the buffers, flag, offer and remote user are cleared |
| ChatPage.OnlineList | client/src/pages/Chat.jsx:60 | the announced ids except one's own, in roster order, each as often as announced |
| ChatPage.ActiveTyping | client/src/pages/Chat.jsx:135 | the open chat's partner is shown typing exactly when its flag is set |
| ChatPage.DisplayUsers | client/src/pages/Chat.jsx:137-143 | every directory user except oneself, in directory order with one row per user, each marked online exactly when the roster has them, nothing else |
| ChatPage.ChatView.constructor | client/src/pages/Chat.jsx:10-19 | no chat open, no messages, nobody online or typing |
| ChatPage.ChatView.OnUsersOnline | client/src/pages/Chat.jsx:59-61 | the online list becomes the roster without oneself |
| ChatPage.ChatView.OnReceiveMessage | client/src/pages/Chat.jsx:63-68 | the message joins the open chat only when it is from its partner; the sender's typing flag is cleared either way |
| ChatPage.ChatView.OnTyping | client/src/pages/Chat.jsx:70-72 | the sender's flag is set |
| ChatPage.ChatView.OnStopTyping | client/src/pages/Chat.jsx:74-76 | the sender's flag is cleared |
| ChatPage.ChatView.SelectChat | client/src/pages/Chat.jsx:87-102 | opening a different chat clears the messages and requests its history; closing or reselecting requests nothing |
| ChatPage.ChatView.OnHistory | client/src/pages/Chat.jsx:94 | the fetched history replaces the messages |
| ChatPage.ChatView.HandleSendMessage | client/src/pages/Chat.jsx:104-116 | without open chat or socket nothing; otherwise `send-message` then `stop-typing`, and the text is shown as one's own |
| ChatPage.ChatView.HandleTyping | client/src/pages/Chat.jsx:118-133 | the matching indicator goes to the open chat, or nothing |
| ChatPage.ReceiveClearsTyping | client/src/pages/Chat.jsx:63-68 | a message from the open chat's partner hides its typing indicator |
| ChatPage.OthersTypingInvisible | client/src/pages/Chat.jsx:70-76 | typing signals of anyone else leave the indicator as it was |
| AuthPage.SetField | client/src/pages/Auth.jsx:16-18 | exactly the named field takes the value |
| AuthPage.ClientError | client/src/pages/Auth.jsx:26-51 | the client checks in order: both credentials, e-mail shape, length 6 in UTF-16 code units, then in register mode the other three fields; none exactly when all pass |
| AuthPage.RequestFor | client/src/pages/Auth.jsx:53-59 | login posts e-mail and password only, register the whole form |
| AuthPage.ClientRegisterPassesServerChecks | client/src/pages/Auth.jsx:26-59 | a form the client sends for registration can be refused by the server only as a duplicate |
| AuthPage.ClientLoginHasCredentials | client/src/pages/Auth.jsx:26-30 | a form the client sends for login is never refused for missing fields |
| AuthPage.AuthView.constructor | client/src/pages/Auth.jsx:5-14 | login mode, empty form, no error, not loading |
| AuthPage.AuthView.Change | client/src/pages/Auth.jsx:16-18 | the form takes the changed field |
| AuthPage.AuthView.SetMode | client/src/pages/Auth.jsx:120-126 | the Login/Register toggle sets the mode and clears the error |
| AuthPage.AuthView.ToggleMode | client/src/pages/Auth.jsx:204 | the link flips the mode and keeps the error |
| AuthPage.AuthView.Submit | client/src/pages/Auth.jsx:20-59 | a failed check shows its message and posts nothing; otherwise the request for the mode is posted and the form waits |
| AuthPage.AuthView.OnReply | client/src/pages/Auth.jsx:72-90 | a failure shows the server's message or 'Something went wrong'; a login success saves token and user id; a register success switches to login |
| MessageInput.Composer.constructor | client/src/components/MessageInput.jsx:3-4 | empty field, nothing signalled |
| MessageInput.Composer.TypingSignal | client/src/components/MessageInput.jsx:12 | a typing signal exists only when a typing callback was given |
| MessageInput.Composer.Submit | client/src/components/MessageInput.jsx:6-14 | text that is not all whitespace is sent untrimmed, the field is cleared and typing stops; whitespace-only text changes nothing |
| MessageInput.Composer.Change | client/src/components/MessageInput.jsx:16-21 | the field takes the text and typing is signalled |
| MessageInput.Composer.Blur | client/src/components/MessageInput.jsx:29 | leaving the field signals that typing stopped |
| ChatList.UsersList | client/src/components/ChatList.jsx:36 | exactly the named users whose lower-cased name contains the lower-cased term; one entry per matching user, each at the position given by the number of matches before it, so order and duplicates are kept |
| Common.FilterPlaces | client/src/components/ChatList.jsx:36 | `filter` keeps order and multiplicity: its length is the number of kept elements, and a kept element lands after exactly the kept elements before it |
| ChatList.EmptyTermKeepsNamed | client/src/components/ChatList.jsx:36 | with an empty term exactly the named users are listed |
| ChatList.CallLabel | client/src/components/ChatList.jsx:110 | 'Video Call' exactly for type 'video_call', 'Audio Call' for everything else |
| ChatList.EmptyText | client/src/components/ChatList.jsx:123-126 | 'No users found' exactly when a term is entered, else 'No active users' |
| ChatList.FetchOnTabChange | client/src/components/ChatList.jsx:12-16 | call logs are fetched exactly when the tab becomes, or starts as, 'Calls' |
| ChatList.CallLogsUser | client/src/components/ChatList.jsx:22-25 | own id, else the stored user's id; no request when both are falsy |
| EndToEnd.ServerPayload | client/src/context/CallContext.jsx:353 | the page's `end-call` carries only from and to, with no call type or duration |
| EndToEnd.PageEndedCallLogged | server/socket/call.socket.js:65-71 | a page-ended call is recorded as 'Video call ended' with duration 0, labelled 'Video Call', and appears in both parties' call logs |

## Left out

- The RabbitMQ connection, reconnection and channel creation are not modelled. The channel is a flag (`channelUp`), and whether a consumer was registered is fixed at start.
- JWT signing and verification, bcrypt hashing and comparison, and the ObjectId validator are abstract function parameters.
- The database is a sequence of records. A refused write and a failed query by id are boolean parameters; they are not derived from the id's shape. Other database failures, such as the one behind the 500 reply of the user directory, are not modelled.
- The message model's own file (`server/models/Message.js`) is not part of this model; the record fields are those the handlers read and write.
- Schema normalisation is not modelled: lower-casing of e-mails, trimming of usernames, enum checks on status, and the unique index on phone. A duplicate phone surfaces only as a refused write (`createOk`).
- `Common.LowerChar` implements only the ASCII part of `toLowerCase`.
- Media is left out: `getUserMedia` streams, tracks, `ontrack`, screen sharing, audio/video toggles and ICE restarts.
- Timers are left out: the 200 ms and 150 ms delays in the call flows, and the 3-second typing timeout.
- The offer produced by `createOffer` and the answer produced by `createAnswer` are parameters. Answer creation is assumed to succeed.
- `CallContext.CallSession.CallUser` is one atomic step, although the source awaits inside it.
- `CallContext.CallSession.BeginAnswer` and `CompleteAnswer` split `answerCall` only at its wait for the remote description.
- `CallContext.CallSession.OnLocalCandidate` requires a current peer, because candidates are only gathered by a live peer connection.
- `CallContext.CallSession.CompleteAnswer`: a rejected remote description is modelled as the answer stopping without effect; the uncaught rejection itself is not.
- `ChatPage.ChatView.OnHistory` replaces the messages with whatever response arrives; a stale response for a previously open chat is not distinguished (the source does not check either).
- The fetch of the directory (`fetchUsers`) is I/O and is not modelled. The directory is a sequence with distinct ids, in the order the users object yields them.
- Date rendering (`formatTime`, `formatDate`), file rendering and all JSX markup are left out.
- The `alert` after a successful registration and the `onLogin` callback are not modelled beyond the saved token and user id.
- JavaScript `null` and `undefined` are both the absent `Option` value, and message ids (`_id`) are not modelled.
- `ChatController.SortByTime` orders messages with equal timestamps stably (oldest insertion first). Mongo guarantees no order for ties.
- An audio-only call is not modelled: the chat page asks the call context for `callUserAudio` (client/src/pages/Chat.jsx:12), which the call context does not provide, so only the video path exists.
