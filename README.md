# Telemedicine call signalling, modelled in Dafny

This project models the call-signalling core of a React telemedicine
front-end in which patients video-call doctors. It covers:

- the two video-call components. `VideoCall` handles offer, answer,
  candidate, bye and ready messages on `calling`. `VideoCallRoom` is the
  room at `/video-call/:roomId` and handles `webrtc-signal`;
- the `WebRTCService` wrapper class;
- the app-wide socket provider: connection and registration flags, the
  incoming and current call, the online-doctors set, and the guards of the
  call actions;
- the pure helpers: the `MM:SS` duration text, call-room ids, media error
  messages, user validation and the safe user object;
- the pages' decision logic: who the other participant of a call room is,
  the consultation filter and badges, and the user list's call guard and
  online/offline figures.

Browser objects are abstract handles, modelled as classes in `Platform`:

- `MediaStream` holds tracks with ids, kinds, `enabled` and `live` flags.
- `PeerConnection` records the track ids it sends, its local and remote
  descriptions, the remote candidates it was given, and whether it is
  closed. A closed connection rejects every operation.

A component is a class whose fields are its refs and its React state. Every
socket event, button and connection callback is a method that runs to
completion before the next event. Emitted socket messages are appended to an
`outbox` sequence, and navigations to a `navigations` sequence.

The environment's answers are method parameters:

- what `getUserMedia` resolves or rejects with (`MediaOutcome`);
- the SDP text the platform generates;
- the user's answer to a dialog;
- what an API request returns.

JavaScript truthiness of optional strings (`||`, `?.`, template text) lives in
module `Js`.

## Model

| member | source | states |
|---|---|---|
| Constants.CallStatus.Text | src/utils/constants.js:51-57 | every call status has its non-empty display text |
| Platform.FirstOfKindSpec | src/components/video/VideoCallRoom.jsx:175 | `getVideoTracks()[0]` / `getAudioTracks()[0]`: the index found holds a track of that kind and no earlier one does; none is found exactly when no track has the kind |
| Platform.StoppedSpec | src/components/video/VideoCall.jsx:629 | stopping every track keeps the tracks and their ids, leaves none live, and is idempotent |
| Platform.ToggledSpec | src/components/video/VideoCall.jsx:653-655 | flipping `enabled` on every track of a kind keeps the ids, touches only that kind, and undoes itself when repeated |
| Platform.MediaStream.StopTracks | src/components/video/VideoCall.jsx:629 | the `forEach(track => track.stop())` loop leaves exactly the stopped tracks |
| Platform.MediaStream.ToggleKind | src/components/video/VideoCall.jsx:653-655 | the `forEach` toggle loop leaves exactly the toggled tracks |
| Platform.MediaStream.EveryTrackLive | src/components/video/VideoCall.jsx:132 | the `every(track => track.readyState === 'live')` loop answers true iff all tracks are live |
| Platform.MediaStream.FindFirstOfKind | src/components/video/VideoCallRoom.jsx:175 | the search loop returns the first track index of the kind |
| Platform.AddStreamTracks | src/components/video/VideoCall.jsx:464-466 | an open connection comes to send every track of the stream once, in order; a closed one is untouched |
| Helpers.DigitChar | src/utils/helpers.js:5 | the digit character for 0..9 has that value |
| Helpers.DecimalRoundTrip | src/utils/helpers.js:5 | `toString()` of a count is all digits, has no leading zero past one digit, and reads back as the count |
| Helpers.LeadingZeroValue | src/utils/helpers.js:5 | a `'0'` padded in front does not change the value read back |
| Helpers.Pad2 | src/utils/helpers.js:5 | `toString().padStart(2, '0')` is at least two digits and reads back as the number; it is exactly two digits below 100 |
| Helpers.FormatDurationSpec | src/utils/helpers.js:2-6 | `formatDuration(s)` is the padded `floor(s/60)`, a colon and the padded `s % 60`; the text is five characters below 100 minutes, and parsing it gives back `s` |
| Helpers.FormatDurationInjective | src/utils/helpers.js:2-6 | different durations give different texts |
| Helpers.SplitSpec | src/utils/helpers.js:74 | `split('_')` has no part containing `_`, its parts join back to the input, and it has one part more than the input has `_` |
| Helpers.SplitAppend | src/utils/helpers.js:74 | splitting `a + '_' + b` with `a` free of `_` gives `a` followed by the split of `b` |
| Helpers.ParseCallRoomId | src/utils/helpers.js:69-85 | null for a missing, empty or non-string id; otherwise null exactly when there are fewer than three parts |
| Helpers.ParseCallRoomIdSpec | src/utils/helpers.js:69-85 | an id parses iff it is a non-empty string with at least two `_`; the fields are parts 0, 1 and 2, free of `_`; the timestamp is absent iff part 3 is missing or empty; a three-part id is rebuilt from its fields |
| Helpers.ParseBuiltCallRoomId | src/utils/helpers.js:69-85 | an id built from three `_`-free ids splits into exactly those ids and parses back to them without a timestamp |
| Helpers.NoOccurrences | src/utils/helpers.js:74 | a text without the separator has no occurrence of it |
| Helpers.GetMediaErrorMessage | src/utils/helpers.js:88-111 | generic text with no error or no name; each of the seven known names gives its message; any other name gives "Media error: " and the message, else the name |
| Helpers.TrimStartSpec | src/utils/helpers.js:118 | dropping leading white space keeps a non-space character iff there was one |
| Helpers.TrimEndSpec | src/utils/helpers.js:118 | dropping trailing white space keeps a non-space character iff there was one |
| Helpers.TrimNonEmpty | src/utils/helpers.js:118 | `trim().length > 0` iff the text holds a non-space character |
| Helpers.ValidateUserDataSpec | src/utils/helpers.js:114-119 | valid iff the record exists and both `_id` and `name` are present and hold a non-space character |
| Helpers.CreateSafeUserObject | src/utils/helpers.js:122-130 | the id is `_id`, else `id`, else "unknown"; the name is `name`, else `fullName`, else `firstName`, else the fallback; the e-mail is `email`, else the first of `emailAddresses`, else empty; the avatar is `avatar`, else `imageUrl`, else one generated for `name` or the fallback on the default background; the type is `userType`, else "patient"; with no record every field takes its default |
| Helpers.CreateSafeUserObjectDefault | src/utils/helpers.js:122 | with the fallback name left to its default, a user with no record, or with no name of any kind, is called "User" |
| SocketContext.GetUserType | src/context/SocketContext.jsx:17-26 | Clerk metadata first, then the `userType_<id>` storage key, then the generic `userType` key |
| SocketContext.GetUserTypePrecedence | src/context/SocketContext.jsx:17-26 | with metadata the storage is irrelevant; a truthy result needs a truthy source |
| SocketContext.SocketProvider.constructor | src/context/SocketContext.jsx:29-35 | no socket, not connected or registered, no calls, no online doctors, no user type |
| SocketContext.SocketProvider.UserTypeEffect | src/context/SocketContext.jsx:42-53 | with a user, the type is read and a user without one is sent to onboarding; without a user nothing changes |
| SocketContext.SocketProvider.ConnectEffect | src/context/SocketContext.jsx:55-62 | a socket is opened only for a signed-in user with a user type |
| SocketContext.SocketProvider.TeardownSocket | src/context/SocketContext.jsx:75-80 | the socket is dropped and both flags cleared |
| SocketContext.SocketProvider.OnConnect | src/context/SocketContext.jsx:64-67 | connected |
| SocketContext.SocketProvider.OnDisconnect | src/context/SocketContext.jsx:69-73 | neither connected nor registered |
| SocketContext.SocketProvider.RegisterEffect | src/context/SocketContext.jsx:83-93 | `register-user` is emitted iff socket, connection, user and type are present and the user is not registered, with the name `fullName`, else `firstName`, else "User" |
| SocketContext.SocketProvider.OnRegistrationSuccess | src/context/SocketContext.jsx:98-101 | registered |
| SocketContext.SocketProvider.OnIncomingCall | src/context/SocketContext.jsx:107-110 | the event's data becomes the incoming call |
| SocketContext.SocketProvider.OnCallInitiated | src/context/SocketContext.jsx:112-115 | the event's data becomes the current call |
| SocketContext.SocketProvider.OnCallAccepted | src/context/SocketContext.jsx:117-122 | the incoming call is cleared, the data becomes current, and the app goes to `/video-call/<roomId>` |
| SocketContext.SocketProvider.OnCallRejected | src/context/SocketContext.jsx:124-128 | only the current call is cleared |
| SocketContext.SocketProvider.OnCallFailed | src/context/SocketContext.jsx:130-134 | only the current call is cleared |
| SocketContext.SocketProvider.OnCallEnded | src/context/SocketContext.jsx:136-141 | both calls are cleared and the app goes to `/dashboard` |
| SocketContext.SocketProvider.OnDoctorOnline | src/context/SocketContext.jsx:143-145 | the id is added to the online set |
| SocketContext.SocketProvider.OnDoctorOffline | src/context/SocketContext.jsx:147-153 | the id is removed; removing an absent id changes nothing |
| SocketContext.PresenceScenario | src/context/SocketContext.jsx:143-153 | online then offline leaves the doctor offline and, for a doctor not online before, the set as it was |
| SocketContext.SocketProvider.InitiateCall | src/context/SocketContext.jsx:169-180 | nothing is emitted without a socket or before registration; otherwise one `initiate-call` with the patient's name, else "Patient" |
| SocketContext.SocketProvider.AcceptCall | src/context/SocketContext.jsx:182-187 | with a socket, an accepting `respond-to-call`; the incoming call stays |
| SocketContext.SocketProvider.RejectCall | src/context/SocketContext.jsx:189-195 | with a socket, a declining `respond-to-call`, and the incoming call is cleared |
| SocketContext.SocketProvider.EndCall | src/context/SocketContext.jsx:197-205 | a no-op without a socket or a current call; otherwise one `end-call` with its ids, and the current call is kept |
| VideoCallComponent.StatusAfterIceRoles | src/components/video/VideoCall.jsx:452-462 | the caller maps `connected` to CONNECTED and `disconnected`/`failed` to DISCONNECTED; the callee (lines 524-530) maps only `connected` |
| VideoCallComponent.VideoCall.constructor | src/components/video/VideoCall.jsx:40-60 | no connection or stream, an inactive DISCONNECTED call of length 0, the flag copied from the transport, and the user registered at once over a connected transport |
| VideoCallComponent.VideoCall.RegisterUserIfNeeded | src/components/video/VideoCall.jsx:49-58 | `register-user` only over a connected transport, for a user with an id who is not registered, with the type defaulting to "patient" |
| VideoCallComponent.VideoCall.RerunEffect | src/components/video/VideoCall.jsx:102-114 | a change of `isUserRegistered` runs the effect's cleanup (connection closed, stream stopped, both dropped) and the effect again |
| VideoCallComponent.VideoCall.OnSocketConnect | src/components/video/VideoCall.jsx:63-67 | connected, and registered if needed |
| VideoCallComponent.VideoCall.OnSocketDisconnect | src/components/video/VideoCall.jsx:69-74 | connected and registered flags cleared and status DISCONNECTED; a registered user's media is torn down by the effect re-run, otherwise nothing is touched |
| VideoCallComponent.VideoCall.OnUserRegistered | src/components/video/VideoCall.jsx:76-79 | registered; a first confirmation tears down the call's media, and a repeated one changes nothing |
| VideoCallComponent.VideoCall.OnRegistrationError | src/components/video/VideoCall.jsx:81-84 | unregistered; losing a registration tears down the media and registers again over a connected transport |
| VideoCallComponent.VideoCall.OnCallFailed | src/components/video/VideoCall.jsx:95-100 | inactive and DISCONNECTED |
| VideoCallComponent.VideoCall.Tick | src/components/video/VideoCall.jsx:117-125 | the duration grows by one only while the call is active and CONNECTED |
| VideoCallComponent.VideoCall.StartLocalVideo | src/components/video/VideoCall.jsx:128-201 | a present all-live stream is kept; any other present stream is stopped and dropped; then success installs the new stream and failure leaves none |
| VideoCallComponent.VideoCall.HandleSocketMessage | src/components/video/VideoCall.jsx:227-254 | ready or offer with a connection and unknown types change nothing; answer or candidate without one are dropped; ready starts the caller's side; offer is answered; answer and candidate are applied; bye hangs up |
| VideoCallComponent.VideoCall.MakeCall | src/components/video/VideoCall.jsx:408-483 | without media nothing is created or sent; otherwise a new caller connection sends every local track, holds the offer as its local description, and the offer goes to the target |
| VideoCallComponent.VideoCall.HandleOffer | src/components/video/VideoCall.jsx:485-556 | ignored while a connection exists; without media nothing is created or sent; otherwise a new callee connection with the offer as remote and the answer as local description, the answer going to the sender |
| VideoCallComponent.VideoCall.HandleAnswer | src/components/video/VideoCall.jsx:558-572 | dropped without a connection; otherwise it becomes the remote description and nothing else changes |
| VideoCallComponent.VideoCall.HandleCandidate | src/components/video/VideoCall.jsx:574-591 | dropped without a connection, not queued; otherwise appended to the connection's remote candidates |
| VideoCallComponent.VideoCall.Cleanup | src/components/video/VideoCall.jsx:622-649 | a present connection is closed and a present stream stopped; both refs end null |
| VideoCallComponent.VideoCall.HangupCall | src/components/video/VideoCall.jsx:593-600 | cleanup, then an inactive DISCONNECTED call of length 0, and `onCallEnd` runs once more |
| VideoCallComponent.HangupTwice | src/components/video/VideoCall.jsx:593-600 | a second hangup leaves the same state apart from one more `onCallEnd` |
| VideoCallComponent.VideoCall.EndCall | src/components/video/VideoCall.jsx:602-620 | on confirmation, `bye` to the target and a hangup; otherwise nothing |
| VideoCallComponent.VideoCall.ToggleAudio | src/components/video/VideoCall.jsx:651-658 | with a stream, every audio track flipped and the muted flag inverted; without one, nothing |
| VideoCallComponent.VideoCall.ToggleVideo | src/components/video/VideoCall.jsx:660-667 | with a stream, every video track flipped and the muted flag inverted; without one, nothing |
| VideoCallComponent.VideoCall.InitiateCall | src/components/video/VideoCall.jsx:298-369 | nothing without a connected transport; an unregistered user only re-sends the registration; failed media ends it; otherwise an active CONNECTING call of length 0 and one `initiate-call` |
| VideoCallComponent.VideoCall.OnCallingDialogClosed | src/components/video/VideoCall.jsx:352-356 | the cancel button or the dialog's timeout hangs up; any other close does nothing |
| VideoCallComponent.VideoCall.AcceptCall | src/components/video/VideoCall.jsx:371-399 | failed media ends it with nothing sent; otherwise an active CONNECTING call, an accepting `call-response` and then `ready` to the caller |
| VideoCallComponent.VideoCall.RejectCall | src/components/video/VideoCall.jsx:401-406 | one declining `call-response` |
| VideoCallComponent.VideoCall.HandleIncomingCall | src/components/video/VideoCall.jsx:256-288 | on accept, media is started and the call accepted if that works; on decline or timeout it is rejected |
| VideoCallComponent.VideoCall.OnLocalIceCandidate | src/components/video/VideoCall.jsx:418-428 | a candidate goes to the peer the connection was made for (lines 500-510 for the callee); the end-of-candidates event sends nothing |
| VideoCallComponent.VideoCall.OnIceConnectionStateChange | src/components/video/VideoCall.jsx:452-462 | the status follows the side's mapping (lines 524-530 for the callee) |
| VideoCallRoomComponent.AsWrittenRoomNeverOffers | src/components/video/VideoCallRoom.jsx:11 | with `isCaller` as the provider supplies it, no offer is ever wanted |
| VideoCallRoomComponent.FormatDurationParts | src/components/video/VideoCallRoom.jsx:168-172 | the room's duration text is the padded minutes `floor(s/60)`, a colon and the two-digit seconds `s % 60 < 60`, which read back to `s` |
| VideoCallRoomComponent.VideoCallRoom.constructor | src/components/video/VideoCallRoom.jsx:13-21 | both refs empty, video and audio on, not connected, duration 0 |
| VideoCallRoomComponent.VideoCallRoom.Mount | src/components/video/VideoCallRoom.jsx:28-44 | the effect passes its guard exactly with a socket and a room id; then granted media gives a fresh open connection carrying the tracks, and otherwise both refs keep what they held; from empty refs a connection exists exactly when the guard passed and media was granted |
| VideoCallRoomComponent.VideoCallRoom.SetupMedia | src/components/video/VideoCallRoom.jsx:62-75 | the connection is created only after media succeeds, fresh and carrying its tracks; on failure neither ref is touched |
| VideoCallRoomComponent.VideoCallRoom.RerunMountEffect | src/components/video/VideoCallRoom.jsx:28-51 | a change of socket or room id runs the previous run's cleanup when it passed its guard (stream stopped, connection closed, refs kept) and then the effect again; a refused `getUserMedia` leaves the closed connection and the stopped stream in the refs |
| VideoCallRoomComponent.VideoCallRoom.CreatePeerConnection | src/components/video/VideoCallRoom.jsx:77-112 | a new open connection sending every track of the stream, when there is one |
| VideoCallRoomComponent.VideoCallRoom.OfferEffect | src/components/video/VideoCallRoom.jsx:54-60 | the effect runs when the connection ref changed, and an offer is made and sent only for a caller with a connection |
| VideoCallRoomComponent.OfferEffectTwice | src/components/video/VideoCallRoom.jsx:54-60 | two renders in a row send at most one offer |
| VideoCallRoomComponent.VideoCallRoom.CreateOffer | src/components/video/VideoCallRoom.jsx:114-129 | without a connection nothing; otherwise the offer becomes the local description and is then sent; a closed connection rejects and nothing is sent |
| VideoCallRoomComponent.VideoCallRoom.HandleWebRTCSignal | src/components/video/VideoCallRoom.jsx:131-164 | ignored without a connection; an offer becomes remote, the answer local, and exactly one answer is sent; an answer only becomes remote; a candidate is applied; other types do nothing; a closed connection rejects the first step |
| VideoCallRoomComponent.SignalAfterCleanup | src/components/video/VideoCallRoom.jsx:198-205 | after cleanup the ref still holds the closed connection, and a signal then sends nothing |
| VideoCallRoomComponent.VideoCallRoom.OnLocalIceCandidate | src/components/video/VideoCallRoom.jsx:96-104 | each candidate is sent with the room id; the end-of-candidates event sends nothing |
| VideoCallRoomComponent.VideoCallRoom.OnTrack | src/components/video/VideoCallRoom.jsx:88-94 | a remote track reports connected |
| VideoCallRoomComponent.VideoCallRoom.OnConnectionStateChange | src/components/video/VideoCallRoom.jsx:106-111 | only `connected` is acted on; nothing reports a disconnection |
| VideoCallRoomComponent.VideoCallRoom.Tick | src/components/video/VideoCallRoom.jsx:42-44 | once mounted the duration grows on every tick, connected or not |
| VideoCallRoomComponent.VideoCallRoom.ToggleVideo | src/components/video/VideoCallRoom.jsx:173-181 | the first video track's `enabled` is flipped and mirrored into `isVideoOn`; with no stream or no video track nothing changes |
| VideoCallRoomComponent.VideoCallRoom.ToggleAudio | src/components/video/VideoCallRoom.jsx:183-191 | the first audio track's `enabled` is flipped and mirrored into `isAudioOn`; with no stream or no audio track nothing changes |
| VideoCallRoomComponent.VideoCallRoom.Cleanup | src/components/video/VideoCallRoom.jsx:198-205 | tracks stopped and connection closed, both refs kept |
| VideoCallRoomComponent.VideoCallRoom.OnCallEnded | src/components/video/VideoCallRoom.jsx:36-39 | once mounted, cleanup and a navigation to `/dashboard` |
| VideoCallRoomComponent.VideoCallRoom.HandleEndCall | src/components/video/VideoCallRoom.jsx:192-196 | cleanup, the provider's `endCall` guard, and a navigation to `/dashboard` |
| WebRTCServiceModule.ErrorMessage | src/services/webrtc.js:52-54 | the service's own error reads "Peer connection not initialized"; a media error keeps its message |
| WebRTCServiceModule.WebRTCService.constructor | src/services/webrtc.js:9-13 | all three fields null |
| WebRTCServiceModule.WebRTCService.GetUserMedia | src/services/webrtc.js:15-36 | success stores and returns the new stream; failure rethrows and the field keeps its previous value |
| WebRTCServiceModule.WebRTCService.CreatePeerConnection | src/services/webrtc.js:38-41 | a new open connection replaces the field and is returned |
| WebRTCServiceModule.WebRTCService.AddLocalStream | src/services/webrtc.js:43-49 | a no-op unless both stream and connection are set; otherwise each track is added once, in order |
| WebRTCServiceModule.WebRTCService.CreateOffer | src/services/webrtc.js:51-63 | "not initialized" without a connection; otherwise the offer becomes the local description and is returned |
| WebRTCServiceModule.WebRTCService.CreateAnswer | src/services/webrtc.js:65-82 | "not initialized" without a connection; otherwise the offer is applied as remote first, then the answer becomes local and is returned |
| WebRTCServiceModule.WebRTCService.HandleAnswer | src/services/webrtc.js:84-93 | "not initialized" without a connection; otherwise the answer becomes the remote description |
| WebRTCServiceModule.WebRTCService.AddIceCandidate | src/services/webrtc.js:95-107 | "not initialized" without a connection; otherwise the rebuilt candidate is applied |
| WebRTCServiceModule.WebRTCService.Cleanup | src/services/webrtc.js:109-121 | a present connection is closed and a present stream stopped; all three fields end null |
| WebRTCServiceModule.FreshServiceRefuses | src/services/webrtc.js:9-13 | on a new service each of the four negotiation steps it returns is the not-initialized error, whose message is "Peer connection not initialized", and two cleanups leave all fields null |
| WebRTCServiceModule.CallerSequence | src/services/webrtc.js:15-63 | media, connection, stream and offer in that order: the offer is the local description, and the connection sends exactly the stream's tracks |
| CallRoomPageModule.FallbackProfile | src/pages/CallRoomPage.jsx:55-61 | the record built from the Clerk user: its id, name `fullName` else `firstName` else "User", its image else a generated avatar, type "patient" |
| CallRoomPageModule.WithId | src/pages/CallRoomPage.jsx:47-50 | only the id is replaced |
| CallRoomPageModule.CurrentUserRecord | src/pages/CallRoomPage.jsx:42-62 | a loaded profile keeps a truthy `_id` and otherwise gets the Clerk id; no profile gives the fallback record |
| CallRoomPageModule.TargetFromCurrentCall | src/pages/CallRoomPage.jsx:69-76 | the called doctor, named "Doctor" when no name is known |
| CallRoomPageModule.TargetFromIncomingCall | src/pages/CallRoomPage.jsx:77-84 | the caller by `fromDbUserId`, else `fromUserId`; the type defaults to "patient" |
| CallRoomPageModule.TargetIdFromParts | src/pages/CallRoomPage.jsx:89-90 | the receiver when the current user is the initiator, the initiator otherwise |
| CallRoomPageModule.Placeholder | src/pages/CallRoomPage.jsx:107-112 | the "Participant" placeholder of type "unknown" carries the target id |
| CallRoomPageModule.RoomTarget | src/pages/CallRoomPage.jsx:93-113 | a looked-up doctor only for a 24-character id whose lookup returned a record; the placeholder otherwise |
| CallRoomPageModule.LoadErrors | src/pages/CallRoomPage.jsx:28-36 | a missing room id and a missing user give their errors first and record no user; every later outcome records the user |
| CallRoomPageModule.LoadTargetPrecedence | src/pages/CallRoomPage.jsx:69-117 | the current call wins, then the incoming call, then the room id, which fails exactly when it holds fewer than two `_` |
| CallRoomPageModule.LoadRoomTarget | src/pages/CallRoomPage.jsx:86-113 | a doctor is requested exactly for a 24-character id of the other party; otherwise the placeholder carries that id |
| CallRoomPageModule.RoomParticipantsSeeEachOther | src/pages/CallRoomPage.jsx:87-90 | in a room `prefix_initiator_receiver` each participant gets the other as target |
| CallRoomPageModule.CallRoomPage.constructor | src/pages/CallRoomPage.jsx:14-17 | no records, loading, no error |
| CallRoomPageModule.CallRoomPage.LoadCallData | src/pages/CallRoomPage.jsx:23-130 | the new state is the outcome of `Load`: an error keeps the previous target, a doctor request is logged only when made, and loading always ends |
| ConsultationsPage.Filtered | src/pages/ConsultationsPage.jsx:37-38 | the "all" filter returns the list unchanged |
| ConsultationsPage.WithStatusSpec | src/pages/ConsultationsPage.jsx:37-40 | any other filter keeps exactly the consultations with that status, in their original order, drawn from the list |
| ConsultationsPage.BadgeCountSpec | src/pages/ConsultationsPage.jsx:106 | a status badge counts what its filter shows, which is the number of occurrences of that status |
| ConsultationsPage.AllCount | src/pages/ConsultationsPage.jsx:96 | the "All" badge counts what the "all" filter shows |
| ConsultationsPage.BadgesWithinTotal | src/pages/ConsultationsPage.jsx:96-126 | the three status badges together never exceed the "All" badge |
| ConsultationsPage.StatusColor | src/pages/ConsultationsPage.jsx:42-55 | the four known statuses get their classes and anything else the gray default |
| ConsultationsPage.StatusColorDefault | src/pages/ConsultationsPage.jsx:42-55 | the gray default is given exactly to an unknown or missing status |
| UserList.HandleStartCall | src/components/user/UserList.jsx:9-21 | the connection is checked before presence; only a connected user calling an online target navigates, to exactly `/call/<_id>` |
| UserList.CallPathIdentifiesTarget | src/components/user/UserList.jsx:20 | two online targets are reached at the same path iff their ids agree |
| UserList.OnlineOfflinePartition | src/components/user/UserList.jsx:124-135 | online plus offline is the total, so neither exceeds it; online is the total iff every user is online |

## Left out

- Markup, dialogs and alerts are not modelled: JSX, every `Swal.fire`/`alert`, `handlePermissionError`, and `Swal.close`. A dialog's answer is a parameter. The `call-response` handler and the `user-not-available` handler only open dialogs, so they have no model.
- `debugInfo`, the `<video>` elements' `srcObject` and `play()` are not modelled. They are display state. A `play()` that fails twice in `startLocalVideo` is not modelled.
- The socket.io transport and the REST client are left out. Their outcomes are parameters or events. `registration-error` in the provider only logs, so it has no method.
- Timers are not modelled: `setInterval` becomes one `Tick` event, and the dialogs' 30/45-second timers are a dialog outcome. Async interleaving is also left out: every handler runs to completion before the next event.
- Platform rejections are modelled only for a closed connection. SDP contents, ICE semantics and `createOffer`/`createAnswer` options are left out, and the SDP text is a parameter.
- VideoCallComponent.VideoCall.InitiateCall: the registration wait loop polls a value captured at the click and never sees it change. The model stops after re-sending the registration.
- VideoCallRoomComponent.VideoCallRoom.RerunMountEffect: the effect's cleanup removes the `webrtc-signal` listener but not the `call-ended` one, so each re-run on the same socket adds another `call-ended` handler. The model keeps a single handler: the stacked handlers would each run the same cleanup and navigation.
- VideoCallComponent.VideoCall.HangupCall: the page's `onCallEnd` callback is counted in `callEnds`, not run.
- `VideoCall` without a socket (its first guard, an error log) is not modelled. The model assumes a socket is provided.
- Helpers.ParseCallRoomId: `parseInt` of the timestamp part is not applied, so the field keeps the part's text, and its NaN cases are left out.
- `generateAvatarUrl` and `encodeURIComponent` are modelled as an `Avatar` value (name and background). The URL text is not built.
- `debugMediaStream` and `checkWebRTCSupport` are left out: they are logging and browser feature detection. `formatDate` in the consultations page is left out: it is locale formatting.
- CallRoomPageModule.CallRoomPage.LoadCallData: the outer `catch` ("Failed to load call information") is not modelled, because each modelled step is total. The `getToken` token is not modelled either.
- `formatLastSeen`, imported by `UserCard.jsx`, is not defined in `helpers.js`. It is not part of this model.
- Rendering-only components and pages are not part of this model: ProfilePage, DashboardPage, DoctorsPage, IncomingCallModal, VideoControls, VideoStats, UserCard and the others.

## Findings

| source | as written | input that shows it | evidently intended | confidence | as-written member | corrected member |
|---|---|---|---|---|---|---|
| src/components/video/VideoCallRoom.jsx:11 | `isCaller` is read from `useSocket()`, but the provider's value object (src/context/SocketContext.jsx:207-219) has no such key, so it is always `undefined` and the offer effect at lines 54-60 never creates an offer | any room, with or without a connection: `OfferWanted(undefined, true)` is false | the caller's room creates and sends an offer once its connection exists | not executed | VideoCallRoomComponent.AsWrittenRoomNeverOffers | VideoCallRoomComponent.VideoCallRoom.OfferEffect |
