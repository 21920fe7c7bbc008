/** The first call component: one peer connection and one local media stream,
    driven by `calling` messages (offer, answer, candidate, bye, ready), by the
    user's buttons and by the connection's callbacks.

    The environment's answers are parameters: `media` is what `getUserMedia`
    would resolve or reject with, `sdp` the description text the platform would
    create, `confirmed` the user's answer to a dialog. Each handler runs to
    completion before the next event. */
module VideoCallComponent {
  import opened Js
  import opened Constants
  import opened Platform

  /** A message received on the `calling` event. */
  datatype CallingMessage = CallingMessage(msgType: string, fromUserId: string, sdp: string, candidate: IceCandidate)

  /** The payload of a `calling` message this component sends. */
  datatype Signal = OfferSignal(sdp: string) | AnswerSignal(sdp: string) | CandidateSignal(c: IceCandidate)
                  | ByeSignal | ReadySignal

  /** What the component emits on the socket. */
  datatype Emit =
    | SendCalling(targetUserId: string, signal: Signal)
    | SendCallResponse(targetUserId: string, accepted: bool)
    | SendRegisterUser(userId: string, userType: string, userName: JsStr)
    | SendInitiateCall(targetUserId: string, fromUserId: string, fromUserName: JsStr, fromUserType: string)

  /** Which set of callbacks the current connection was given: the caller's
      (made by `makeCall`) or the callee's (made by `handleOffer`). */
  datatype Side = CallerSide | CalleeSide

  /** The user fields the component reads. */
  datatype CallUser = CallUser(id: string, name: JsStr, userType: JsStr)

  /** The React state of the component other than the two refs and the log. */
  datatype Flags = Flags(isCallActive: bool, isAudioMuted: bool, isVideoMuted: bool,
                         connectionStatus: CallStatus, callDuration: nat,
                         socketConnected: bool, isUserRegistered: bool, callEnds: nat)

  /** The status after an `iceconnectionstatechange`: the caller's callback maps
      `connected` to CONNECTED and `disconnected`/`failed` to DISCONNECTED; the
      callee's maps only `connected`. Any other state keeps the status. */
  function StatusAfterIce(side: Side, state: IceState, status: CallStatus): CallStatus
  {
    if state == IceConnected then Connected
    else if side == CallerSide && (state == IceDisconnected || state == Failed) then Disconnected
    else status
  }

  /** The callee's callback never reports a disconnection: only the caller's
      can move the status to DISCONNECTED, and both agree on `connected`. */
  lemma StatusAfterIceRoles(state: IceState, status: CallStatus)
    ensures StatusAfterIce(CallerSide, state, status) == Connected <==> state == IceConnected || (status == Connected && state != IceDisconnected && state != Failed)
    ensures StatusAfterIce(CalleeSide, state, status) == (if state == IceConnected then Connected else status)
    ensures state != IceDisconnected && state != Failed ==>
              StatusAfterIce(CallerSide, state, status) == StatusAfterIce(CalleeSide, state, status)
  {
  }

  /** The duration timer runs only while the call is active and CONNECTED. */
  predicate TimerRuns(f: Flags) {
    f.isCallActive && f.connectionStatus == Connected
  }

  /** A stream `startLocalVideo` keeps: present with every track live. */
  predicate Reusable(s: MediaStream?)
    reads s
  {
    s != null && AllLive(s.tracks)
  }

  /** Media is available to a handler that acquires it only when missing:
      either a stream is present or the request succeeds. */
  predicate MediaReady(s: MediaStream?, media: MediaOutcome) {
    s != null || media.Granted?
  }

  /** True when `m` has one of the five types the dispatcher handles. */
  predicate KnownType(m: CallingMessage) {
    m.msgType in {"offer", "answer", "candidate", "bye", "ready"}
  }

  class VideoCall {
    const currentUser: CallUser
    const targetUser: CallUser
    var pc: PeerConnection?
    var side: Side
    var iceTarget: string
    var localStream: MediaStream?
    var isCallActive: bool
    var isAudioMuted: bool
    var isVideoMuted: bool
    var connectionStatus: CallStatus
    var callDuration: nat
    var socketConnected: bool
    var isUserRegistered: bool
    var callEnds: nat
    /** `socket.connected`, the transport's own flag, as opposed to the
        `socketConnected` state the component renders from. */
    var transportConnected: bool
    var outbox: seq<Emit>

    /** A connection held in the ref is never closed: closing it and clearing
        the ref happen together. */
    ghost predicate Valid()
      reads this, pc
    {
      pc != null ==> !pc.closed
    }

    function GetFlags(): Flags
      reads this
    {
      Flags(isCallActive, isAudioMuted, isVideoMuted, connectionStatus, callDuration,
            socketConnected, isUserRegistered, callEnds)
    }

    /** The registration payload for the current user. */
    function RegisterMessage(): Emit
      reads this
    {
      SendRegisterUser(currentUser.id, OrElse(currentUser.userType, "patient"), currentUser.name)
    }

    /** Mounting with a socket: no connection, no stream, an inactive
        DISCONNECTED call of length 0, the rendered flag copied from the
        transport, and the user registered at once when the transport is
        connected. */
    constructor (currentUser: CallUser, targetUser: CallUser, transportConnected: bool)
      ensures Valid() && pc == null && localStream == null
      ensures this.currentUser == currentUser && this.targetUser == targetUser
      ensures this.transportConnected == transportConnected
      ensures GetFlags() == Flags(false, false, false, Disconnected, 0, transportConnected, false, 0)
      ensures outbox == if transportConnected && currentUser.id != "" then [RegisterMessage()] else []
    {
      this.currentUser, this.targetUser := currentUser, targetUser;
      pc, side, iceTarget, localStream := null, CallerSide, "", null;
      isCallActive, isAudioMuted, isVideoMuted := false, false, false;
      connectionStatus, callDuration := Disconnected, 0;
      socketConnected, isUserRegistered, callEnds := transportConnected, false, 0;
      this.transportConnected := transportConnected;
      outbox := if transportConnected && currentUser.id != ""
                then [SendRegisterUser(currentUser.id, OrElse(currentUser.userType, "patient"), currentUser.name)]
                else [];
    }

    /** `registerUser`: only over a connected transport, for a user with an id
        who is not yet registered. */
    method RegisterUserIfNeeded()
      modifies this`outbox
      ensures outbox == old(outbox) +
                (if transportConnected && currentUser.id != "" && !isUserRegistered then [RegisterMessage()] else [])
    {
      if transportConnected && currentUser.id != "" && !isUserRegistered {
        outbox := outbox + [RegisterMessage()];
      }
    }

    /** The mount effect depends on `isUserRegistered`, so every change of that
        flag runs the old effect's cleanup (closing the connection and stopping
        the stream) and the effect again (copying the transport's flag and
        registering if needed). The call's other flags are left as they were. */
    method RerunEffect()
      modifies this`pc, this`localStream, this`socketConnected, this`outbox, pc, localStream
      ensures Valid() && pc == null && localStream == null
      ensures old(pc) != null ==> old(pc).closed
      ensures old(localStream) != null ==> old(localStream).tracks == Stopped(old(localStream.tracks))
      ensures socketConnected == transportConnected
      ensures outbox == old(outbox) +
                (if transportConnected && currentUser.id != "" && !isUserRegistered then [RegisterMessage()] else [])
    {
      Cleanup();
      socketConnected := transportConnected;
      RegisterUserIfNeeded();
    }

    /** `connect`: the flag is set and the user registered if needed. */
    method OnSocketConnect()
      modifies this`transportConnected, this`socketConnected, this`outbox
      ensures transportConnected && socketConnected
      ensures outbox == old(outbox) + (if currentUser.id != "" && !isUserRegistered then [RegisterMessage()] else [])
    {
      transportConnected, socketConnected := true, true;
      RegisterUserIfNeeded();
    }

    /** `disconnect` clears the connection and registration flags and reports
        DISCONNECTED. When the user was registered, the flag's change re-runs
        the effect, which closes the connection and stops the stream; otherwise
        both are left alone. Nothing is emitted. */
    method OnSocketDisconnect()
      modifies this`transportConnected, this`socketConnected, this`isUserRegistered, this`connectionStatus,
               this`pc, this`localStream, this`outbox, pc, localStream
      ensures !transportConnected && !socketConnected && !isUserRegistered && connectionStatus == Disconnected
      ensures outbox == old(outbox)
      ensures old(isUserRegistered) ==> pc == null && localStream == null && (old(pc) != null ==> old(pc).closed)
      ensures !old(isUserRegistered) ==>
                pc == old(pc) && localStream == old(localStream) &&
                (old(pc) != null ==> unchanged(old(pc))) && (old(localStream) != null ==> unchanged(old(localStream)))
    {
      var wasRegistered := isUserRegistered;
      transportConnected, socketConnected, isUserRegistered, connectionStatus := false, false, false, Disconnected;
      if wasRegistered {
        RerunEffect();
      }
    }

    /** `user-registered`. A first confirmation re-runs the effect: any
        connection and stream are torn down, and nothing is re-sent. A repeated
        confirmation changes nothing. */
    method OnUserRegistered()
      modifies this`isUserRegistered, this`pc, this`localStream, this`socketConnected, this`outbox, pc, localStream
      ensures isUserRegistered && outbox == old(outbox)
      ensures !old(isUserRegistered) ==>
                pc == null && localStream == null && socketConnected == transportConnected &&
                (old(pc) != null ==> old(pc).closed)
      ensures old(isUserRegistered) ==>
                unchanged(this) &&
                (old(pc) != null ==> unchanged(old(pc))) && (old(localStream) != null ==> unchanged(old(localStream)))
    {
      if !isUserRegistered {
        isUserRegistered := true;
        RerunEffect();
      }
    }

    /** `registration-error`. Losing a registration re-runs the effect, which
        tears the call's media down and registers again over a connected
        transport. */
    method OnRegistrationError()
      modifies this`isUserRegistered, this`pc, this`localStream, this`socketConnected, this`outbox, pc, localStream
      ensures !isUserRegistered
      ensures old(isUserRegistered) ==>
                pc == null && localStream == null && socketConnected == transportConnected &&
                (old(pc) != null ==> old(pc).closed) &&
                outbox == old(outbox) + (if transportConnected && currentUser.id != "" then [RegisterMessage()] else [])
      ensures !old(isUserRegistered) ==>
                unchanged(this) &&
                (old(pc) != null ==> unchanged(old(pc))) && (old(localStream) != null ==> unchanged(old(localStream)))
    {
      if isUserRegistered {
        isUserRegistered := false;
        RerunEffect();
      }
    }

    /** `call-failed` ends the call's flags but not its resources. */
    method OnCallFailed()
      modifies this`isCallActive, this`connectionStatus
      ensures !isCallActive && connectionStatus == Disconnected
    {
      isCallActive, connectionStatus := false, Disconnected;
    }

    /** A timer tick: the duration grows by one only while the call is active
        and CONNECTED. */
    method Tick()
      modifies this`callDuration
      ensures callDuration == old(callDuration) + (if TimerRuns(GetFlags()) then 1 else 0)
    {
      if isCallActive && connectionStatus == Connected {
        callDuration := callDuration + 1;
      }
    }

    /** `startLocalVideo`. A present stream whose tracks are all live is kept;
        any other present stream has its tracks stopped and is dropped before a
        new one is requested. Failure leaves no stream. */
    method StartLocalVideo(media: MediaOutcome) returns (started: bool)
      modifies this`localStream, localStream
      ensures old(Reusable(localStream)) ==>
                started && localStream == old(localStream) && localStream.tracks == old(localStream.tracks)
      ensures !old(Reusable(localStream)) ==>
                started == media.Granted? &&
                (started ==> fresh(localStream) && localStream.tracks == media.tracks) &&
                (!started ==> localStream == null)
      ensures old(localStream) != null && !old(Reusable(localStream)) ==>
                old(localStream).tracks == Stopped(old(localStream.tracks))
    {
      if localStream != null {
        var live := localStream.EveryTrackLive();
        if live {
          return true;
        }
        localStream.StopTracks();
        localStream := null;
      }
      match media {
        case Granted(tracks) =>
          localStream := new MediaStream(tracks);
          started := true;
        case Refused(_) =>
          started := false;
      }
    }

    /** `handleSocketMessage`: dispatch on the message type. */
    method HandleSocketMessage(m: CallingMessage, media: MediaOutcome, sdp: string)
      requires Valid()
      modifies this, pc, localStream
      ensures Valid()
      // A ready message with a connection present, and an offer with a
      // connection present, change nothing.
      ensures (m.msgType == "ready" || m.msgType == "offer") && old(pc) != null ==>
                unchanged(this) && unchanged(old(pc)) && (old(localStream) != null ==> unchanged(old(localStream)))
      // An answer or candidate without a connection is dropped, not queued.
      ensures (m.msgType == "answer" || m.msgType == "candidate") && old(pc) == null ==>
                unchanged(this) && (old(localStream) != null ==> unchanged(old(localStream)))
      // Unknown types change nothing.
      ensures !KnownType(m) ==>
                unchanged(this) && (old(pc) != null ==> unchanged(old(pc))) &&
                (old(localStream) != null ==> unchanged(old(localStream)))
      // Ready without a connection starts the caller's side of the call.
      ensures m.msgType == "ready" && old(pc) == null ==>
                (MediaReady(old(localStream), media) <==> pc != null) &&
                (pc != null ==>
                   fresh(pc) && side == CallerSide && iceTarget == targetUser.id &&
                   pc.localDescription == Some(SessionDescription(OfferSdp, sdp)) &&
                   pc.remoteDescription == None && localStream != null && pc.senders == Ids(localStream.tracks) &&
                   outbox == old(outbox) + [SendCalling(targetUser.id, OfferSignal(sdp))]) &&
                (pc == null ==> localStream == null && outbox == old(outbox)) &&
                GetFlags() == old(GetFlags())
      // An offer without a connection is answered.
      ensures m.msgType == "offer" && old(pc) == null ==>
                (MediaReady(old(localStream), media) <==> pc != null) &&
                (pc != null ==>
                   fresh(pc) && side == CalleeSide && iceTarget == m.fromUserId &&
                   pc.remoteDescription == Some(SessionDescription(OfferSdp, m.sdp)) &&
                   pc.localDescription == Some(SessionDescription(AnswerSdp, sdp)) &&
                   localStream != null && pc.senders == Ids(localStream.tracks) &&
                   outbox == old(outbox) + [SendCalling(m.fromUserId, AnswerSignal(sdp))]) &&
                (pc == null ==> localStream == null && outbox == old(outbox)) &&
                GetFlags() == old(GetFlags())
      // An answer or candidate with a connection is applied to it.
      ensures m.msgType == "answer" && old(pc) != null ==>
                pc == old(pc) && pc.remoteDescription == Some(SessionDescription(AnswerSdp, m.sdp)) &&
                pc.localDescription == old(pc.localDescription) && pc.remoteCandidates == old(pc.remoteCandidates) &&
                outbox == old(outbox) && GetFlags() == old(GetFlags())
      ensures m.msgType == "candidate" && old(pc) != null ==>
                pc == old(pc) && pc.remoteCandidates == old(pc.remoteCandidates) + [m.candidate] &&
                pc.remoteDescription == old(pc.remoteDescription) && pc.localDescription == old(pc.localDescription) &&
                outbox == old(outbox) && GetFlags() == old(GetFlags())
      // Bye hangs up.
      ensures m.msgType == "bye" ==>
                pc == null && localStream == null && outbox == old(outbox) &&
                (old(pc) != null ==> old(pc).closed) &&
                (old(localStream) != null ==> old(localStream).tracks == Stopped(old(localStream.tracks))) &&
                GetFlags() == old(GetFlags()).(isCallActive := false, connectionStatus := Disconnected,
                                               callDuration := 0, callEnds := old(callEnds) + 1)
    {
      if m.msgType == "offer" {
        HandleOffer(m, media, sdp);
      } else if m.msgType == "answer" {
        HandleAnswer(m);
      } else if m.msgType == "candidate" {
        HandleCandidate(m);
      } else if m.msgType == "bye" {
        HangupCall();
      } else if m.msgType == "ready" {
        if pc == null {
          MakeCall(media, sdp);
        }
      }
    }

    /** `makeCall`: acquire media if there is none, then create the caller's
        connection, add every local track, set the offer as the local
        description and send it to the target. */
    method MakeCall(media: MediaOutcome, offerSdp: string)
      requires Valid()
      modifies this`pc, this`side, this`iceTarget, this`localStream, this`outbox, localStream
      ensures Valid()
      ensures old(localStream) != null ==> localStream == old(localStream) && localStream.tracks == old(localStream.tracks)
      ensures !MediaReady(old(localStream), media) ==>
                pc == old(pc) && localStream == null && outbox == old(outbox)
      ensures MediaReady(old(localStream), media) ==>
                fresh(pc) && side == CallerSide && iceTarget == targetUser.id &&
                (old(localStream) == null ==> fresh(localStream) && localStream.tracks == media.tracks) &&
                pc.senders == Ids(localStream.tracks) && !pc.closed &&
                pc.localDescription == Some(SessionDescription(OfferSdp, offerSdp)) &&
                pc.remoteDescription == None && pc.remoteCandidates == [] &&
                outbox == old(outbox) + [SendCalling(targetUser.id, OfferSignal(offerSdp))]
    {
      if localStream == null {
        var started := StartLocalVideo(media);
        if !started {
          return;
        }
      }
      var conn := new PeerConnection();
      pc, side, iceTarget := conn, CallerSide, targetUser.id;
      AddStreamTracks(conn, localStream);
      var _ := conn.SetLocalDescription(SessionDescription(OfferSdp, offerSdp));
      outbox := outbox + [SendCalling(targetUser.id, OfferSignal(offerSdp))];
    }

    /** `handleOffer`: ignored while a connection exists; otherwise acquire
        media if there is none, create the callee's connection, add every local
        track, apply the offer, set the answer as the local description and send
        it back to the offer's sender. */
    method HandleOffer(m: CallingMessage, media: MediaOutcome, answerSdp: string)
      requires Valid()
      modifies this`pc, this`side, this`iceTarget, this`localStream, this`outbox, localStream
      ensures Valid()
      ensures old(pc) != null ==> unchanged(this) && (old(localStream) != null ==> unchanged(old(localStream)))
      ensures old(pc) == null && old(localStream) != null ==>
                localStream == old(localStream) && localStream.tracks == old(localStream.tracks)
      ensures old(pc) == null && !MediaReady(old(localStream), media) ==>
                pc == null && localStream == null && outbox == old(outbox)
      ensures old(pc) == null && MediaReady(old(localStream), media) ==>
                fresh(pc) && side == CalleeSide && iceTarget == m.fromUserId &&
                (old(localStream) == null ==> fresh(localStream) && localStream.tracks == media.tracks) &&
                pc.senders == Ids(localStream.tracks) && !pc.closed &&
                pc.remoteDescription == Some(SessionDescription(OfferSdp, m.sdp)) &&
                pc.localDescription == Some(SessionDescription(AnswerSdp, answerSdp)) &&
                pc.remoteCandidates == [] &&
                outbox == old(outbox) + [SendCalling(m.fromUserId, AnswerSignal(answerSdp))]
    {
      if pc != null {
        return;
      }
      if localStream == null {
        var started := StartLocalVideo(media);
        if !started {
          return;
        }
      }
      var conn := new PeerConnection();
      pc, side, iceTarget := conn, CalleeSide, m.fromUserId;
      AddStreamTracks(conn, localStream);
      var _ := conn.SetRemoteDescription(SessionDescription(OfferSdp, m.sdp));
      var _ := conn.SetLocalDescription(SessionDescription(AnswerSdp, answerSdp));
      outbox := outbox + [SendCalling(m.fromUserId, AnswerSignal(answerSdp))];
    }

    /** `handleAnswer`: dropped without a connection, otherwise the answer
        becomes the remote description. */
    method HandleAnswer(m: CallingMessage)
      requires Valid()
      modifies pc
      ensures Valid()
      ensures pc != null ==>
                pc.remoteDescription == Some(SessionDescription(AnswerSdp, m.sdp)) &&
                pc.localDescription == old(pc.localDescription) && pc.senders == old(pc.senders) &&
                pc.remoteCandidates == old(pc.remoteCandidates) && !pc.closed
    {
      if pc == null {
        return;
      }
      var _ := pc.SetRemoteDescription(SessionDescription(AnswerSdp, m.sdp));
    }

    /** `handleCandidate`: dropped without a connection (early candidates are
        not buffered), otherwise applied to it. */
    method HandleCandidate(m: CallingMessage)
      requires Valid()
      modifies pc
      ensures Valid()
      ensures pc != null ==>
                pc.remoteCandidates == old(pc.remoteCandidates) + [m.candidate] &&
                pc.localDescription == old(pc.localDescription) && pc.senders == old(pc.senders) &&
                pc.remoteDescription == old(pc.remoteDescription) && !pc.closed
    {
      if pc == null {
        return;
      }
      var _ := pc.AddIceCandidate(m.candidate);
    }

    /** `cleanup`: close and drop the connection, stop and drop the stream; each
        only when present, so a second cleanup changes nothing. */
    method Cleanup()
      modifies this`pc, this`localStream, pc, localStream
      ensures Valid() && pc == null && localStream == null
      ensures old(pc) != null ==>
                old(pc).closed && old(pc).senders == old(pc.senders) &&
                old(pc).localDescription == old(pc.localDescription) &&
                old(pc).remoteDescription == old(pc.remoteDescription)
      ensures old(localStream) != null ==> old(localStream).tracks == Stopped(old(localStream.tracks))
    {
      if pc != null {
        pc.Close();
        pc := null;
      }
      if localStream != null {
        localStream.StopTracks();
        localStream := null;
      }
    }

    /** `hangupCall`: clean up, then an inactive DISCONNECTED call of length 0,
        and the page's `onCallEnd` runs once more. */
    method HangupCall()
      modifies this`pc, this`localStream, this`isCallActive, this`connectionStatus, this`callDuration,
               this`callEnds, pc, localStream
      ensures Valid() && pc == null && localStream == null
      ensures old(pc) != null ==> old(pc).closed
      ensures old(localStream) != null ==> old(localStream).tracks == Stopped(old(localStream.tracks))
      ensures GetFlags() == old(GetFlags()).(isCallActive := false, connectionStatus := Disconnected,
                                             callDuration := 0, callEnds := old(callEnds) + 1)
    {
      Cleanup();
      isCallActive, connectionStatus, callDuration := false, Disconnected, 0;
      callEnds := callEnds + 1;
    }

    /** `endCall`: when the user confirms, say bye to the target and hang up;
        otherwise nothing happens. */
    method EndCall(confirmed: bool)
      modifies this`pc, this`localStream, this`isCallActive, this`connectionStatus, this`callDuration,
               this`callEnds, this`outbox, pc, localStream
      ensures !confirmed ==>
                unchanged(this) && (old(pc) != null ==> unchanged(old(pc))) &&
                (old(localStream) != null ==> unchanged(old(localStream)))
      ensures confirmed ==>
                outbox == old(outbox) + [SendCalling(targetUser.id, ByeSignal)] &&
                Valid() && pc == null && localStream == null &&
                (old(pc) != null ==> old(pc).closed) &&
                GetFlags() == old(GetFlags()).(isCallActive := false, connectionStatus := Disconnected,
                                               callDuration := 0, callEnds := old(callEnds) + 1)
    {
      if confirmed {
        outbox := outbox + [SendCalling(targetUser.id, ByeSignal)];
        HangupCall();
      }
    }

    /** `toggleAudio`: with a stream, flip every audio track and the muted
        flag; without one, nothing. */
    method ToggleAudio()
      modifies this`isAudioMuted, localStream
      ensures localStream == null ==> isAudioMuted == old(isAudioMuted)
      ensures localStream != null ==>
                localStream.tracks == Toggled(old(localStream.tracks), Audio) && isAudioMuted == !old(isAudioMuted)
    {
      if localStream != null {
        localStream.ToggleKind(Audio);
        isAudioMuted := !isAudioMuted;
      }
    }

    /** `toggleVideo`: with a stream, flip every video track and the muted
        flag; without one, nothing. */
    method ToggleVideo()
      modifies this`isVideoMuted, localStream
      ensures localStream == null ==> isVideoMuted == old(isVideoMuted)
      ensures localStream != null ==>
                localStream.tracks == Toggled(old(localStream.tracks), Video) && isVideoMuted == !old(isVideoMuted)
    {
      if localStream != null {
        localStream.ToggleKind(Video);
        isVideoMuted := !isVideoMuted;
      }
    }

    /** `initiateCall`. Without a connected transport nothing happens. An
        unregistered user re-sends the registration and then waits on a flag
        captured at the click, which stays false, so the call goes no further.
        Otherwise media is acquired (failure ends here) and the call becomes an
        active CONNECTING call of length 0, announced with `initiate-call`. */
    method InitiateCall(media: MediaOutcome)
      modifies this`localStream, this`isCallActive, this`connectionStatus, this`callDuration, this`outbox,
               localStream
      ensures !transportConnected ==>
                unchanged(this) && (old(localStream) != null ==> unchanged(old(localStream)))
      ensures transportConnected && !isUserRegistered ==>
                outbox == old(outbox) + [RegisterMessage()] && localStream == old(localStream) &&
                GetFlags() == old(GetFlags()) &&
                (old(localStream) != null ==> unchanged(old(localStream)))
      ensures transportConnected && isUserRegistered && !(old(Reusable(localStream)) || media.Granted?) ==>
                localStream == null && outbox == old(outbox) && GetFlags() == old(GetFlags())
      ensures transportConnected && isUserRegistered && (old(Reusable(localStream)) || media.Granted?) ==>
                localStream != null && isCallActive && connectionStatus == Connecting && callDuration == 0 &&
                outbox == old(outbox) + [SendInitiateCall(targetUser.id, currentUser.id, currentUser.name,
                                                      OrElse(currentUser.userType, "patient"))]
    {
      if !transportConnected {
        return;
      }
      if !isUserRegistered {
        outbox := outbox + [RegisterMessage()];
        return;
      }
      var started := StartLocalVideo(media);
      if !started {
        return;
      }
      isCallActive, connectionStatus, callDuration := true, Connecting, 0;
      outbox := outbox + [SendInitiateCall(targetUser.id, currentUser.id, currentUser.name,
                                       OrElse(currentUser.userType, "patient"))];
    }

    /** The outcome of the "Calling ..." dialog `initiateCall` opens: the
        cancel button or its timeout hangs up; being closed by the call getting
        through does not. */
    method OnCallingDialogClosed(cancelledOrTimedOut: bool)
      modifies this`pc, this`localStream, this`isCallActive, this`connectionStatus, this`callDuration,
               this`callEnds, pc, localStream
      ensures !cancelledOrTimedOut ==>
                unchanged(this) && (old(pc) != null ==> unchanged(old(pc))) &&
                (old(localStream) != null ==> unchanged(old(localStream)))
      ensures cancelledOrTimedOut ==>
                Valid() && pc == null && localStream == null && (old(pc) != null ==> old(pc).closed) &&
                GetFlags() == old(GetFlags()).(isCallActive := false, connectionStatus := Disconnected,
                                               callDuration := 0, callEnds := old(callEnds) + 1)
    {
      if cancelledOrTimedOut {
        HangupCall();
      }
    }

    /** `acceptCall`: acquire media if there is none (failure ends here), then
        an active CONNECTING call of length 0, an accepting `call-response` and
        a `ready` message to the caller, in that order. No connection is made
        here: the caller's offer creates it. */
    method AcceptCall(fromUserId: string, media: MediaOutcome)
      modifies this`localStream, this`isCallActive, this`connectionStatus, this`callDuration, this`outbox
      ensures !MediaReady(old(localStream), media) ==>
                localStream == null && outbox == old(outbox) && GetFlags() == old(GetFlags())
      ensures MediaReady(old(localStream), media) ==>
                (old(localStream) != null ==> localStream == old(localStream)) &&
                (old(localStream) == null ==> fresh(localStream) && localStream.tracks == media.tracks) &&
                isCallActive && connectionStatus == Connecting && callDuration == 0 &&
                outbox == old(outbox) + [SendCallResponse(fromUserId, true), SendCalling(fromUserId, ReadySignal)]
    {
      if localStream == null {
        var started := StartLocalVideo(media);
        if !started {
          return;
        }
      }
      isCallActive, connectionStatus, callDuration := true, Connecting, 0;
      outbox := outbox + [SendCallResponse(fromUserId, true), SendCalling(fromUserId, ReadySignal)];
    }

    /** `rejectCall`: a declining `call-response` and nothing else. */
    method RejectCall(fromUserId: string)
      modifies this`outbox
      ensures outbox == old(outbox) + [SendCallResponse(fromUserId, false)]
    {
      outbox := outbox + [SendCallResponse(fromUserId, false)];
    }

    /** `handleIncomingCall`: on accept, media is started and, if that works,
        the call is accepted; on decline or timeout it is rejected. */
    method HandleIncomingCall(fromUserId: string, confirmed: bool, media: MediaOutcome)
      modifies this`localStream, this`isCallActive, this`connectionStatus, this`callDuration, this`outbox,
               localStream
      ensures !confirmed ==>
                outbox == old(outbox) + [SendCallResponse(fromUserId, false)] &&
                localStream == old(localStream) && GetFlags() == old(GetFlags())
      ensures confirmed && !(old(Reusable(localStream)) || media.Granted?) ==>
                localStream == null && outbox == old(outbox) && GetFlags() == old(GetFlags())
      ensures confirmed && (old(Reusable(localStream)) || media.Granted?) ==>
                localStream != null && isCallActive && connectionStatus == Connecting && callDuration == 0 &&
                outbox == old(outbox) + [SendCallResponse(fromUserId, true), SendCalling(fromUserId, ReadySignal)]
    {
      if confirmed {
        var started := StartLocalVideo(media);
        if started {
          AcceptCall(fromUserId, media);
        }
      } else {
        RejectCall(fromUserId);
      }
    }

    /** The connection's `icecandidate` callback: a candidate goes to the peer
        the connection was made for; the end-of-candidates event sends nothing. */
    method OnLocalIceCandidate(c: Option<IceCandidate>)
      requires pc != null
      modifies this`outbox
      ensures outbox == old(outbox) + (if c.Some? then [SendCalling(iceTarget, CandidateSignal(c.value))] else [])
    {
      if c.Some? {
        outbox := outbox + [SendCalling(iceTarget, CandidateSignal(c.value))];
      }
    }

    /** The connection's `iceconnectionstatechange` callback, by side. */
    method OnIceConnectionStateChange(state: IceState)
      requires pc != null
      modifies this`connectionStatus
      ensures connectionStatus == StatusAfterIce(side, state, old(connectionStatus))
    {
      if state == IceConnected {
        connectionStatus := Connected;
      } else if side == CallerSide && (state == IceDisconnected || state == Failed) {
        connectionStatus := Disconnected;
      }
    }
  }

  /** Hanging up twice is harmless: the second hangup closes and stops nothing
      new and leaves the same flags. */
  method HangupTwice(v: VideoCall)
    modifies v`pc, v`localStream, v`isCallActive, v`connectionStatus, v`callDuration, v`callEnds, v.pc, v.localStream
    ensures v.pc == null && v.localStream == null && v.Valid()
    ensures old(v.pc) != null ==> old(v.pc).closed
    ensures v.GetFlags() == old(v.GetFlags()).(isCallActive := false, connectionStatus := Disconnected,
                                               callDuration := 0, callEnds := old(v.callEnds) + 2)
  {
    v.HangupCall();
    var afterFirst := v.GetFlags();
    v.HangupCall();
    assert v.GetFlags() == afterFirst.(callEnds := afterFirst.callEnds + 1);
  }
}
