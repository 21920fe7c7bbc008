/** The second call component, the video room at `/video-call/:roomId`. On
    mount it acquires media and only then creates its peer connection; the
    caller's offer is made by an effect that watches the connection ref; every
    `webrtc-signal` is handled against the connection in the ref. Its cleanup
    stops and closes but keeps both refs. */
module VideoCallRoomComponent {
  import opened Js
  import opened Platform
  import Helpers
  import SocketContext

  /** The `webrtc-signal` payload: the signal's type and its description or
      candidate, as the relay forwards them. */
  datatype RoomMessage = RoomMessage(msgType: string, description: SessionDescription, candidate: IceCandidate)

  datatype RoomSignal = RoomOffer(offer: SessionDescription) | RoomAnswer(answer: SessionDescription)
                      | RoomIceCandidate(c: IceCandidate)

  /** What the room emits: `webrtc-signal` with its room id. */
  datatype RoomEmit = WebRtcSignal(roomId: JsStr, signal: RoomSignal)

  /** `useSocket().isCaller` as the provider is written: the provider's value
      object has no `isCaller` key, so the component reads `undefined`. */
  const ProvidedIsCaller: Option<bool> := None

  /** The offer effect's test `isCaller && peerConnectionRef.current`. */
  predicate OfferWanted(isCaller: Option<bool>, hasConnection: bool) {
    isCaller == Some(true) && hasConnection
  }

  /** As written, no room ever creates an offer, whatever its connection:
      `isCaller` is always `undefined`. */
  lemma AsWrittenRoomNeverOffers(hasConnection: bool)
    ensures !OfferWanted(ProvidedIsCaller, hasConnection)
    ensures OfferWanted(Some(true), hasConnection) <==> hasConnection
  {
  }

  /** The room's own `formatDuration` is the same text as the shared helper:
      the minutes `floor(s / 60)` and the seconds `s % 60`, each written in
      decimal and zero-padded to two characters, joined by a colon. Reading
      the two parts back gives `s`, and the seconds part is below 60. */
  lemma FormatDurationParts(seconds: nat)
    ensures var r := Helpers.FormatDuration(seconds);
      |r| >= 5 &&
      var minutes, secs := r[..|r| - 3], r[|r| - 2..];
      r == minutes + ":" + secs &&
      |secs| == 2 && Helpers.DecimalValue(secs) == seconds % 60 < 60 &&
      Helpers.DecimalValue(minutes) == seconds / 60 &&
      Helpers.DecimalValue(minutes) * 60 + Helpers.DecimalValue(secs) == seconds
  {
    Helpers.FormatDurationSpec(seconds);
    var r := Helpers.FormatDuration(seconds);
    assert r == r[..|r| - 3] + ":" + r[|r| - 2..];
  }

  class VideoCallRoom {
    var roomId: JsStr
    var hasSocket: bool
    /** The component's `isCaller`, whatever the context supplies. */
    const isCaller: Option<bool>
    var peerConnection: PeerConnection?
    var localStream: MediaStream?
    var isVideoOn: bool
    var isAudioOn: bool
    var isConnected: bool
    var callDuration: nat
    /** Whether the mount effect went past its guard (and so set the timer
        and the `call-ended` listener). */
    var mounted: bool
    /** The connection ref's value when the offer effect last ran: the effect
        runs again only when it differs. */
    var offerEffectSeen: PeerConnection?
    var outbox: seq<RoomEmit>
    var navigations: seq<string>

    /** The first render: both refs empty, video and audio on, not connected,
        duration 0. The offer effect's first run sees no connection. */
    constructor (roomId: JsStr, hasSocket: bool, isCaller: Option<bool>)
      ensures this.roomId == roomId && this.hasSocket == hasSocket && this.isCaller == isCaller
      ensures peerConnection == null && localStream == null && offerEffectSeen == null
      ensures isVideoOn && isAudioOn && !isConnected && callDuration == 0 && !mounted
      ensures outbox == [] && navigations == []
    {
      this.roomId, this.hasSocket, this.isCaller := roomId, hasSocket, isCaller;
      peerConnection, localStream, offerEffectSeen := null, null, null;
      isVideoOn, isAudioOn, isConnected, callDuration, mounted := true, true, false, 0, false;
      outbox, navigations := [], [];
    }

    /** The mount effect: nothing without a socket or a room id; otherwise
        `setupMedia` and the timer. A refused `getUserMedia` leaves both refs
        as they were. */
    method Mount(media: MediaOutcome)
      modifies this`peerConnection, this`localStream, this`mounted
      ensures mounted == (hasSocket && Truthy(roomId))
      ensures !mounted || media.Refused? ==> peerConnection == old(peerConnection) && localStream == old(localStream)
      ensures mounted && media.Granted? ==>
                fresh(peerConnection) && fresh(localStream) && localStream.tracks == media.tracks &&
                peerConnection.senders == Ids(media.tracks) && !peerConnection.closed &&
                peerConnection.localDescription == None && peerConnection.remoteDescription == None
      ensures old(peerConnection) == null && old(localStream) == null ==>
                (peerConnection != null <==> mounted && media.Granted?) &&
                (localStream != null <==> mounted && media.Granted?)
    {
      mounted := hasSocket && Truthy(roomId);
      if !mounted {
        return;
      }
      SetupMedia(media);
    }

    /** `setupMedia`: the connection is created only after media was
        acquired; on failure neither ref is touched. */
    method SetupMedia(media: MediaOutcome)
      modifies this`peerConnection, this`localStream
      ensures media.Refused? ==> peerConnection == old(peerConnection) && localStream == old(localStream)
      ensures media.Granted? ==>
                fresh(peerConnection) && fresh(localStream) && localStream.tracks == media.tracks &&
                peerConnection.senders == Ids(media.tracks) && !peerConnection.closed &&
                peerConnection.localDescription == None && peerConnection.remoteDescription == None &&
                peerConnection.remoteCandidates == []
    {
      match media {
        case Granted(tracks) =>
          localStream := new MediaStream(tracks);
          CreatePeerConnection();
        case Refused(_) =>
      }
    }

    /** A change of `socket` or `roomId`: the previous run's cleanup (when
        that run got past its guard) stops the stream and closes the
        connection but keeps both refs, then the effect runs again. When the
        new `getUserMedia` is refused, the refs still hold the stopped stream
        and the closed connection. */
    method RerunMountEffect(newHasSocket: bool, newRoomId: JsStr, media: MediaOutcome)
      modifies this`hasSocket, this`roomId, this`peerConnection, this`localStream, this`mounted
      modifies localStream, peerConnection
      ensures hasSocket == newHasSocket && roomId == newRoomId
      ensures mounted == (newHasSocket && Truthy(newRoomId))
      ensures old(mounted) && old(localStream) != null ==> old(localStream).tracks == Stopped(old(localStream.tracks))
      ensures old(mounted) && old(peerConnection) != null ==>
                old(peerConnection).closed && old(peerConnection).senders == old(peerConnection.senders)
      ensures !old(mounted) && old(localStream) != null ==> unchanged(old(localStream))
      ensures !old(mounted) && old(peerConnection) != null ==> unchanged(old(peerConnection))
      ensures !mounted || media.Refused? ==> peerConnection == old(peerConnection) && localStream == old(localStream)
      ensures old(mounted) && old(peerConnection) != null && media.Refused? ==> peerConnection.closed
      ensures mounted && media.Granted? ==>
                fresh(peerConnection) && fresh(localStream) && localStream.tracks == media.tracks &&
                peerConnection.senders == Ids(media.tracks) && !peerConnection.closed
    {
      if mounted {
        Cleanup();
      }
      hasSocket, roomId := newHasSocket, newRoomId;
      Mount(media);
    }

    /** `createPeerConnection`: a new connection carrying every track of the
        stream when there is one. */
    method CreatePeerConnection()
      modifies this`peerConnection
      ensures fresh(peerConnection) && !peerConnection.closed
      ensures peerConnection.senders == if localStream != null then Ids(localStream.tracks) else []
      ensures peerConnection.localDescription == None && peerConnection.remoteDescription == None
      ensures peerConnection.remoteCandidates == []
    {
      var pc := new PeerConnection();
      peerConnection := pc;
      if localStream != null {
        AddStreamTracks(pc, localStream);
      }
    }

    /** The offer effect, run on a render: it runs only when the connection
        ref differs from what it last saw, and then creates an offer only for a
        caller with a connection. */
    method OfferEffect(offerSdp: string)
      modifies this`offerEffectSeen, this`outbox, peerConnection
      ensures offerEffectSeen == peerConnection
      ensures var runs := peerConnection != old(offerEffectSeen) && OfferWanted(isCaller, peerConnection != null);
        (runs && !old(peerConnection.closed) ==>
           peerConnection.localDescription == Some(SessionDescription(OfferSdp, offerSdp)) &&
           outbox == old(outbox) + [WebRtcSignal(roomId, RoomOffer(SessionDescription(OfferSdp, offerSdp)))]) &&
        (!runs || old(peerConnection.closed) ==>
           outbox == old(outbox) &&
           (peerConnection != null ==> peerConnection.localDescription == old(peerConnection.localDescription)))
      ensures peerConnection != null ==>
                peerConnection.remoteDescription == old(peerConnection.remoteDescription) &&
                peerConnection.senders == old(peerConnection.senders) && peerConnection.closed == old(peerConnection.closed)
    {
      if peerConnection != offerEffectSeen {
        offerEffectSeen := peerConnection;
        if isCaller == Some(true) && peerConnection != null {
          CreateOffer(offerSdp);
        }
      }
    }

    /** `createOffer`: the offer becomes the local description, then it is
        sent. A closed connection rejects, and nothing is sent. */
    method CreateOffer(offerSdp: string)
      modifies this`outbox, peerConnection
      ensures peerConnection == null ==> outbox == old(outbox)
      ensures peerConnection != null ==>
                peerConnection.closed == old(peerConnection.closed) &&
                peerConnection.senders == old(peerConnection.senders) &&
                peerConnection.remoteDescription == old(peerConnection.remoteDescription) &&
                peerConnection.localDescription ==
                  (if old(peerConnection.closed) then old(peerConnection.localDescription)
                   else Some(SessionDescription(OfferSdp, offerSdp))) &&
                outbox == old(outbox) +
                  (if old(peerConnection.closed) then []
                   else [WebRtcSignal(roomId, RoomOffer(SessionDescription(OfferSdp, offerSdp)))])
    {
      if peerConnection == null {
        return;
      }
      var offer := SessionDescription(OfferSdp, offerSdp);
      var ok := peerConnection.SetLocalDescription(offer);
      if ok {
        outbox := outbox + [WebRtcSignal(roomId, RoomOffer(offer))];
      }
    }

    /** `handleWebRTCSignal`. Without a connection every signal is ignored. An
        offer is applied as the remote description, then the answer as the
        local one, then exactly one answer is sent; an answer only becomes the
        remote description; a candidate is applied; anything else does
        nothing. A closed connection rejects the first step and nothing
        follows. */
    method HandleWebRTCSignal(m: RoomMessage, answerSdp: string)
      modifies this`outbox, peerConnection
      ensures peerConnection == null ==> outbox == old(outbox)
      ensures peerConnection != null && old(peerConnection.closed) ==>
                unchanged(peerConnection) && outbox == old(outbox)
      ensures peerConnection != null && !old(peerConnection.closed) ==>
                !peerConnection.closed && peerConnection.senders == old(peerConnection.senders) &&
                (m.msgType == "offer" ==>
                   peerConnection.remoteDescription == Some(m.description) &&
                   peerConnection.localDescription == Some(SessionDescription(AnswerSdp, answerSdp)) &&
                   peerConnection.remoteCandidates == old(peerConnection.remoteCandidates) &&
                   outbox == old(outbox) + [WebRtcSignal(roomId, RoomAnswer(SessionDescription(AnswerSdp, answerSdp)))]) &&
                (m.msgType == "answer" ==>
                   peerConnection.remoteDescription == Some(m.description) &&
                   peerConnection.localDescription == old(peerConnection.localDescription) &&
                   peerConnection.remoteCandidates == old(peerConnection.remoteCandidates) &&
                   outbox == old(outbox)) &&
                (m.msgType == "ice-candidate" ==>
                   peerConnection.remoteCandidates == old(peerConnection.remoteCandidates) + [m.candidate] &&
                   peerConnection.localDescription == old(peerConnection.localDescription) &&
                   peerConnection.remoteDescription == old(peerConnection.remoteDescription) &&
                   outbox == old(outbox)) &&
                (m.msgType !in {"offer", "answer", "ice-candidate"} ==>
                   unchanged(peerConnection) && outbox == old(outbox))
    {
      var pc := peerConnection;
      if pc == null {
        return;
      }
      if m.msgType == "offer" {
        var ok := pc.SetRemoteDescription(m.description);
        if !ok {
          return;
        }
        var answer := SessionDescription(AnswerSdp, answerSdp);
        ok := pc.SetLocalDescription(answer);
        if !ok {
          return;
        }
        outbox := outbox + [WebRtcSignal(roomId, RoomAnswer(answer))];
      } else if m.msgType == "answer" {
        var _ := pc.SetRemoteDescription(m.description);
      } else if m.msgType == "ice-candidate" {
        var _ := pc.AddIceCandidate(m.candidate);
      }
    }

    /** The connection's `icecandidate` callback: each candidate is sent with
        the room id; the end-of-candidates event sends nothing. */
    method OnLocalIceCandidate(c: Option<IceCandidate>)
      modifies this`outbox
      ensures outbox == old(outbox) + (if c.Some? then [WebRtcSignal(roomId, RoomIceCandidate(c.value))] else [])
    {
      if c.Some? {
        outbox := outbox + [WebRtcSignal(roomId, RoomIceCandidate(c.value))];
      }
    }

    /** `ontrack` (with the remote video element mounted) reports connected. */
    method OnTrack()
      modifies this`isConnected
      ensures isConnected
    {
      isConnected := true;
    }

    /** `onconnectionstatechange`: only `connected` is acted on; nothing ever
        reports a disconnection. */
    method OnConnectionStateChange(state: string)
      modifies this`isConnected
      ensures isConnected == (old(isConnected) || state == "connected")
    {
      if state == "connected" {
        isConnected := true;
      }
    }

    /** The timer tick: unconditional once mounted, connected or not. */
    method Tick()
      modifies this`callDuration
      ensures callDuration == old(callDuration) + (if mounted then 1 else 0)
    {
      if mounted {
        callDuration := callDuration + 1;
      }
    }

    /** `toggleVideo`: the first video track's `enabled` is flipped and the
        new value mirrored into `isVideoOn`; with no stream or no video track
        nothing changes. */
    method ToggleVideo()
      modifies this`isVideoOn, localStream
      ensures localStream == null || FirstOfKind(old(localStream.tracks), Video, 0).None? ==>
                isVideoOn == old(isVideoOn) && (localStream != null ==> localStream.tracks == old(localStream.tracks))
      ensures localStream != null && FirstOfKind(old(localStream.tracks), Video, 0).Some? ==>
                var i := FirstOfKind(old(localStream.tracks), Video, 0).value;
                i < |old(localStream.tracks)| &&
                localStream.tracks == old(localStream.tracks)[i := old(localStream.tracks)[i].(enabled := !old(localStream.tracks)[i].enabled)] &&
                isVideoOn == localStream.tracks[i].enabled
    {
      if localStream != null {
        var found := localStream.FindFirstOfKind(Video);
        if found.Some? {
          FirstOfKindSpec(localStream.tracks, Video, 0);
          localStream.FlipEnabled(found.value);
          isVideoOn := localStream.tracks[found.value].enabled;
        }
      }
    }

    /** `toggleAudio`: the same for the first audio track and `isAudioOn`. */
    method ToggleAudio()
      modifies this`isAudioOn, localStream
      ensures localStream == null || FirstOfKind(old(localStream.tracks), Audio, 0).None? ==>
                isAudioOn == old(isAudioOn) && (localStream != null ==> localStream.tracks == old(localStream.tracks))
      ensures localStream != null && FirstOfKind(old(localStream.tracks), Audio, 0).Some? ==>
                var i := FirstOfKind(old(localStream.tracks), Audio, 0).value;
                i < |old(localStream.tracks)| &&
                localStream.tracks == old(localStream.tracks)[i := old(localStream.tracks)[i].(enabled := !old(localStream.tracks)[i].enabled)] &&
                isAudioOn == localStream.tracks[i].enabled
    {
      if localStream != null {
        var found := localStream.FindFirstOfKind(Audio);
        if found.Some? {
          FirstOfKindSpec(localStream.tracks, Audio, 0);
          localStream.FlipEnabled(found.value);
          isAudioOn := localStream.tracks[found.value].enabled;
        }
      }
    }

    /** `cleanup`: the stream's tracks are stopped and the connection closed,
        but both refs keep their (now dead) objects. */
    method Cleanup()
      modifies localStream, peerConnection
      ensures localStream != null ==> localStream.tracks == Stopped(old(localStream.tracks))
      ensures peerConnection != null ==>
                peerConnection.closed && peerConnection.senders == old(peerConnection.senders) &&
                peerConnection.localDescription == old(peerConnection.localDescription) &&
                peerConnection.remoteDescription == old(peerConnection.remoteDescription) &&
                peerConnection.remoteCandidates == old(peerConnection.remoteCandidates)
    {
      if localStream != null {
        localStream.StopTracks();
      }
      if peerConnection != null {
        peerConnection.Close();
      }
    }

    /** `call-ended` (listened to once mounted): clean up and go to the
        dashboard. */
    method OnCallEnded()
      modifies localStream, peerConnection, this`navigations
      ensures !mounted ==>
                navigations == old(navigations) &&
                (localStream != null ==> unchanged(localStream)) && (peerConnection != null ==> unchanged(peerConnection))
      ensures mounted ==>
                navigations == old(navigations) + ["/dashboard"] &&
                (localStream != null ==> localStream.tracks == Stopped(old(localStream.tracks))) &&
                (peerConnection != null ==> peerConnection.closed)
    {
      if mounted {
        Cleanup();
        navigations := navigations + ["/dashboard"];
      }
    }

    /** `handleEndCall`: clean up, ask the provider to end the current call,
        and go to the dashboard. */
    method HandleEndCall(provider: SocketContext.SocketProvider)
      modifies localStream, peerConnection, this`navigations, provider`outbox
      ensures navigations == old(navigations) + ["/dashboard"]
      ensures localStream != null ==> localStream.tracks == Stopped(old(localStream.tracks))
      ensures peerConnection != null ==> peerConnection.closed
      ensures !provider.hasSocket || provider.currentCall.None? ==> provider.outbox == old(provider.outbox)
      ensures provider.hasSocket && provider.currentCall.Some? ==>
                provider.outbox == old(provider.outbox) +
                  [SocketContext.SendEndCall(provider.currentCall.value.callId, provider.currentCall.value.roomId)]
    {
      Cleanup();
      provider.EndCall();
      navigations := navigations + ["/dashboard"];
    }
  }

  /** After cleanup the refs still hold the closed connection, so a later
      offer is rejected by it and no answer is sent. */
  method SignalAfterCleanup(room: VideoCallRoom, m: RoomMessage, answerSdp: string)
    requires room.peerConnection != null
    modifies room.localStream, room.peerConnection, room`outbox
    ensures room.peerConnection == old(room.peerConnection) && room.peerConnection.closed
    ensures room.outbox == old(room.outbox)
  {
    room.Cleanup();
    room.HandleWebRTCSignal(m, answerSdp);
  }

  /** The offer effect fires at most once per connection: run on two renders
      in a row, the second sends nothing. */
  method OfferEffectTwice(room: VideoCallRoom, offerSdp: string)
    modifies room`offerEffectSeen, room`outbox, room.peerConnection
    ensures |room.outbox| <= |old(room.outbox)| + 1
  {
    room.OfferEffect(offerSdp);
    var afterFirst := room.outbox;
    room.OfferEffect(offerSdp);
    assert room.outbox == afterFirst;
  }
}
