/** `WebRTCService`: a wrapper holding one peer connection, one local stream
    and one remote stream, each nullable. Every negotiation step demands a
    connection and fails with "Peer connection not initialized" without one;
    `cleanup` releases and clears everything. */
module WebRTCServiceModule {
  import opened Js
  import opened Platform

  /** Why an operation threw. */
  datatype ServiceError =
    | NotInitialized
    | InvalidState          // the connection was closed, so the platform rejected
    | MediaFailure(error: MediaError)

  datatype Outcome<T> = Ok(value: T) | Err(error: ServiceError)

  const NotInitializedMessage := "Peer connection not initialized"

  /** The text of the error the service itself throws. */
  function ErrorMessage(e: ServiceError): (r: JsStr)
    ensures e.NotInitialized? ==> r == Some(NotInitializedMessage)
    ensures e.MediaFailure? ==> r == e.error.message
  {
    match e
    case NotInitialized => Some(NotInitializedMessage)
    case InvalidState => Some("InvalidStateError")
    case MediaFailure(err) => err.message
  }

  class WebRTCService {
    var peerConnection: PeerConnection?
    var localStream: MediaStream?
    var remoteStream: MediaStream?

    /** A new service holds nothing. */
    constructor ()
      ensures peerConnection == null && localStream == null && remoteStream == null
    {
      peerConnection, localStream, remoteStream := null, null, null;
    }

    /** `getUserMedia`: on success the new stream replaces the field (an older
        stream is not stopped) and is returned; on failure the error is
        rethrown and the field keeps its previous value. */
    method GetUserMedia(media: MediaOutcome) returns (r: Outcome<MediaStream>)
      modifies this`localStream
      ensures media.Granted? ==>
                r.Ok? && fresh(r.value) && localStream == r.value && r.value.tracks == media.tracks
      ensures media.Refused? ==> r == Err(MediaFailure(media.error)) && localStream == old(localStream)
    {
      match media {
        case Granted(tracks) =>
          var s := new MediaStream(tracks);
          localStream := s;
          r := Ok(s);
        case Refused(err) =>
          r := Err(MediaFailure(err));
      }
    }

    /** `createPeerConnection`: a new connection replaces the field; an older
        one is neither closed nor otherwise touched. */
    method CreatePeerConnection() returns (pc: PeerConnection)
      modifies this`peerConnection
      ensures fresh(pc) && peerConnection == pc
      ensures pc.senders == [] && pc.localDescription == None && pc.remoteDescription == None
      ensures pc.remoteCandidates == [] && !pc.closed
    {
      pc := new PeerConnection();
      peerConnection := pc;
    }

    /** `addLocalStream`: with both a stream and a connection, every track of
        the stream is added once, in order; otherwise nothing happens. */
    method AddLocalStream()
      modifies peerConnection
      ensures localStream == null || peerConnection == null ==>
                (peerConnection != null ==> unchanged(peerConnection))
      ensures localStream != null && peerConnection != null ==>
                peerConnection.senders ==
                  (if old(peerConnection.closed) then old(peerConnection.senders)
                   else old(peerConnection.senders) + Ids(localStream.tracks)) &&
                peerConnection.closed == old(peerConnection.closed) &&
                peerConnection.localDescription == old(peerConnection.localDescription) &&
                peerConnection.remoteDescription == old(peerConnection.remoteDescription)
    {
      if localStream != null && peerConnection != null {
        AddStreamTracks(peerConnection, localStream);
      }
    }

    /** `createOffer`: without a connection it throws NotInitialized; else
        the offer becomes the local description and is returned. */
    method CreateOffer(offerSdp: string) returns (r: Outcome<SessionDescription>)
      modifies peerConnection
      ensures peerConnection == null ==> r == Err(NotInitialized)
      ensures peerConnection != null && old(peerConnection.closed) ==> r == Err(InvalidState) && unchanged(peerConnection)
      ensures peerConnection != null && !old(peerConnection.closed) ==>
                r == Ok(SessionDescription(OfferSdp, offerSdp)) &&
                peerConnection.localDescription == Some(r.value) &&
                peerConnection.remoteDescription == old(peerConnection.remoteDescription) &&
                peerConnection.senders == old(peerConnection.senders) && !peerConnection.closed
    {
      if peerConnection == null {
        return Err(NotInitialized);
      }
      var offer := SessionDescription(OfferSdp, offerSdp);
      var ok := peerConnection.SetLocalDescription(offer);
      r := if ok then Ok(offer) else Err(InvalidState);
    }

    /** `createAnswer`: without a connection it throws NotInitialized; else the
        remote offer is applied first, then the answer becomes the local
        description and is returned. */
    method CreateAnswer(offer: SessionDescription, answerSdp: string) returns (r: Outcome<SessionDescription>)
      modifies peerConnection
      ensures peerConnection == null ==> r == Err(NotInitialized)
      ensures peerConnection != null && old(peerConnection.closed) ==> r == Err(InvalidState) && unchanged(peerConnection)
      ensures peerConnection != null && !old(peerConnection.closed) ==>
                r == Ok(SessionDescription(AnswerSdp, answerSdp)) &&
                peerConnection.remoteDescription == Some(SessionDescription(OfferSdp, offer.sdp)) &&
                peerConnection.localDescription == Some(r.value) &&
                peerConnection.senders == old(peerConnection.senders) && !peerConnection.closed
    {
      if peerConnection == null {
        return Err(NotInitialized);
      }
      var ok := peerConnection.SetRemoteDescription(SessionDescription(OfferSdp, offer.sdp));
      if !ok {
        return Err(InvalidState);
      }
      var answer := SessionDescription(AnswerSdp, answerSdp);
      ok := peerConnection.SetLocalDescription(answer);
      r := if ok then Ok(answer) else Err(InvalidState);
    }

    /** `handleAnswer`: NotInitialized without a connection; otherwise the
        answer becomes the remote description. */
    method HandleAnswer(answer: SessionDescription) returns (r: Outcome<()>)
      modifies peerConnection
      ensures peerConnection == null ==> r == Err(NotInitialized)
      ensures peerConnection != null && old(peerConnection.closed) ==> r == Err(InvalidState) && unchanged(peerConnection)
      ensures peerConnection != null && !old(peerConnection.closed) ==>
                r == Ok(()) &&
                peerConnection.remoteDescription == Some(SessionDescription(AnswerSdp, answer.sdp)) &&
                peerConnection.localDescription == old(peerConnection.localDescription) &&
                peerConnection.senders == old(peerConnection.senders) && !peerConnection.closed
    {
      if peerConnection == null {
        return Err(NotInitialized);
      }
      var ok := peerConnection.SetRemoteDescription(SessionDescription(AnswerSdp, answer.sdp));
      r := if ok then Ok(()) else Err(InvalidState);
    }

    /** `addIceCandidate`: NotInitialized without a connection; otherwise the
        candidate (rebuilt from its three fields) is applied. */
    method AddIceCandidate(c: IceCandidate) returns (r: Outcome<()>)
      modifies peerConnection
      ensures peerConnection == null ==> r == Err(NotInitialized)
      ensures peerConnection != null && old(peerConnection.closed) ==> r == Err(InvalidState) && unchanged(peerConnection)
      ensures peerConnection != null && !old(peerConnection.closed) ==>
                r == Ok(()) &&
                peerConnection.remoteCandidates == old(peerConnection.remoteCandidates) + [c] &&
                peerConnection.localDescription == old(peerConnection.localDescription) &&
                peerConnection.remoteDescription == old(peerConnection.remoteDescription) &&
                peerConnection.senders == old(peerConnection.senders) && !peerConnection.closed
    {
      if peerConnection == null {
        return Err(NotInitialized);
      }
      var ok := peerConnection.AddIceCandidate(IceCandidate(c.candidate, c.sdpMid, c.sdpMLineIndex));
      r := if ok then Ok(()) else Err(InvalidState);
    }

    /** `cleanup`: a present connection is closed and a present stream's
        tracks stopped; afterwards all three fields are null. */
    method Cleanup()
      modifies this`peerConnection, this`localStream, this`remoteStream, peerConnection, localStream
      ensures peerConnection == null && localStream == null && remoteStream == null
      ensures old(peerConnection) != null ==>
                old(peerConnection).closed && old(peerConnection).senders == old(peerConnection.senders) &&
                old(peerConnection).localDescription == old(peerConnection.localDescription) &&
                old(peerConnection).remoteDescription == old(peerConnection.remoteDescription)
      ensures old(localStream) != null ==> old(localStream).tracks == Stopped(old(localStream.tracks))
    {
      if peerConnection != null {
        peerConnection.Close();
        peerConnection := null;
      }
      if localStream != null {
        localStream.StopTracks();
        localStream := null;
      }
      remoteStream := null;
    }
  }

  /** Every negotiation step on a fresh service fails with "Peer connection
      not initialized"; a second cleanup after the first changes nothing. */
  method FreshServiceRefuses(offer: SessionDescription, c: IceCandidate)
    returns (s: WebRTCService, r1: Outcome<SessionDescription>, r2: Outcome<SessionDescription>,
             r3: Outcome<()>, r4: Outcome<()>)
    ensures fresh(s) && s.peerConnection == null && s.localStream == null && s.remoteStream == null
    ensures r1 == Err(NotInitialized) && r2 == Err(NotInitialized)
    ensures r3 == Err(NotInitialized) && r4 == Err(NotInitialized)
    ensures ErrorMessage(r1.error) == ErrorMessage(r2.error) == ErrorMessage(r3.error) == ErrorMessage(r4.error)
            == Some(NotInitializedMessage)
  {
    s := new WebRTCService();
    r1 := s.CreateOffer("");
    r2 := s.CreateAnswer(offer, "");
    r3 := s.HandleAnswer(offer);
    r4 := s.AddIceCandidate(c);
    s.Cleanup();
    s.Cleanup();
  }

  /** The caller's sequence on a new service with granted media: the offer
      returned is the local description, and the connection sends exactly the
      stream's tracks. */
  method CallerSequence(media: MediaOutcome, offerSdp: string) returns (s: WebRTCService, r: Outcome<SessionDescription>)
    requires media.Granted?
    ensures fresh(s) && s.peerConnection != null && s.localStream != null
    ensures r == Ok(SessionDescription(OfferSdp, offerSdp))
    ensures s.peerConnection.localDescription == Some(r.value)
    ensures s.peerConnection.senders == Ids(media.tracks)
  {
    s := new WebRTCService();
    var _ := s.GetUserMedia(media);
    var _ := s.CreatePeerConnection();
    s.AddLocalStream();
    r := s.CreateOffer(offerSdp);
  }
}
