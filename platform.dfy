/** Abstract handles for the browser's real-time media objects.

    A `MediaStream` owns a sequence of tracks; a track is a value identified by
    its id, so that a peer connection can refer to the tracks it sends by id
    while the stream flips and stops them in place. A `PeerConnection` records
    only what the call components can observe or cause: the tracks added to it,
    the local and remote session descriptions, the remote ICE candidates applied
    to it, and whether it is closed. SDP and ICE semantics are opaque. */
module Platform {
  import opened Js

  datatype TrackKind = Audio | Video

  datatype Track = Track(id: nat, kind: TrackKind, enabled: bool, live: bool)

  datatype SdpType = OfferSdp | AnswerSdp

  datatype SessionDescription = SessionDescription(sdpType: SdpType, sdp: string)

  datatype IceCandidate = IceCandidate(candidate: string, sdpMid: string, sdpMLineIndex: int)

  /** The `iceConnectionState` values a connection reports. */
  datatype IceState = New | Checking | IceConnected | Completed | Failed | IceDisconnected | IceClosed

  /** What `getUserMedia` rejects with: a DOMException's `name` and `message`. */
  datatype MediaError = MediaError(name: JsStr, message: JsStr)

  /** The outcome of one `getUserMedia` request, supplied by the environment. */
  datatype MediaOutcome = Granted(tracks: seq<Track>) | Refused(error: MediaError)

  /** The tracks after `track.stop()` on each of them. */
  function Stopped(ts: seq<Track>): (r: seq<Track>)
  {
    seq(|ts|, i requires 0 <= i < |ts| => ts[i].(live := false))
  }

  /** The tracks after `track.enabled = !track.enabled` on every track of kind `k`. */
  function Toggled(ts: seq<Track>, k: TrackKind): (r: seq<Track>)
  {
    seq(|ts|, i requires 0 <= i < |ts| => if ts[i].kind == k then ts[i].(enabled := !ts[i].enabled) else ts[i])
  }

  /** `getTracks().every(track => track.readyState === 'live')`. */
  predicate AllLive(ts: seq<Track>) {
    forall i :: 0 <= i < |ts| ==> ts[i].live
  }

  /** The ids of the tracks, in order. */
  function Ids(ts: seq<Track>): (r: seq<nat>)
  {
    seq(|ts|, i requires 0 <= i < |ts| => ts[i].id)
  }

  /** The index of the first track of kind `k` at or after `from`:
      `getVideoTracks()[0]` / `getAudioTracks()[0]` when `from` is 0. */
  function FirstOfKind(ts: seq<Track>, k: TrackKind, from: nat): (r: Option<nat>)
    decreases |ts| - from
  {
    if from >= |ts| then None
    else if ts[from].kind == k then Some(from)
    else FirstOfKind(ts, k, from + 1)
  }

  /** `FirstOfKind` finds the first track of that kind, and finds nothing only
      when no track of that kind is at or after `from`. */
  lemma {:induction false} FirstOfKindSpec(ts: seq<Track>, k: TrackKind, from: nat)
    ensures FirstOfKind(ts, k, from).Some? ==>
              var i := FirstOfKind(ts, k, from).value;
              from <= i < |ts| && ts[i].kind == k &&
              forall j :: from <= j < i ==> ts[j].kind != k
    ensures FirstOfKind(ts, k, from).None? <==>
              forall j :: from <= j < |ts| ==> ts[j].kind != k
    decreases |ts| - from
  {
    if from < |ts| && ts[from].kind != k {
      FirstOfKindSpec(ts, k, from + 1);
    }
  }

  /** Stopping leaves every track in place (id, kind, enabled) and none live;
      stopping again changes nothing. */
  lemma StoppedSpec(ts: seq<Track>)
    ensures |Stopped(ts)| == |ts| && Ids(Stopped(ts)) == Ids(ts)
    ensures forall i :: 0 <= i < |ts| ==>
              Stopped(ts)[i].kind == ts[i].kind && Stopped(ts)[i].enabled == ts[i].enabled
    ensures forall i :: 0 <= i < |ts| ==> !Stopped(ts)[i].live
    ensures Stopped(Stopped(ts)) == Stopped(ts)
  {
  }

  /** Toggling a kind twice restores every track, toggling changes only the
      tracks of that kind and never their liveness or ids. */
  lemma ToggledSpec(ts: seq<Track>, k: TrackKind)
    ensures |Toggled(ts, k)| == |ts| && Ids(Toggled(ts, k)) == Ids(ts)
    ensures Toggled(Toggled(ts, k), k) == ts
    ensures forall i :: 0 <= i < |ts| ==>
              (ts[i].kind != k ==> Toggled(ts, k)[i] == ts[i]) &&
              (ts[i].kind == k ==> Toggled(ts, k)[i].enabled == !ts[i].enabled) &&
              Toggled(ts, k)[i].live == ts[i].live
  {
    var t2 := Toggled(Toggled(ts, k), k);
    assert |t2| == |ts|;
    forall i | 0 <= i < |ts| ensures t2[i] == ts[i] {
    }
  }

  class MediaStream {
    var tracks: seq<Track>

    constructor (tracks: seq<Track>)
      ensures this.tracks == tracks
    {
      this.tracks := tracks;
    }

    /** `getTracks().forEach(track => track.stop())`. */
    method StopTracks()
      modifies this
      ensures tracks == Stopped(old(tracks))
    {
      var i := 0;
      while i < |tracks|
        invariant 0 <= i <= |tracks| == |old(tracks)|
        invariant forall j :: 0 <= j < i ==> tracks[j] == old(tracks)[j].(live := false)
        invariant forall j :: i <= j < |tracks| ==> tracks[j] == old(tracks)[j]
      {
        tracks := tracks[i := tracks[i].(live := false)];
        i := i + 1;
      }
    }

    /** `getAudioTracks()` / `getVideoTracks()` then `forEach` flipping `enabled`. */
    method ToggleKind(k: TrackKind)
      modifies this
      ensures tracks == Toggled(old(tracks), k)
    {
      var i := 0;
      while i < |tracks|
        invariant 0 <= i <= |tracks| == |old(tracks)|
        invariant forall j :: 0 <= j < i ==> tracks[j] == Toggled(old(tracks), k)[j]
        invariant forall j :: i <= j < |tracks| ==> tracks[j] == old(tracks)[j]
      {
        if tracks[i].kind == k {
          tracks := tracks[i := tracks[i].(enabled := !tracks[i].enabled)];
        }
        i := i + 1;
      }
    }

    /** `getTracks().every(track => track.readyState === 'live')`. */
    method EveryTrackLive() returns (b: bool)
      ensures b <==> AllLive(tracks)
    {
      b := true;
      var i := 0;
      while i < |tracks|
        invariant 0 <= i <= |tracks|
        invariant b <==> forall j :: 0 <= j < i ==> tracks[j].live
      {
        if !tracks[i].live {
          b := false;
        }
        i := i + 1;
      }
    }

    /** The first track of kind `k` (`getVideoTracks()[0]`), found by a scan. */
    method FindFirstOfKind(k: TrackKind) returns (r: Option<nat>)
      ensures r == FirstOfKind(tracks, k, 0)
    {
      var i := |tracks|;
      r := None;
      while i > 0
        invariant 0 <= i <= |tracks|
        invariant r == FirstOfKind(tracks, k, i)
      {
        i := i - 1;
        if tracks[i].kind == k {
          r := Some(i);
        }
      }
    }

    /** Flips the `enabled` flag of the track at index `i` only. */
    method FlipEnabled(i: nat)
      requires i < |tracks|
      modifies this
      ensures tracks == old(tracks)[i := old(tracks)[i].(enabled := !old(tracks)[i].enabled)]
    {
      tracks := tracks[i := tracks[i].(enabled := !tracks[i].enabled)];
    }
  }

  /** A peer connection. An operation on a closed connection rejects
      (`InvalidStateError`) and changes nothing; the `ok` results report that. */
  class PeerConnection {
    var senders: seq<nat>
    var localDescription: Option<SessionDescription>
    var remoteDescription: Option<SessionDescription>
    var remoteCandidates: seq<IceCandidate>
    var closed: bool

    constructor ()
      ensures senders == [] && localDescription == None && remoteDescription == None
      ensures remoteCandidates == [] && !closed
    {
      senders, localDescription, remoteDescription := [], None, None;
      remoteCandidates, closed := [], false;
    }

    method AddTrack(t: Track) returns (ok: bool)
      modifies this
      ensures ok == !closed && closed == old(closed)
      ensures !ok ==> unchanged(this)
      ensures senders == if ok then old(senders) + [t.id] else old(senders)
      ensures localDescription == old(localDescription) && remoteDescription == old(remoteDescription)
      ensures remoteCandidates == old(remoteCandidates)
    {
      ok := !closed;
      if ok {
        senders := senders + [t.id];
      }
    }

    method SetLocalDescription(d: SessionDescription) returns (ok: bool)
      modifies this
      ensures ok == !closed && closed == old(closed)
      ensures !ok ==> unchanged(this)
      ensures localDescription == if ok then Some(d) else old(localDescription)
      ensures senders == old(senders) && remoteDescription == old(remoteDescription)
      ensures remoteCandidates == old(remoteCandidates)
    {
      ok := !closed;
      if ok {
        localDescription := Some(d);
      }
    }

    method SetRemoteDescription(d: SessionDescription) returns (ok: bool)
      modifies this
      ensures ok == !closed && closed == old(closed)
      ensures !ok ==> unchanged(this)
      ensures remoteDescription == if ok then Some(d) else old(remoteDescription)
      ensures senders == old(senders) && localDescription == old(localDescription)
      ensures remoteCandidates == old(remoteCandidates)
    {
      ok := !closed;
      if ok {
        remoteDescription := Some(d);
      }
    }

    method AddIceCandidate(c: IceCandidate) returns (ok: bool)
      modifies this
      ensures ok == !closed && closed == old(closed)
      ensures !ok ==> unchanged(this)
      ensures remoteCandidates == if ok then old(remoteCandidates) + [c] else old(remoteCandidates)
      ensures senders == old(senders) && localDescription == old(localDescription)
      ensures remoteDescription == old(remoteDescription)
    {
      ok := !closed;
      if ok {
        remoteCandidates := remoteCandidates + [c];
      }
    }

    /** `close()`: closing an already closed connection changes nothing. */
    method Close()
      modifies this
      ensures closed
      ensures senders == old(senders) && localDescription == old(localDescription)
      ensures remoteDescription == old(remoteDescription) && remoteCandidates == old(remoteCandidates)
    {
      closed := true;
    }
  }

  /** `stream.getTracks().forEach(track => pc.addTrack(track, stream))`: every
      track of the stream is added once, in stream order; the stream is not
      touched. On a closed connection nothing is added. */
  method AddStreamTracks(pc: PeerConnection, stream: MediaStream)
    modifies pc
    ensures pc.closed == old(pc.closed)
    ensures pc.senders == if old(pc.closed) then old(pc.senders) else old(pc.senders) + Ids(stream.tracks)
    ensures pc.localDescription == old(pc.localDescription) && pc.remoteDescription == old(pc.remoteDescription)
    ensures pc.remoteCandidates == old(pc.remoteCandidates)
  {
    var i := 0;
    while i < |stream.tracks|
      invariant 0 <= i <= |stream.tracks|
      invariant pc.closed == old(pc.closed)
      invariant pc.senders == if old(pc.closed) then old(pc.senders) else old(pc.senders) + Ids(stream.tracks[..i])
      invariant pc.localDescription == old(pc.localDescription) && pc.remoteDescription == old(pc.remoteDescription)
      invariant pc.remoteCandidates == old(pc.remoteCandidates)
    {
      var _ := pc.AddTrack(stream.tracks[i]);
      assert Ids(stream.tracks[..i + 1]) == Ids(stream.tracks[..i]) + [stream.tracks[i].id];
      i := i + 1;
    }
    assert stream.tracks[..i] == stream.tracks;
  }
}
