/** The call-room page at `/call/:callRoomId`: `loadCallData` works out who
    the current user is and who the other participant is, from the current
    call, else the incoming call, else the room id itself. The two API
    requests it may make are parameters carrying their outcomes. */
module CallRoomPageModule {
  import opened Js
  import opened Helpers
  import SocketContext

  /** The fields of the Clerk user the page reads. */
  datatype ClerkUser = ClerkUser(id: string, fullName: JsStr, firstName: JsStr, email: JsStr, imageUrl: JsStr)

  /** The current user's record as the page keeps it. */
  datatype Profile = Profile(_id: JsStr, name: JsStr, email: JsStr, avatar: Option<Avatar>, userType: JsStr)

  /** The outcome of `getCurrentUser`: a record, `null` (whose `_id` read
      throws), or a rejection. */
  datatype ProfileFetch = ProfileFetched(profile: Profile) | ProfileNull | ProfileFailed

  /** The outcome of `getDoctorById`: a record, `null` (whose field reads
      throw), or a rejection. */
  datatype DoctorFetch = DoctorFetched(_id: JsStr, name: JsStr, avatar: JsStr) | DoctorNull | DoctorFailed

  /** The other participant as the page shows them. */
  datatype Participant = Participant(_id: JsStr, name: JsStr, avatar: Avatar, userType: string)

  /** What one run of `loadCallData` ends with; `lookup` is the id a doctor
      was requested for, if any. */
  datatype LoadResult =
    | Loaded(me: Profile, target: Participant, lookup: Option<string>)
    | LoadFailed(error: string, recorded: Option<Profile>)

  const NoRoomIdError := "No call room ID provided"
  const NotAuthenticatedError := "User not authenticated"
  const InvalidFormatError := "Invalid call room format"

  /** Length of a MongoDB object id, the only kind of id looked up. */
  const ObjectIdLength := 24

  /** The record built from the Clerk user when no profile could be loaded. */
  function FallbackProfile(user: ClerkUser): (p: Profile)
    ensures p._id == Some(user.id) && p.userType == Some("patient")
    ensures p.name == Some(OrElse(Or(user.fullName, user.firstName), "User"))
    ensures Truthy(user.imageUrl) ==> p.avatar == Some(AvatarUrl(user.imageUrl.value))
    ensures !Truthy(user.imageUrl) ==> p.avatar == Some(GeneratedAvatar(OrElse(user.fullName, "User"), "4f46e5"))
  {
    Profile(Some(user.id), Some(OrElse(Or(user.fullName, user.firstName), "User")),
            Some(OrElse(user.email, "")),
            Some(if Truthy(user.imageUrl) then AvatarUrl(user.imageUrl.value)
                 else GeneratedAvatar(OrElse(user.fullName, "User"), "4f46e5")),
            Some("patient"))
  }

  /** `userData._id = id`: the record with only its id replaced. */
  function WithId(p: Profile, id: string): (q: Profile)
    ensures q._id == Some(id)
    ensures q.name == p.name && q.email == p.email && q.avatar == p.avatar && q.userType == p.userType
  {
    Profile(Some(id), p.name, p.email, p.avatar, p.userType)
  }

  /** The current user's record: the loaded profile, its falsy `_id`
      replaced by the Clerk id; the fallback record when there is none. */
  function CurrentUserRecord(user: ClerkUser, fetch: ProfileFetch): (p: Profile)
    ensures fetch.ProfileFetched? && Truthy(fetch.profile._id) ==> p == fetch.profile
    ensures fetch.ProfileFetched? && !Truthy(fetch.profile._id) ==>
              p == WithId(fetch.profile, user.id)
    ensures !fetch.ProfileFetched? ==> p == FallbackProfile(user)
    ensures Truthy(p._id) || p._id == Some(user.id)
  {
    match fetch
    case ProfileFetched(profile) =>
      if Truthy(profile._id) then profile else WithId(profile, user.id)
    case _ => FallbackProfile(user)
  }

  /** The target from the current call: the called doctor. */
  function TargetFromCurrentCall(c: SocketContext.CallData): (t: Participant)
    ensures t._id == c.targetUserId && t.userType == "doctor"
    ensures t.name == Some(OrElse(c.targetUserName, "Doctor"))
  {
    var name := OrElse(c.targetUserName, "Doctor");
    Participant(c.targetUserId, Some(name), GeneratedAvatar(name, "10b981"), "doctor")
  }

  /** The target from the incoming call: the caller, by database id first. */
  function TargetFromIncomingCall(c: SocketContext.CallData): (t: Participant)
    ensures Truthy(c.fromDbUserId) ==> t._id == c.fromDbUserId
    ensures !Truthy(c.fromDbUserId) ==> t._id == c.fromUserId
    ensures t.userType == OrElse(c.fromUserType, "patient") && t.name == Some(OrElse(c.fromUserName, "User"))
  {
    var name := OrElse(c.fromUserName, "User");
    Participant(Or(c.fromDbUserId, c.fromUserId), Some(name), GeneratedAvatar(name, "f59e0b"),
                OrElse(c.fromUserType, "patient"))
  }

  /** The other party of a room id split into parts: the receiver when the
      current user is the initiator, the initiator otherwise. */
  function TargetIdFromParts(parts: seq<string>, myId: JsStr): (id: string)
    requires |parts| >= 3
    ensures myId == Some(parts[1]) ==> id == parts[2]
    ensures myId != Some(parts[1]) ==> id == parts[1]
  {
    if Some(parts[1]) == myId then parts[2] else parts[1]
  }

  /** The placeholder for a target whose record could not be loaded. */
  function Placeholder(targetId: string): (t: Participant)
    ensures t._id == Some(targetId) && t.name == Some("Participant") && t.userType == "unknown"
  {
    Participant(Some(targetId), Some("Participant"), GeneratedAvatar("Participant", "6366f1"), "unknown")
  }

  /** The target for a room-id target id: a looked-up doctor when the id has
      object-id length and the lookup returned a record; the placeholder
      otherwise. */
  function RoomTarget(targetId: string, fetch: DoctorFetch): (t: Participant)
    ensures |targetId| == ObjectIdLength && fetch.DoctorFetched? ==>
              t._id == fetch._id && t.name == fetch.name && t.userType == "doctor"
    ensures |targetId| != ObjectIdLength || !fetch.DoctorFetched? ==> t == Placeholder(targetId)
  {
    if |targetId| == ObjectIdLength && fetch.DoctorFetched? then
      Participant(fetch._id, fetch.name,
                  if Truthy(fetch.avatar) then AvatarUrl(fetch.avatar.value) else GeneratedAvatar(Template(fetch.name), "10b981"),
                  "doctor")
    else Placeholder(targetId)
  }

  /** `loadCallData` as a function of everything it reads. */
  function Load(callRoomId: JsStr, user: Option<ClerkUser>,
                currentCall: Option<SocketContext.CallData>, incomingCall: Option<SocketContext.CallData>,
                profileFetch: ProfileFetch, doctorFetch: DoctorFetch): LoadResult
  {
    if !Truthy(callRoomId) then LoadFailed(NoRoomIdError, None)
    else if user.None? then LoadFailed(NotAuthenticatedError, None)
    else
      var me := CurrentUserRecord(user.value, profileFetch);
      if currentCall.Some? then Loaded(me, TargetFromCurrentCall(currentCall.value), None)
      else if incomingCall.Some? then Loaded(me, TargetFromIncomingCall(incomingCall.value), None)
      else
        var parts := Split(callRoomId.value, '_');
        if |parts| < 3 then LoadFailed(InvalidFormatError, Some(me))
        else
          var targetId := TargetIdFromParts(parts, me._id);
          Loaded(me, RoomTarget(targetId, doctorFetch),
                 if |targetId| == ObjectIdLength then Some(targetId) else None)
  }

  /** The two early errors come first and record no user; every later
      outcome records the user. */
  lemma LoadErrors(callRoomId: JsStr, user: Option<ClerkUser>,
                   currentCall: Option<SocketContext.CallData>, incomingCall: Option<SocketContext.CallData>,
                   profileFetch: ProfileFetch, doctorFetch: DoctorFetch)
    ensures var r := Load(callRoomId, user, currentCall, incomingCall, profileFetch, doctorFetch);
      (!Truthy(callRoomId) <==> r == LoadFailed(NoRoomIdError, None)) &&
      (Truthy(callRoomId) && user.None? <==> r == LoadFailed(NotAuthenticatedError, None)) &&
      (Truthy(callRoomId) && user.Some? ==>
         var me := CurrentUserRecord(user.value, profileFetch);
         (r.Loaded? && r.me == me) || r == LoadFailed(InvalidFormatError, Some(me))) &&
      (r.Loaded? ==> Truthy(callRoomId) && user.Some?)
  {
  }

  /** Which source the target comes from: the current call wins, then the
      incoming call, then the room id; only the last can fail, and it fails
      exactly when the id has fewer than three '_'-separated parts, that is,
      fewer than two '_'. */
  lemma LoadTargetPrecedence(callRoomId: JsStr, user: ClerkUser,
                             currentCall: Option<SocketContext.CallData>, incomingCall: Option<SocketContext.CallData>,
                             profileFetch: ProfileFetch, doctorFetch: DoctorFetch)
    requires Truthy(callRoomId)
    ensures var r := Load(callRoomId, Some(user), currentCall, incomingCall, profileFetch, doctorFetch);
      (currentCall.Some? ==> r.Loaded? && r.target == TargetFromCurrentCall(currentCall.value) && r.lookup.None?) &&
      (currentCall.None? && incomingCall.Some? ==>
         r.Loaded? && r.target == TargetFromIncomingCall(incomingCall.value) && r.lookup.None?) &&
      (currentCall.None? && incomingCall.None? ==>
         (r == LoadFailed(InvalidFormatError, Some(CurrentUserRecord(user, profileFetch))) <==>
          Occurrences(callRoomId.value, '_') < 2))
  {
    SplitSpec(callRoomId.value, '_');
  }

  /** For a target taken from the room id: a doctor is requested exactly for
      an id of object-id length, and it is the other party's id; the target
      carries that id unless a looked-up record replaced it. */
  lemma LoadRoomTarget(callRoomId: JsStr, user: ClerkUser, profileFetch: ProfileFetch, doctorFetch: DoctorFetch)
    requires Truthy(callRoomId) && |Split(callRoomId.value, '_')| >= 3
    ensures var r := Load(callRoomId, Some(user), None, None, profileFetch, doctorFetch);
      var parts := Split(callRoomId.value, '_');
      var me := CurrentUserRecord(user, profileFetch);
      var other := if me._id == Some(parts[1]) then parts[2] else parts[1];
      r.Loaded? &&
      (r.lookup.Some? <==> |other| == ObjectIdLength) &&
      (r.lookup.Some? ==> r.lookup.value == other) &&
      (r.lookup.Some? && doctorFetch.DoctorFetched? ==> r.target._id == doctorFetch._id && r.target.userType == "doctor") &&
      (r.lookup.None? || !doctorFetch.DoctorFetched? ==> r.target == Placeholder(other))
  {
  }

  /** Both participants of a room "prefix_initiator_receiver" see each other:
      the initiator gets the receiver as target and the receiver gets the
      initiator. */
  lemma {:induction false} RoomParticipantsSeeEachOther(prefix: string, initiatorId: string, receiverId: string)
    requires '_' !in prefix && '_' !in initiatorId && '_' !in receiverId
    ensures var parts := Split(prefix + "_" + initiatorId + "_" + receiverId, '_');
      |parts| == 3 &&
      TargetIdFromParts(parts, Some(initiatorId)) == receiverId &&
      TargetIdFromParts(parts, Some(receiverId)) == initiatorId
  {
    ParseBuiltCallRoomId(prefix, initiatorId, receiverId);
  }

  /** The page's state. */
  class CallRoomPage {
    var currentUserData: Option<Profile>
    var targetUserData: Option<Participant>
    var loading: bool
    var error: Option<string>
    /** The ids `getDoctorById` was called with, in order. */
    var doctorLookups: seq<string>

    constructor ()
      ensures currentUserData.None? && targetUserData.None? && loading && error.None? && doctorLookups == []
    {
      currentUserData, targetUserData, loading, error, doctorLookups := None, None, true, None, [];
    }

    /** `loadCallData`: the new state is the outcome of `Load`. An error
        leaves the previous target in place; loading always ends. */
    method LoadCallData(callRoomId: JsStr, user: Option<ClerkUser>,
                        currentCall: Option<SocketContext.CallData>, incomingCall: Option<SocketContext.CallData>,
                        profileFetch: ProfileFetch, doctorFetch: DoctorFetch)
      modifies this`currentUserData, this`targetUserData, this`loading, this`error, this`doctorLookups
      ensures !loading
      ensures var r := Load(callRoomId, user, currentCall, incomingCall, profileFetch, doctorFetch);
        (r.Loaded? ==>
           error.None? && currentUserData == Some(r.me) && targetUserData == Some(r.target) &&
           doctorLookups == old(doctorLookups) + (if r.lookup.Some? then [r.lookup.value] else [])) &&
        (r.LoadFailed? ==>
           error == Some(r.error) && targetUserData == old(targetUserData) && doctorLookups == old(doctorLookups) &&
           currentUserData == (if r.recorded.Some? then r.recorded else old(currentUserData)))
    {
      loading, error := true, None;
      if !Truthy(callRoomId) {
        error, loading := Some(NoRoomIdError), false;
        return;
      }
      if user.None? {
        error, loading := Some(NotAuthenticatedError), false;
        return;
      }
      var userData: Profile;
      match profileFetch {
        case ProfileFetched(p) =>
          userData := p;
          if !Truthy(userData._id) {
            userData := WithId(userData, user.value.id);
          }
        case _ =>
          userData := FallbackProfile(user.value);
      }
      currentUserData := Some(userData);
      var targetUser: Participant;
      if currentCall.Some? {
        targetUser := TargetFromCurrentCall(currentCall.value);
      } else if incomingCall.Some? {
        targetUser := TargetFromIncomingCall(incomingCall.value);
      } else {
        var callParts := Split(callRoomId.value, '_');
        if |callParts| < 3 {
          error, loading := Some(InvalidFormatError), false;
          return;
        }
        var targetId := if userData._id == Some(callParts[1]) then callParts[2] else callParts[1];
        if |targetId| == ObjectIdLength {
          doctorLookups := doctorLookups + [targetId];
        }
        targetUser := RoomTarget(targetId, doctorFetch);
      }
      targetUserData := Some(targetUser);
      loading := false;
    }
  }
}
