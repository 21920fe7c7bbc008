/** The app-wide socket provider: connection and registration flags, the
    incoming and current call, the set of online doctors, and the guards of the
    call actions it offers to the pages. Socket events and React effects are
    methods; what the provider emits and where it navigates are logged in
    `outbox` and `navigations`. */
module SocketContext {
  import opened Js

  /** The fields of the signed-in user the provider reads. */
  datatype AuthUser = AuthUser(id: string, fullName: JsStr, firstName: JsStr, metadataUserType: JsStr)

  /** `getUserType`: the Clerk metadata first, then the per-user storage key
      `userType_<id>`, then the generic `userType` key. `storage` is the browser's
      local storage. */
  function GetUserType(user: Option<AuthUser>, storage: map<string, string>): (r: JsStr)
    ensures user.Some? && Truthy(user.value.metadataUserType) ==> r == user.value.metadataUserType
    ensures (user.None? || !Truthy(user.value.metadataUserType)) ==>
              var perUser := Lookup(storage, UserTypeKey(user));
              (Truthy(perUser) ==> r == perUser) &&
              (!Truthy(perUser) ==> r == Lookup(storage, "userType"))
  {
    if user.Some? && Truthy(user.value.metadataUserType) then user.value.metadataUserType
    else Or(Lookup(storage, UserTypeKey(user)), Lookup(storage, "userType"))
  }

  /** `userType_${user?.id}`. */
  function UserTypeKey(user: Option<AuthUser>): string {
    "userType_" + (if user.Some? then user.value.id else "undefined")
  }

  /** With metadata present the stored values are irrelevant; otherwise a
      truthy per-user value hides the generic one, and the result needs a
      truthy source to be truthy. */
  lemma GetUserTypePrecedence(user: Option<AuthUser>, s1: map<string, string>, s2: map<string, string>)
    ensures user.Some? && Truthy(user.value.metadataUserType) ==> GetUserType(user, s1) == GetUserType(user, s2)
    ensures Truthy(GetUserType(user, s1)) ==>
              (user.Some? && Truthy(user.value.metadataUserType)) ||
              Truthy(Lookup(s1, UserTypeKey(user))) || Truthy(Lookup(s1, "userType"))
  {
  }

  /** The data of a call event; fields the relay leaves out are `None`. */
  datatype CallData = CallData(
    callId: JsStr, roomId: JsStr, targetUserId: JsStr, targetUserName: JsStr,
    fromUserId: JsStr, fromDbUserId: JsStr, fromUserName: JsStr, fromUserType: JsStr)

  /** What the provider emits on the socket. */
  datatype Emit =
    | SendRegisterUser(userId: string, userType: string, userName: string)
    | SendInitiateCall(targetDoctorId: string, patientName: string)
    | SendRespondToCall(callId: JsStr, accepted: bool)
    | SendEndCall(callId: JsStr, roomId: JsStr)

  class SocketProvider {
    const user: Option<AuthUser>
    const isSignedIn: bool
    var hasSocket: bool
    var isConnected: bool
    var isRegistered: bool
    var incomingCall: Option<CallData>
    var currentCall: Option<CallData>
    var onlineDoctors: set<string>
    var userType: JsStr
    var outbox: seq<Emit>
    var navigations: seq<string>

    /** The provider's initial state. */
    constructor (user: Option<AuthUser>, isSignedIn: bool)
      ensures this.user == user && this.isSignedIn == isSignedIn
      ensures !hasSocket && !isConnected && !isRegistered
      ensures incomingCall.None? && currentCall.None? && onlineDoctors == {}
      ensures userType.None? && outbox == [] && navigations == []
    {
      this.user, this.isSignedIn := user, isSignedIn;
      hasSocket, isConnected, isRegistered := false, false, false;
      incomingCall, currentCall, onlineDoctors := None, None, {};
      userType, outbox, navigations := None, [], [];
    }

    /** The user effect: with a user, read the user type and send a user
        without one to onboarding. */
    method UserTypeEffect(storage: map<string, string>)
      modifies this`userType, this`navigations
      ensures user.None? ==> userType == old(userType) && navigations == old(navigations)
      ensures user.Some? ==> userType == GetUserType(user, storage)
      ensures user.Some? ==> navigations == old(navigations) + (if Truthy(userType) then [] else ["/onboarding"])
    {
      if user.Some? {
        userType := GetUserType(user, storage);
        if !Truthy(userType) {
          navigations := navigations + ["/onboarding"];
        }
      }
    }

    /** The connection effect: a socket is opened only for a signed-in user with
        a user type; it is not connected until its `connect` event. */
    method ConnectEffect()
      modifies this`hasSocket
      ensures hasSocket == (old(hasSocket) || (isSignedIn && user.Some? && Truthy(userType)))
    {
      if !isSignedIn || user.None? || !Truthy(userType) {
        return;
      }
      hasSocket := true;
    }

    /** The connection effect's cleanup: the socket is dropped and both flags
        are cleared. */
    method TeardownSocket()
      modifies this`hasSocket, this`isConnected, this`isRegistered
      ensures !hasSocket && !isConnected && !isRegistered
    {
      hasSocket, isConnected, isRegistered := false, false, false;
    }

    method OnConnect()
      modifies this`isConnected
      ensures isConnected
    {
      isConnected := true;
    }

    /** `disconnect`: both the connection and the registration are lost. */
    method OnDisconnect()
      modifies this`isConnected, this`isRegistered
      ensures !isConnected && !isRegistered
    {
      isConnected, isRegistered := false, false;
    }

    /** The registration effect: `register-user` is emitted only when the
        socket, the connection, the user and the user type are all present and
        the user is not yet registered. */
    method RegisterEffect()
      modifies this`outbox
      ensures var ready := hasSocket && isConnected && user.Some? && Truthy(userType) && !isRegistered;
        outbox == old(outbox) +
          (if ready
           then [SendRegisterUser(user.value.id, userType.value,
                              OrElse(Or(user.value.fullName, user.value.firstName), "User"))]
           else [])
    {
      if hasSocket && isConnected && user.Some? && Truthy(userType) && !isRegistered {
        var name := OrElse(Or(user.value.fullName, user.value.firstName), "User");
        outbox := outbox + [SendRegisterUser(user.value.id, userType.value, name)];
      }
    }

    method OnRegistrationSuccess()
      modifies this`isRegistered
      ensures isRegistered
    {
      isRegistered := true;
    }

    method OnIncomingCall(data: CallData)
      modifies this`incomingCall
      ensures incomingCall == Some(data)
    {
      incomingCall := Some(data);
    }

    method OnCallInitiated(data: CallData)
      modifies this`currentCall
      ensures currentCall == Some(data)
    {
      currentCall := Some(data);
    }

    /** `call-accepted`: the incoming call is consumed, the accepted call becomes
        current and the app moves to its video room. */
    method OnCallAccepted(data: CallData)
      modifies this`incomingCall, this`currentCall, this`navigations
      ensures incomingCall.None? && currentCall == Some(data)
      ensures navigations == old(navigations) + ["/video-call/" + Template(data.roomId)]
    {
      incomingCall := None;
      currentCall := Some(data);
      navigations := navigations + ["/video-call/" + Template(data.roomId)];
    }

    /** `call-rejected` clears only the current call. */
    method OnCallRejected()
      modifies this`currentCall
      ensures currentCall.None?
    {
      currentCall := None;
    }

    /** `call-failed` clears only the current call. */
    method OnCallFailed()
      modifies this`currentCall
      ensures currentCall.None?
    {
      currentCall := None;
    }

    /** `call-ended` clears both calls and returns to the dashboard. */
    method OnCallEnded()
      modifies this`currentCall, this`incomingCall, this`navigations
      ensures currentCall.None? && incomingCall.None?
      ensures navigations == old(navigations) + ["/dashboard"]
    {
      currentCall := None;
      incomingCall := None;
      navigations := navigations + ["/dashboard"];
    }

    method OnDoctorOnline(doctorId: string)
      modifies this`onlineDoctors
      ensures onlineDoctors == old(onlineDoctors) + {doctorId}
    {
      onlineDoctors := onlineDoctors + {doctorId};
    }

    /** `doctor-offline`: deleting an id that is not there changes nothing. */
    method OnDoctorOffline(doctorId: string)
      modifies this`onlineDoctors
      ensures onlineDoctors == old(onlineDoctors) - {doctorId}
      ensures doctorId !in old(onlineDoctors) ==> onlineDoctors == old(onlineDoctors)
    {
      onlineDoctors := onlineDoctors - {doctorId};
    }

    /** `initiateCall`: nothing is emitted without a socket or before
        registration (an alert is shown instead). Reading `user.fullName`
        with no user throws before anything is emitted. */
    method InitiateCall(doctorId: string, doctorName: string)
      modifies this`outbox
      ensures !hasSocket || !isRegistered || user.None? ==> outbox == old(outbox)
      ensures hasSocket && isRegistered && user.Some? ==>
                outbox == old(outbox) +
                  [SendInitiateCall(doctorId, OrElse(Or(user.value.fullName, user.value.firstName), "Patient"))]
    {
      if !hasSocket || !isRegistered {
        return;
      }
      if user.None? {
        return;
      }
      var patientName := OrElse(Or(user.value.fullName, user.value.firstName), "Patient");
      outbox := outbox + [SendInitiateCall(doctorId, patientName)];
    }

    /** `acceptCall` answers the relay and leaves `incomingCall` in place. */
    method AcceptCall(callId: JsStr)
      modifies this`outbox
      ensures outbox == old(outbox) + (if hasSocket then [SendRespondToCall(callId, true)] else [])
    {
      if !hasSocket {
        return;
      }
      outbox := outbox + [SendRespondToCall(callId, true)];
    }

    /** `rejectCall` answers the relay and clears `incomingCall`. */
    method RejectCall(callId: JsStr)
      modifies this`outbox, this`incomingCall
      ensures outbox == old(outbox) + (if hasSocket then [SendRespondToCall(callId, false)] else [])
      ensures incomingCall == if hasSocket then None else old(incomingCall)
    {
      if !hasSocket {
        return;
      }
      outbox := outbox + [SendRespondToCall(callId, false)];
      incomingCall := None;
    }

    /** `endCall` is a no-op without a socket or without a current call, and
        does not itself clear the current call (the relay's `call-ended` does). */
    method EndCall()
      modifies this`outbox
      ensures !hasSocket || currentCall.None? ==> outbox == old(outbox)
      ensures hasSocket && currentCall.Some? ==>
                outbox == old(outbox) + [SendEndCall(currentCall.value.callId, currentCall.value.roomId)]
    {
      if !hasSocket || currentCall.None? {
        return;
      }
      outbox := outbox + [SendEndCall(currentCall.value.callId, currentCall.value.roomId)];
    }
  }

  /** Presence bookkeeping: after an `doctor-online` for `d`, `d` is online, and
      a `doctor-offline` for `d` then removes exactly `d` again when it was not
      online before. */
  method PresenceScenario(p: SocketProvider, d: string)
    modifies p`onlineDoctors
    ensures d !in old(p.onlineDoctors) ==> p.onlineDoctors == old(p.onlineDoctors)
    ensures d !in p.onlineDoctors
  {
    p.OnDoctorOnline(d);
    assert d in p.onlineDoctors;
    p.OnDoctorOffline(d);
  }
}
