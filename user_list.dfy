/** The user list: the guard chain in front of starting a call, and the
    online/offline figures of its footer. */
module UserList {

  /** A listed user; `isOnline` is the presence flag the list receives. */
  datatype ListedUser = ListedUser(_id: string, name: string, isOnline: bool)

  /** What clicking a user's call button leads to: one of two alerts, or a
      navigation to that path. */
  datatype StartCallOutcome = ConnectionLostAlert | OfflineAlert(name: string) | NavigateTo(path: string)

  const CallPathPrefix := "/call/"

  /** `handleStartCall`: the connection is checked first, then the target's
      presence; only a connected user calling an online target navigates, to
      `/call/<target _id>`. */
  function HandleStartCall(socketConnected: bool, target: ListedUser): (r: StartCallOutcome)
    ensures !socketConnected ==> r == ConnectionLostAlert
    ensures socketConnected && !target.isOnline ==> r == OfflineAlert(target.name)
    ensures r.NavigateTo? <==> socketConnected && target.isOnline
    ensures r.NavigateTo? ==> |r.path| >= |CallPathPrefix| && r.path[..|CallPathPrefix|] == CallPathPrefix &&
                              r.path[|CallPathPrefix|..] == target._id
  {
    if !socketConnected then ConnectionLostAlert
    else if !target.isOnline then OfflineAlert(target.name)
    else NavigateTo(CallPathPrefix + target._id)
  }

  /** Navigation paths identify the target: two users reached by navigation
      are reached at the same path only when their ids agree. */
  lemma CallPathIdentifiesTarget(a: ListedUser, b: ListedUser)
    requires a.isOnline && b.isOnline
    ensures HandleStartCall(true, a) == HandleStartCall(true, b) <==> a._id == b._id
  {
    var pa, pb := HandleStartCall(true, a).path, HandleStartCall(true, b).path;
    if pa == pb {
      assert a._id == pa[|CallPathPrefix|..] == pb[|CallPathPrefix|..] == b._id;
    }
  }

  /** `users.filter(user => user.isOnline).length`. */
  function OnlineCount(users: seq<ListedUser>): nat
  {
    if users == [] then 0 else (if users[0].isOnline then 1 else 0) + OnlineCount(users[1..])
  }

  /** `users.filter(user => !user.isOnline).length`. */
  function OfflineCount(users: seq<ListedUser>): nat
  {
    if users == [] then 0 else (if users[0].isOnline then 0 else 1) + OfflineCount(users[1..])
  }

  /** The footer's figures: online plus offline is the total, so neither
      exceeds it; the online count is the total exactly when every user is
      online. */
  lemma {:induction false} OnlineOfflinePartition(users: seq<ListedUser>)
    ensures OnlineCount(users) + OfflineCount(users) == |users|
    ensures OnlineCount(users) <= |users| && OfflineCount(users) <= |users|
    ensures OnlineCount(users) == |users| <==> forall i :: 0 <= i < |users| ==> users[i].isOnline
    decreases |users|
  {
    if users != [] {
      OnlineOfflinePartition(users[1..]);
      assert forall i :: 1 <= i < |users| ==> users[i] == users[1..][i - 1];
    }
  }
}
