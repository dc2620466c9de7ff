/** The users hook: it lists the `users` collection and deletes a user or
    changes a user's role, updating the local list only after the remote
    write succeeds. */
module UseUsers {
  import opened Base

  datatype User = User(uid: string, email: string, displayName: string, phoneNumber: string, role: string, emailVerified: bool)

  /** A document of the `users` collection; its data may carry a `uid` field
      of its own. */
  datatype UserDoc = UserDoc(docId: string, data: User)

  /** `{ ...data, uid: doc.id }`. */
  function Listed(d: UserDoc): (u: User)
    ensures u.uid == d.docId
    ensures u.(uid := d.data.uid) == d.data
  {
    d.data.(uid := d.docId)
  }

  function ListUsers(docs: seq<UserDoc>): (r: seq<User>)
    ensures |r| == |docs| && forall i :: 0 <= i < |docs| ==> r[i] == Listed(docs[i])
  {
    seq(|docs|, i requires 0 <= i < |docs| => Listed(docs[i]))
  }

  function OtherUid(uid: string): User -> bool
  {
    (u: User) => u.uid != uid
  }

  /** `prev.filter(user => user.uid !== uid)`. */
  function Removed(users: seq<User>, uid: string): seq<User>
  {
    Filter(users, OtherUid(uid))
  }

  function WithRole(uid: string, role: string): User -> User
  {
    (u: User) => if u.uid == uid then u.(role := role) else u
  }

  /** `prev.map(user => user.uid === uid ? { ...user, role } : user)`. */
  function RoleSet(users: seq<User>, uid: string, role: string): (r: seq<User>)
    ensures |r| == |users|
  {
    seq(|users|, i requires 0 <= i < |users| => WithRole(uid, role)(users[i]))
  }

  /** Removal drops every user with that uid and keeps the others in order. */
  lemma RemovedSpec(users: seq<User>, uid: string)
    ensures forall u :: u in Removed(users, uid) <==> u in users && u.uid != uid
    ensures Subsequence(Removed(users, uid), users)
    ensures (forall u :: u in users ==> u.uid != uid) ==> Removed(users, uid) == users
  {
    FilterIsSubsequence(users, OtherUid(uid));
    if forall u :: u in users ==> u.uid != uid {
      FilterAll(users, OtherUid(uid));
    }
  }

  /** A role change gives the users with that uid the new role, changes
      nothing else about them, and leaves every other user as it was; doing
      it twice is doing it once. */
  lemma RoleSetSpec(users: seq<User>, uid: string, role: string)
    ensures var r := RoleSet(users, uid, role);
      forall i :: 0 <= i < |users| ==>
        (users[i].uid == uid ==> r[i].role == role && r[i].(role := users[i].role) == users[i]) &&
        (users[i].uid != uid ==> r[i] == users[i])
    ensures RoleSet(RoleSet(users, uid, role), uid, role) == RoleSet(users, uid, role)
  {
    var r := RoleSet(users, uid, role);
    var rr := RoleSet(r, uid, role);
    forall i | 0 <= i < |users|
      ensures r[i] == WithRole(uid, role)(users[i]) && rr[i] == r[i]
    {
      assert rr[i] == WithRole(uid, role)(r[i]);
    }
  }

  const FETCH_ERROR := "Failed to fetch users."
  const DELETE_ERROR := "Failed to delete user."
  const UPDATE_ERROR := "Failed to update user role."

  class UsersHook {
    var users: seq<User>
    var loading: bool
    var error: Option<string>

    constructor()
      ensures users == [] && loading && error.None?
    {
      users := [];
      loading := true;
      error := None;
    }

    /** `fetchUsers`; `snapshot` is `None` when the read fails. */
    method FetchUsers(snapshot: Option<seq<UserDoc>>)
      modifies this
      ensures snapshot.Some? ==> users == ListUsers(snapshot.value) && error == old(error)
      ensures snapshot.None? ==> users == old(users) && error == Some(FETCH_ERROR)
      ensures !loading
    {
      if snapshot.Some? {
        users := ListUsers(snapshot.value);
      } else {
        error := Some(FETCH_ERROR);
      }
      loading := false;
    }

    /** `deleteUser`; `writeOk` says whether the remote delete succeeds. */
    method DeleteUser(uid: string, writeOk: bool)
      modifies this
      ensures writeOk ==> users == Removed(old(users), uid) && error == old(error)
      ensures !writeOk ==> users == old(users) && error == Some(DELETE_ERROR)
      ensures loading == old(loading)
    {
      if writeOk {
        users := Removed(users, uid);
      } else {
        error := Some(DELETE_ERROR);
      }
    }

    /** `updateUserRole`. */
    method UpdateUserRole(uid: string, role: string, writeOk: bool)
      modifies this
      ensures writeOk ==> users == RoleSet(old(users), uid, role) && error == old(error)
      ensures !writeOk ==> users == old(users) && error == Some(UPDATE_ERROR)
      ensures loading == old(loading)
    {
      if writeOk {
        users := RoleSet(users, uid, role);
      } else {
        error := Some(UPDATE_ERROR);
      }
    }
  }

  /** The listed uid is always the document id, whatever uid the document
      stores, so deleting or editing a listed user targets its own document. */
  lemma ListedUidIsDocId(docs: seq<UserDoc>, i: nat)
    requires i < |docs|
    ensures ListUsers(docs)[i].uid == docs[i].docId
    ensures docs[i].data.uid != docs[i].docId ==> ListUsers(docs)[i].uid != docs[i].data.uid
  {
  }
}
