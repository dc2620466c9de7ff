/** The admin users panel: the same listing, removal and role change as the
    users hook, with an edit dialog and no error state. */
module UsersPanel {
  import opened Base
  import opened UseUsers

  class Panel {
    var users: seq<User>
    var loading: bool
    var editingUser: Option<User>
    var editRole: string

    constructor()
      ensures users == [] && loading && editingUser.None? && editRole == ""
    {
      users := [];
      loading := true;
      editingUser := None;
      editRole := "";
    }

    /** `fetchUsers`: a failed read leaves the list as it was. */
    method FetchUsers(snapshot: Option<seq<UserDoc>>)
      modifies this
      ensures users == if snapshot.Some? then ListUsers(snapshot.value) else old(users)
      ensures !loading && editingUser == old(editingUser) && editRole == old(editRole)
    {
      if snapshot.Some? {
        users := ListUsers(snapshot.value);
      }
      loading := false;
    }

    /** `handleDelete`. */
    method HandleDelete(uid: string, writeOk: bool)
      modifies this
      ensures users == if writeOk then Removed(old(users), uid) else old(users)
      ensures loading == old(loading) && editingUser == old(editingUser) && editRole == old(editRole)
    {
      if writeOk {
        users := Removed(users, uid);
      }
    }

    /** `handleEdit`: opens the dialog on a user, with that user's role. */
    method HandleEdit(u: User)
      modifies this
      ensures editingUser == Some(u) && editRole == u.role
      ensures users == old(users) && loading == old(loading)
    {
      editingUser := Some(u);
      editRole := u.role;
    }

    /** The role picker in the dialog. */
    method SetEditRole(role: string)
      modifies this
      ensures editRole == role
      ensures users == old(users) && loading == old(loading) && editingUser == old(editingUser)
    {
      editRole := role;
    }

    /** `saveEdit`: nothing without an open dialog; otherwise a successful
        write gives the edited uid the chosen role and closes the dialog,
        and a failed one leaves everything, the dialog included, as it was. */
    method SaveEdit(writeOk: bool)
      modifies this
      ensures old(editingUser).None? || !writeOk ==> users == old(users) && editingUser == old(editingUser)
      ensures old(editingUser).Some? && writeOk ==>
        users == RoleSet(old(users), old(editingUser).value.uid, old(editRole)) && editingUser.None?
      ensures loading == old(loading) && editRole == old(editRole)
    {
      if editingUser.None? {
        return;
      }
      if writeOk {
        users := RoleSet(users, editingUser.value.uid, editRole);
        editingUser := None;
      }
    }
  }

  /** Opening the dialog on a listed user and saving without changing the
      role leaves the list as it was. */
  lemma EditUnchangedIsNoOp(users: seq<User>, k: nat)
    requires k < |users|
    requires forall i :: 0 <= i < |users| && users[i].uid == users[k].uid ==> users[i].role == users[k].role
    ensures RoleSet(users, users[k].uid, users[k].role) == users
  {
    var r := RoleSet(users, users[k].uid, users[k].role);
    forall i | 0 <= i < |users|
      ensures r[i] == users[i]
    {
      assert r[i] == WithRole(users[k].uid, users[k].role)(users[i]);
    }
  }
}
