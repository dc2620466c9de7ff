/** The authentication context: the signed-in user, the admin flag and the
    loading flag, as the provider keeps them in step with the identity
    service's sign-in events; and the e-mail admin check the admin pages use. */
module Auth {
  import opened Base

  /** The parts of an identity-service user the storefront reads. */
  datatype User = User(uid: string, email: Option<string>, emailVerified: bool)

  /** The value the context hands to its consumers. It has no `user` field. */
  datatype ContextValue = ContextValue(currentUser: Option<User>, isAdmin: bool, loading: bool)

  /** The value seen outside any provider. */
  const DEFAULT_VALUE := ContextValue(None, false, true)

  /** `isAdmin(email)`: `email === ADMIN_EMAIL`, where an unset variable is
      `undefined` and so equals an absent e-mail. */
  predicate EmailIsAdmin(email: Option<string>, adminEmail: Option<string>)
  {
    email == adminEmail
  }

  lemma EmailIsAdminCases(email: Option<string>, adminEmail: Option<string>)
    ensures adminEmail.Some? ==> (EmailIsAdmin(email, adminEmail) <==> email == Some(adminEmail.value))
    ensures adminEmail.None? ==> (EmailIsAdmin(email, adminEmail) <==> email.None?)
  {
  }

  /** `AuthProvider`'s state. `adminUid` is `ADMIN_UID`. */
  class AuthProvider {
    var currentUser: Option<User>
    var isAdmin: bool
    var loading: bool
    const adminUid: Option<string>

    /** The admin flag is up exactly for a signed-in user whose uid is `ADMIN_UID`. */
    ghost predicate Valid()
      reads this
    {
      isAdmin <==> currentUser.Some? && adminUid == Some(currentUser.value.uid)
    }

    function Value(): (v: ContextValue)
      reads this
      ensures v.currentUser == currentUser && v.isAdmin == isAdmin && v.loading == loading
    {
      ContextValue(currentUser, isAdmin, loading)
    }

    constructor(adminUid: Option<string>)
      ensures Valid() && Value() == DEFAULT_VALUE && this.adminUid == adminUid
    {
      currentUser := None;
      isAdmin := false;
      loading := true;
      this.adminUid := adminUid;
    }

    /** The `onAuthStateChanged` callback. A sign-in sets all three fields; a
        sign-out clears the user and the flag but leaves `loading` alone. */
    method OnAuthStateChanged(user: Option<User>)
      requires Valid()
      modifies this
      ensures Valid()
      ensures user.Some? ==> Value() == ContextValue(user, adminUid == Some(user.value.uid), false)
      ensures user.None? ==> Value() == ContextValue(None, false, old(loading))
    {
      if user.Some? {
        currentUser := user;
        isAdmin := adminUid == Some(user.value.uid);
        loading := false;
      } else {
        currentUser := None;
        isAdmin := false;
      }
    }
  }
}
