/**
 * The session of src/contexts/AuthContext.tsx: login against users then
 * administrators, signup with its conflict check, and the profile merge. The
 * router and `localStorage` are left out; the session user is a field.
 */
module AuthContext {
  import opened Wrappers
  import opened StoreTypes
  import Database

  datatype AuthUser = AuthUser(
    username: string,
    email: string,
    role: Role,
    name: string,
    surname: string,
    phoneNumber: string)

  /** `Partial<AuthUser>`: `None` for a field the patch does not carry. */
  datatype ProfilePatch = ProfilePatch(
    username: Option<string>,
    email: Option<string>,
    role: Option<Role>,
    name: Option<string>,
    surname: Option<string>,
    phoneNumber: Option<string>)

  /** Lines 52 and 56: the input is the email or the username, and the password is equal. */
  predicate Credentials(emailOrUsername: string, password: string, email: string, username: string, stored: string) {
    (email == emailOrUsername || username == emailOrUsername) && stored == password
  }

  predicate UserMatch(d: Store, e: string, emailOrUsername: string, password: string) {
    e in d.users && Credentials(emailOrUsername, password, d.users[e].email, d.users[e].username, d.users[e].password)
  }

  predicate AdminMatch(d: Store, e: string, emailOrUsername: string, password: string) {
    e in d.adminUsers
    && Credentials(emailOrUsername, password, d.adminUsers[e].email, d.adminUsers[e].username, d.adminUsers[e].password)
  }

  /** Lines 60-67. */
  function SessionOfUser(u: UserData): AuthUser {
    AuthUser(u.username, u.email, u.role, u.name, u.surname, u.phoneNumber)
  }

  /** Lines 73-80: administrators get empty name, surname and phone number. */
  function SessionOfAdmin(a: AdminUserData): AuthUser {
    AuthUser(a.username, a.email, Admin, "", "", "")
  }

  /** Line 108: the email is a key already, or some user has the username. */
  predicate SignupConflict(d: Store, email: string, username: string) {
    email in d.users || exists e :: e in d.users && d.users[e].username == username
  }

  /** Lines 112-123. */
  function NewUser(name: string, surname: string, username: string, email: string, phoneNumber: string, password: string): UserData {
    UserData(email, username, password, User, [], [], [], name, surname, phoneNumber)
  }

  /** Lines 125-131. */
  function SignupTransform(email: string, newUser: UserData, d: Store): Store {
    d.(users := d.users[email := newUser])
  }

  function SignupFn(email: string, newUser: UserData): Store -> Option<Store> {
    d => Some(SignupTransform(email, newUser, d))
  }

  /** Lines 149-152: `{ ...record, ...profileData }`. */
  function Merge(u: UserData, p: ProfilePatch): UserData {
    u.(username := p.username.GetOr(u.username),
       email := p.email.GetOr(u.email),
       role := p.role.GetOr(u.role),
       name := p.name.GetOr(u.name),
       surname := p.surname.GetOr(u.surname),
       phoneNumber := p.phoneNumber.GetOr(u.phoneNumber))
  }

  /** Line 162: `{ ...user, ...profileData }`. */
  function MergeSession(a: AuthUser, p: ProfilePatch): AuthUser {
    AuthUser(p.username.GetOr(a.username), p.email.GetOr(a.email), p.role.GetOr(a.role),
             p.name.GetOr(a.name), p.surname.GetOr(a.surname), p.phoneNumber.GetOr(a.phoneNumber))
  }

  /**
   * Lines 148-160: merge into the record stored under the session's email. A missing
   * record would become a fragment in the source; see the README.
   */
  function ProfileTransform(email: string, p: ProfilePatch, d: Store): Store {
    if email in d.users then d.(users := d.users[email := Merge(d.users[email], p)]) else d
  }

  function ProfileFn(email: string, p: ProfilePatch): Store -> Option<Store> {
    d => Some(ProfileTransform(email, p, d))
  }

  class AuthSession {
    var user: Option<AuthUser>
    const db: Database.StoreFile

    constructor (db: Database.StoreFile)
      ensures user.None? && this.db == db
    {
      user := None;
      this.db := db;
    }

    /**
     * Lines 48-90. The source takes the first match in insertion order; the model
     * takes some match. A regular user wins over an administrator.
     */
    method Login(emailOrUsername: string, password: string) returns (ok: bool)
      modifies this
      ensures var d := db.Read();
        ok <==> (exists e :: UserMatch(d, e, emailOrUsername, password))
                || (exists e :: AdminMatch(d, e, emailOrUsername, password))
      ensures var d := db.Read();
        (exists e :: UserMatch(d, e, emailOrUsername, password)) ==>
          exists e :: UserMatch(d, e, emailOrUsername, password) && user == Some(SessionOfUser(d.users[e]))
      ensures var d := db.Read();
        (forall e :: !UserMatch(d, e, emailOrUsername, password)) && (exists e :: AdminMatch(d, e, emailOrUsername, password)) ==>
          exists e :: AdminMatch(d, e, emailOrUsername, password) && user == Some(SessionOfAdmin(d.adminUsers[e]))
      ensures !ok ==> user == old(user)
    {
      var data := db.Read();
      if exists e :: e in data.users && UserMatch(data, e, emailOrUsername, password) {
        var e :| e in data.users && UserMatch(data, e, emailOrUsername, password);
        user := Some(SessionOfUser(data.users[e]));
        assert UserMatch(db.Read(), e, emailOrUsername, password);
        return true;
      }
      if exists e :: e in data.adminUsers && AdminMatch(data, e, emailOrUsername, password) {
        var e :| e in data.adminUsers && AdminMatch(data, e, emailOrUsername, password);
        user := Some(SessionOfAdmin(data.adminUsers[e]));
        assert AdminMatch(db.Read(), e, emailOrUsername, password);
        return true;
      }
      return false;
    }

    /** Lines 92-96, without the router and `localStorage`. */
    method Logout()
      modifies this
      ensures user.None?
    {
      user := None;
    }

    /**
     * Lines 98-142. Administrators are not consulted. The result is true even when
     * the write fails, because `updateDatabase` does not throw.
     */
    method Signup(name: string, surname: string, username: string, email: string, phoneNumber: string,
                  password: string, writeSucceeds: bool) returns (ok: bool)
      modifies this, db
      ensures ok <==> !SignupConflict(old(db.Read()), email, username)
      ensures !ok ==> db.file == old(db.file) && user == old(user)
      ensures ok ==>
        && db.file == Database.Update(old(db.file),
             SignupFn(email, NewUser(name, surname, username, email, phoneNumber, password)), writeSucceeds).0
        && user == Some(AuthUser(username, email, User, name, surname, phoneNumber))
    {
      var data := db.Read();
      if email in data.users || exists e :: e in data.users && data.users[e].username == username {
        return false;
      }
      var newUser := NewUser(name, surname, username, email, phoneNumber, password);
      var _ := db.UpdateDatabase(SignupFn(email, newUser), writeSucceeds);
      user := Some(AuthUser(username, email, User, name, surname, phoneNumber));
      ok := true;
    }

    /** Lines 144-170: false without a user; otherwise merge and report true. */
    method UpdateUserProfile(p: ProfilePatch, writeSucceeds: bool) returns (ok: bool)
      modifies this, db
      ensures ok <==> old(user).Some?
      ensures !ok ==> db.file == old(db.file) && user == old(user)
      ensures ok ==>
        && db.file == Database.Update(old(db.file), ProfileFn(old(user).value.email, p), writeSucceeds).0
        && user == Some(MergeSession(old(user).value, p))
    {
      if user.None? {
        return false;
      }
      var _ := db.UpdateDatabase(ProfileFn(user.value.email, p), writeSucceeds);
      user := Some(MergeSession(user.value, p));
      ok := true;
    }
  }

  /** A successful signup adds one record with role user and empty lists, and changes nothing else. */
  lemma SignupInsertsOne(d: Store, name: string, surname: string, username: string, email: string,
                         phoneNumber: string, password: string)
    requires !SignupConflict(d, email, username)
    ensures var u := NewUser(name, surname, username, email, phoneNumber, password);
      var d' := SignupTransform(email, u, d);
      && d'.users.Keys == d.users.Keys + {email}
      && |d'.users| == |d.users| + 1
      && d'.users[email].role == User
      && d'.users[email].orders == [] && d'.users[email].cart == [] && d'.users[email].addresses == []
      && (forall e :: e in d.users ==> d'.users[e] == d.users[e])
      && d'.adminUsers == d.adminUsers && d'.adminOrders == d.adminOrders
  {
    var u := NewUser(name, surname, username, email, phoneNumber, password);
    assert SignupTransform(email, u, d).users.Keys == d.users.Keys + {email};
  }

  /** After a signup the new user can log in with the email and the chosen password. */
  lemma SignupThenLogin(d: Store, name: string, surname: string, username: string, email: string,
                        phoneNumber: string, password: string)
    ensures var d' := SignupTransform(email, NewUser(name, surname, username, email, phoneNumber, password), d);
      UserMatch(d', email, email, password) && SessionOfUser(d'.users[email]) == AuthUser(username, email, User, name, surname, phoneNumber)
  {
  }

  /**
   * The profile merge keeps the stored record and the session in step: the record's
   * session view after the merge is the merged session.
   */
  lemma MergeCommutes(u: UserData, p: ProfilePatch)
    ensures SessionOfUser(Merge(u, p)) == MergeSession(SessionOfUser(u), p)
  {
  }

  /** A merge keeps the password, orders, cart and addresses, and only the other users' records. */
  lemma ProfileKeepsOthers(email: string, p: ProfilePatch, d: Store)
    ensures var d' := ProfileTransform(email, p, d);
      && d'.users.Keys == d.users.Keys
      && (forall e :: e in d.users && e != email ==> d'.users[e] == d.users[e])
      && (email in d.users ==>
            && d'.users[email].password == d.users[email].password
            && d'.users[email].orders == d.users[email].orders
            && d'.users[email].cart == d.users[email].cart
            && d'.users[email].addresses == d.users[email].addresses)
      && d'.adminUsers == d.adminUsers && d'.adminOrders == d.adminOrders
  {
  }

  /** Merging the same patch twice is merging it once; the empty patch changes nothing. */
  lemma MergeIdempotent(u: UserData, p: ProfilePatch)
    ensures Merge(Merge(u, p), p) == Merge(u, p)
    ensures Merge(u, ProfilePatch(None, None, None, None, None, None)) == u
  {
  }
}
