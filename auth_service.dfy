/**
 * `AuthService`: signs users in and out and registers new ones, over the
 * store's user map, keeping the session in a context replaced by record merge.
 * Passwords are accepted and ignored, as in the source.
 */
module Auth {
  import opened Wrappers
  import opened Keyed
  import opened Errors
  import opened UserModel
  import opened Db

  /** The session token. The source base64-encodes "<user id>:<ms>"; the model keeps both parts. */
  datatype Token = Token(userId: Id, issuedAt: Time)

  datatype AuthContext = AuthContext(currentUser: Option<User>, isAuthenticated: bool, token: Option<Token>) {
    /** Either signed in, with a user and a token issued to that user, or signed out with neither. */
    predicate Coherent() {
      && (isAuthenticated <==> currentUser.Some?)
      && (token.Some? <==> currentUser.Some?)
      && (token.Some? ==> token.value.userId == currentUser.value.id)
    }
  }

  /** `createDefaultAuthContext()`. */
  const DefaultContext := AuthContext(None, false, None)

  /** A `Partial<AuthContext>`: a field that is `None` is absent from the object literal. */
  datatype AuthPatch = AuthPatch(
    currentUser: Option<Option<User>>,
    isAuthenticated: Option<bool>,
    token: Option<Option<Token>>)

  /** `{ ...c, ...u }`: each field present in `u` replaces the one in `c`. */
  function Merge(c: AuthContext, u: AuthPatch): (r: AuthContext)
    ensures u == AuthPatch(None, None, None) ==> r == c
    // a field the patch sets takes the patch's value
    ensures
      && (u.currentUser.Some? ==> r.currentUser == u.currentUser.value)
      && (u.isAuthenticated.Some? ==> r.isAuthenticated == u.isAuthenticated.value)
      && (u.token.Some? ==> r.token == u.token.value)
    // a field the patch leaves out keeps the old value
    ensures
      && (u.currentUser.None? ==> r.currentUser == c.currentUser)
      && (u.isAuthenticated.None? ==> r.isAuthenticated == c.isAuthenticated)
      && (u.token.None? ==> r.token == c.token)
  {
    AuthContext(
      u.currentUser.GetOr(c.currentUser),
      u.isAuthenticated.GetOr(c.isAuthenticated),
      u.token.GetOr(c.token))
  }

  /** What `login` and `register` merge in: user `u`, authenticated, with a token issued now. */
  function SignIn(u: User, now: Time): AuthPatch {
    AuthPatch(Some(Some(u)), Some(true), Some(Some(Token(u.id, now))))
  }

  /** `createDefaultAuthContext()` used as a patch by `logout`: every field is present. */
  const SignOut := AuthPatch(Some(None), Some(false), Some(None))

  /**
   * Signing in and signing out overwrite the whole context, so both leave it
   * coherent whatever it held before; signing out restores the default.
   */
  lemma SessionPatches(c: AuthContext, u: User, now: Time)
    ensures Merge(c, SignIn(u, now)) == AuthContext(Some(u), true, Some(Token(u.id, now)))
    ensures Merge(c, SignIn(u, now)).Coherent()
    ensures Merge(c, SignOut) == DefaultContext && DefaultContext.Coherent()
  {
  }

  class AuthService {
    /** The shared store (`db`). */
    const db: Store
    var context: AuthContext

    constructor (db: Store)
      ensures this.db == db && context == DefaultContext
    {
      this.db := db;
      context := DefaultContext;
    }

    method UpdateContext(u: AuthPatch) returns (c: AuthContext)
      modifies this`context
      ensures context == Merge(old(context), u) && c == context
    {
      context := Merge(context, u);
      c := context;
    }

    /** Signs in as the first user with this email; an unknown email fails and changes nothing. */
    method Login(email: string, password: string, now: Time) returns (r: Result<AuthContext, Error>)
      requires db.Valid()
      modifies this`context
      ensures r.Err? <==> forall k | k in db.users :: db.users[k].email != email
      ensures r.Err? ==> r.error == UserNotFound(email) && context == old(context)
      ensures r.Ok? ==>
        && r.value == context
        && context.currentUser == FirstWithEmail(db.UserList(), email)
        && context.currentUser.Some?
        && var u := context.currentUser.value;
        && u.id in db.users && db.users[u.id] == u && u.email == email
        && context == AuthContext(Some(u), true, Some(Token(u.id, now)))
        && context.Coherent()
    {
      var u := db.FindUserByEmail(email);
      if u.None? {
        return Err(UserNotFound(email));
      }
      var c := UpdateContext(SignIn(u.value, now));
      return Ok(c);
    }

    /** Restores the signed-out default context. */
    method Logout() returns (c: AuthContext)
      modifies this`context
      ensures context == DefaultContext && c == context
    {
      c := UpdateContext(SignOut);
    }

    /**
     * Adds a customer with this email and name and signs in as them. An email
     * already in use fails and changes nothing, so emails stay unique.
     */
    method Register(email: string, name: string, password: string, now: Time)
      returns (r: Result<AuthContext, Error>)
      requires db.Valid()
      modifies this, db
      ensures db.Valid()
      ensures db.products == old(db.products) && db.productKeys == old(db.productKeys)
      ensures db.orders == old(db.orders) && db.orderKeys == old(db.orderKeys)
      ensures r.Err? <==> exists k | k in old(db.users) :: old(db.users)[k].email == email
      ensures r.Err? ==>
        && r.error == UserExists(email)
        && db.users == old(db.users) && db.userKeys == old(db.userKeys)
        && context == old(context)
      ensures r.Ok? ==>
        && r.value == context
        && context.currentUser.Some?
        && var u := context.currentUser.value;
        && u.id !in old(db.users)
        && u == User(u.id, email, name, Customer, now, now)
        && db.users == old(db.users)[u.id := u]
        && db.userKeys == old(db.userKeys) + [u.id]
        && context == AuthContext(Some(u), true, Some(Token(u.id, now)))
        && context.Coherent()
      ensures old(db.EmailsUnique()) ==> db.EmailsUnique()
    {
      var found := db.FindUserByEmail(email);
      if found.Some? {
        return Err(UserExists(email));
      }
      var u := db.CreateUser(email, name, Customer, now);
      var c := UpdateContext(SignIn(u, now));
      return Ok(c);
    }

    /** The signed-in user; on a coherent context, present exactly when authenticated. */
    function CurrentUser(): (r: Option<User>)
      reads this
      ensures r == context.currentUser
      ensures context.Coherent() ==> (r.Some? <==> context.isAuthenticated)
    {
      context.currentUser
    }

    /** Whether a user is signed in; on a coherent context, exactly when a token is held. */
    function IsAuthenticated(): (b: bool)
      reads this
      ensures b == context.isAuthenticated
      ensures context.Coherent() ==> (b <==> context.token.Some?)
    {
      context.isAuthenticated
    }
  }
}
