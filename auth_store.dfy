/** The authentication store: three fields (`isAuthenticated`, `isLoading`,
    `user`), three setters, and four operations that ask the backend and
    update the fields only when it reports no error. The backend's answer
    is a parameter of each operation. */
module AuthStore {
  import opened Common

  datatype User = User(id: string, email: string)

  /** What the backend returns: the user (if any) and the message of the
      error it reported (if any). */
  datatype Response = Response(user: Option<User>, error: Option<string>)

  /** The store's fields as a value. */
  datatype Session = Session(isAuthenticated: bool, isLoading: bool, user: Option<User>)

  /** Not signed in, still loading, no user. */
  const Initial := Session(false, true, None)

  /** The store's operations, each with the backend's answer where it asks
      the backend. */
  datatype Op =
    | SetIsAuthenticated(value: bool)
    | SetIsLoading(value: bool)
    | SetUser(newUser: Option<User>)
    | SignIn(response: Response)
    | SignUp(response: Response)
    | SignOut(response: Response)
    | GetUser(response: Response)

  predicate AsksBackend(op: Op)
  {
    op.SignIn? || op.SignUp? || op.SignOut? || op.GetUser?
  }

  /** The session after one operation. */
  function Apply(s: Session, op: Op): (t: Session)
    ensures op.SetIsAuthenticated? ==> t == s.(isAuthenticated := op.value)
    ensures op.SetIsLoading? ==> t == s.(isLoading := op.value)
    ensures op.SetUser? ==> t == s.(user := op.newUser)
    ensures AsksBackend(op) && op.response.error.Some? ==> t == s
    ensures (op.SignIn? || op.SignUp?) && op.response.error.None? ==>
      t == Session(true, s.isLoading, op.response.user)
    ensures op.SignOut? && op.response.error.None? ==> t == Session(false, s.isLoading, None)
    ensures op.GetUser? && op.response.error.None? ==> t == s.(user := op.response.user)
  {
    match op
    case SetIsAuthenticated(value) => s.(isAuthenticated := value)
    case SetIsLoading(value) => s.(isLoading := value)
    case SetUser(newUser) => s.(user := newUser)
    case SignIn(response) =>
      if response.error.None? then s.(isAuthenticated := true, user := response.user) else s
    case SignUp(response) =>
      if response.error.None? then s.(isAuthenticated := true, user := response.user) else s
    case SignOut(response) =>
      if response.error.None? then s.(isAuthenticated := false, user := None) else s
    case GetUser(response) =>
      if response.error.None? then s.(user := response.user) else s
  }

  /** The session after a sequence of operations, first to last. */
  function ApplyAll(s: Session, ops: seq<Op>): Session
    decreases ops
  {
    if ops == [] then s else ApplyAll(Apply(s, ops[0]), ops[1..])
  }

  /** No operation but `setIsLoading` writes `isLoading`. */
  lemma OnlySetIsLoadingTouchesLoading(s: Session, op: Op)
    ensures !op.SetIsLoading? ==> Apply(s, op).isLoading == s.isLoading
  {
  }

  lemma {:induction false} LoadingUnchangedWithoutSetter(s: Session, ops: seq<Op>)
    requires forall i :: 0 <= i < |ops| ==> !ops[i].SetIsLoading?
    ensures ApplyAll(s, ops).isLoading == s.isLoading
    decreases ops
  {
    if ops != [] {
      OnlySetIsLoadingTouchesLoading(s, ops[0]);
      LoadingUnchangedWithoutSetter(Apply(s, ops[0]), ops[1..]);
    }
  }

  /** Failed backend calls change nothing, however many there are. */
  lemma {:induction false} FailuresChangeNothing(s: Session, ops: seq<Op>)
    requires forall i :: 0 <= i < |ops| ==> AsksBackend(ops[i]) && ops[i].response.error.Some?
    ensures ApplyAll(s, ops) == s
    decreases ops
  {
    if ops != [] {
      FailuresChangeNothing(Apply(s, ops[0]), ops[1..]);
    }
  }

  /** `getUser` refreshes the user but never signs in or out. */
  lemma GetUserKeepsAuthentication(s: Session, response: Response)
    ensures Apply(s, GetUser(response)).isAuthenticated == s.isAuthenticated
  {
  }

  /** A successful sign-out after a successful sign-in or sign-up leaves
      nobody signed in and no user, whatever the backend returned. */
  lemma SignOutUndoesSignIn(s: Session, signIn: Response, signOut: Response)
    requires signIn.error.None? && signOut.error.None?
    ensures ApplyAll(s, [SignIn(signIn), SignOut(signOut)]) == Session(false, s.isLoading, None)
    ensures ApplyAll(s, [SignUp(signIn), SignOut(signOut)]) == Session(false, s.isLoading, None)
  {
    var signedIn := Session(true, s.isLoading, signIn.user);
    assert [SignIn(signIn), SignOut(signOut)][1..] == [SignOut(signOut)];
    assert [SignUp(signIn), SignOut(signOut)][1..] == [SignOut(signOut)];
    assert ApplyAll(signedIn, [SignOut(signOut)]) == ApplyAll(Session(false, s.isLoading, None), []);
  }

  /** Signed out, there is no user. */
  predicate NoUserWhenSignedOut(s: Session)
  {
    !s.isAuthenticated ==> s.user.None?
  }

  /** Sign-in, sign-up and sign-out keep that property... */
  lemma SessionOpsKeepNoUserWhenSignedOut(s: Session, op: Op)
    requires NoUserWhenSignedOut(s)
    requires op.SignIn? || op.SignUp? || op.SignOut?
    ensures NoUserWhenSignedOut(Apply(s, op))
  {
  }

  /** ...but `getUser` does not: it stores the returned user without
      touching `isAuthenticated`, so a signed-out session can end up with a
      user. */
  lemma GetUserCanStoreUserWhenSignedOut(u: User)
    ensures NoUserWhenSignedOut(Initial)
    ensures !NoUserWhenSignedOut(Apply(Initial, GetUser(Response(Some(u), None))))
  {
  }

  /** The store object. Each method states the new fields as `Apply` of the
      old ones. */
  class Store {
    var isAuthenticated: bool
    var isLoading: bool
    var user: Option<User>

    function Fields(): Session
      reads this
    {
      Session(isAuthenticated, isLoading, user)
    }

    constructor ()
      ensures Fields() == Initial
    {
      isAuthenticated := false;
      isLoading := true;
      user := None;
    }

    method SetIsAuthenticated(value: bool)
      modifies this
      ensures Fields() == Apply(old(Fields()), Op.SetIsAuthenticated(value))
    {
      isAuthenticated := value;
    }

    method SetIsLoading(value: bool)
      modifies this
      ensures Fields() == Apply(old(Fields()), Op.SetIsLoading(value))
    {
      isLoading := value;
    }

    method SetUser(newUser: Option<User>)
      modifies this
      ensures Fields() == Apply(old(Fields()), Op.SetUser(newUser))
    {
      user := newUser;
    }

    /** Returns the backend's error message, or nothing on success. */
    method SignIn(response: Response) returns (error: Option<string>)
      modifies this
      ensures Fields() == Apply(old(Fields()), Op.SignIn(response))
      ensures error == response.error
    {
      if response.error.None? {
        isAuthenticated, user := true, response.user;
      }
      error := response.error;
    }

    method SignUp(response: Response) returns (error: Option<string>)
      modifies this
      ensures Fields() == Apply(old(Fields()), Op.SignUp(response))
      ensures error == response.error
    {
      if response.error.None? {
        isAuthenticated, user := true, response.user;
      }
      error := response.error;
    }

    method SignOut(response: Response) returns (error: Option<string>)
      modifies this
      ensures Fields() == Apply(old(Fields()), Op.SignOut(response))
      ensures error == response.error
    {
      if response.error.None? {
        isAuthenticated, user := false, None;
      }
      error := response.error;
    }

    /** Returns the backend's user, even on error, with its error message. */
    method GetUser(response: Response) returns (returned: Option<User>, error: Option<string>)
      modifies this
      ensures Fields() == Apply(old(Fields()), Op.GetUser(response))
      ensures returned == response.user && error == response.error
    {
      if response.error.None? {
        user := response.user;
      }
      returned, error := response.user, response.error;
    }
  }
}
