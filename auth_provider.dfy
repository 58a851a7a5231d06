/**
 * The JWT authentication provider: a reducer over the session state with the
 * actions INITIALIZE, SIGN_IN and SIGN_OUT, and the session-storage protocol
 * around it (the token under 'accessToken', the signed-in user under 'me').
 */
module AuthProvider {
  import opened Common
  import opened Users

  const TokenStorageKey := "accessToken"
  const StorageUserKey := "me"

  /** The authentication state the provider exposes. */
  datatype State = State(isAuthenticated: bool, isInitialized: bool, user: Option<User>)

  /** The dispatched actions; `UnknownAction` is any action type without a handler. */
  datatype Action =
    | InitializeAction(isAuthenticated: bool, user: Option<User>)
    | SignInAction(signedInUser: User)
    | SignOutAction
    | UnknownAction(kind: string)

  /** The reducer: the handler for the action's type, or the state unchanged when there is none. */
  function Reduce(state: State, action: Action): (r: State)
    ensures action.InitializeAction? ==>
      r.isInitialized && r.isAuthenticated == action.isAuthenticated && r.user == action.user
    ensures action.SignInAction? ==>
      r.isAuthenticated && r.user == Some(action.signedInUser) && r.isInitialized == state.isInitialized
    ensures action.SignOutAction? ==>
      !r.isAuthenticated && r.user == None && r.isInitialized == state.isInitialized
    ensures action.UnknownAction? ==> r == state
  {
    match action
    case InitializeAction(isAuthenticated, user) =>
      state.(isAuthenticated := isAuthenticated, isInitialized := true, user := user)
    case SignInAction(user) =>
      state.(isAuthenticated := true, user := Some(user))
    case SignOutAction =>
      state.(isAuthenticated := false, user := None)
    case UnknownAction(_) =>
      state
  }

  /** The state after dispatching `actions` in order. */
  function ReduceAll(state: State, actions: seq<Action>): State
    decreases |actions|
  {
    if actions == [] then state else ReduceAll(Reduce(state, actions[0]), actions[1..])
  }

  /** No action ever clears `isInitialized`. */
  lemma {:induction false} InitializedIsSticky(state: State, actions: seq<Action>)
    requires state.isInitialized
    ensures ReduceAll(state, actions).isInitialized
    decreases |actions|
  {
    if actions != [] {
      InitializedIsSticky(Reduce(state, actions[0]), actions[1..]);
    }
  }

  /** Once an INITIALIZE has been dispatched, the state stays initialized. */
  lemma {:induction false} InitializeAnywhereInitializes(state: State, actions: seq<Action>, i: nat)
    requires i < |actions| && actions[i].InitializeAction?
    ensures ReduceAll(state, actions).isInitialized
    decreases |actions|
  {
    if i == 0 {
      InitializedIsSticky(Reduce(state, actions[0]), actions[1..]);
    } else {
      InitializeAnywhereInitializes(Reduce(state, actions[0]), actions[1..], i - 1);
    }
  }

  /** Signing out twice is the same as signing out once, and undoes any sign-in before it. */
  lemma SignOutAbsorbs(state: State, user: User)
    ensures Reduce(Reduce(state, SignOutAction), SignOutAction) == Reduce(state, SignOutAction)
    ensures Reduce(Reduce(state, SignInAction(user)), SignOutAction) == Reduce(state, SignOutAction)
  {
  }

  /** What `JSON.parse` makes of the stored user text: an exception, or a user or `null`. */
  datatype Parsed = Malformed | Json(user: Option<User>)

  /** `sessionStorage.getItem`. */
  function Lookup(session: map<string, string>, key: string): (r: Option<string>)
    ensures r.Some? <==> key in session
    ensures r.Some? ==> r.value == session[key]
  {
    if key in session then Some(session[key]) else None
  }

  /** A stored string is truthy when it is present and not empty. */
  predicate Truthy(item: Option<string>)
  {
    item.Some? && item.value != ""
  }

  /**
   * The INITIALIZE action `initialize` dispatches for the stored session;
   * `parse` stands for `JSON.parse`, whose exception leads to the catch branch.
   */
  function InitialAction(session: map<string, string>, parse: string -> Parsed): (r: Action)
    ensures r.InitializeAction?
    ensures r.isAuthenticated <==>
      Truthy(Lookup(session, TokenStorageKey))
      && !(Truthy(Lookup(session, StorageUserKey)) && parse(session[StorageUserKey]).Malformed?)
    ensures !r.isAuthenticated ==> r.user == None
    ensures r.user.Some? <==>
      r.isAuthenticated && Truthy(Lookup(session, StorageUserKey))
      && parse(session[StorageUserKey]).Json? && parse(session[StorageUserKey]).user.Some?
    ensures r.user.Some? ==> r.user == parse(session[StorageUserKey]).user
  {
    var accessToken := Lookup(session, TokenStorageKey);
    if Truthy(accessToken) then
      var userData := Lookup(session, StorageUserKey);
      if !Truthy(userData) then InitializeAction(true, None)
      else
        match parse(userData.value)
        case Malformed => InitializeAction(false, None)
        case Json(user) => InitializeAction(true, user)
    else InitializeAction(false, None)
  }

  /** The sign-in response fields the provider reads. */
  datatype SignInResponse = SignInResponse(accessToken: string, id: Option<string>, email: string, name: string, role: Role)

  /** The user `signIn` builds from the response: no password and no avatar. */
  function SessionUser(response: SignInResponse): (user: User)
    ensures user.id == response.id && user.email == response.email
    ensures user.name == response.name && user.role == response.role
    ensures user.password == None && user.avatar == None
  {
    User(response.id, response.email, response.name, response.role, None, None)
  }

  /**
   * Signing out removes only the token, so a later `initialize` finds the
   * session unauthenticated although the stored user is still there.
   */
  lemma SignOutThenInitialize(session: map<string, string>, parse: string -> Parsed)
    ensures StorageUserKey in session ==> StorageUserKey in session - {TokenStorageKey}
    ensures InitialAction(session - {TokenStorageKey}, parse) == InitializeAction(false, None)
  {
  }

  /**
   * After signing in with a non-empty token, `initialize` restores the signed-in
   * user, provided parsing undoes stringifying for that user.
   */
  lemma SignInThenInitialize(session: map<string, string>, response: SignInResponse,
                             stringify: User -> string, parse: string -> Parsed)
    requires response.accessToken != ""
    requires stringify(SessionUser(response)) != ""
    requires parse(stringify(SessionUser(response))) == Json(Some(SessionUser(response)))
    ensures InitialAction(session[TokenStorageKey := response.accessToken]
                                 [StorageUserKey := stringify(SessionUser(response))], parse)
         == InitializeAction(true, Some(SessionUser(response)))
  {
  }

  /** An empty token from the server leaves a later `initialize` unauthenticated. */
  lemma EmptyTokenDoesNotPersist(session: map<string, string>, response: SignInResponse,
                                 stringify: User -> string, parse: string -> Parsed)
    requires response.accessToken == ""
    ensures !InitialAction(session[TokenStorageKey := response.accessToken]
                                  [StorageUserKey := stringify(SessionUser(response))], parse).isAuthenticated
  {
  }

  /** The provider: the reducer's state and the browser's session storage. */
  class Provider {
    var state: State
    var session: map<string, string>

    /** `initial` is the context's initial state, `session0` what session storage already holds. */
    constructor(initial: State, session0: map<string, string>)
      ensures state == initial && session == session0
    {
      state := initial;
      session := session0;
    }

    method Initialize(parse: string -> Parsed)
      modifies this
      ensures session == old(session)
      ensures state == Reduce(old(state), InitialAction(old(session), parse))
    {
      var accessToken := Lookup(session, TokenStorageKey);
      var action;
      if Truthy(accessToken) {
        var userData := Lookup(session, StorageUserKey);
        if Truthy(userData) {
          var parsed := parse(userData.value);
          if parsed.Malformed? {
            action := InitializeAction(false, None);
          } else {
            action := InitializeAction(true, parsed.user);
          }
        } else {
          action := InitializeAction(true, None);
        }
      } else {
        action := InitializeAction(false, None);
      }
      state := Reduce(state, action);
    }

    /** `stringify` stands for `JSON.stringify`; the request itself is a parameter (`response`). */
    method SignIn(response: SignInResponse, stringify: User -> string)
      modifies this
      ensures session == old(session)[TokenStorageKey := response.accessToken]
                                     [StorageUserKey := stringify(SessionUser(response))]
      ensures state == Reduce(old(state), SignInAction(SessionUser(response)))
    {
      var user := SessionUser(response);
      session := session[TokenStorageKey := response.accessToken];
      session := session[StorageUserKey := stringify(user)];
      state := Reduce(state, SignInAction(user));
    }

    method SignOut()
      modifies this
      ensures session == old(session) - {TokenStorageKey}
      ensures state == Reduce(old(state), SignOutAction)
    {
      session := session - {TokenStorageKey};
      state := Reduce(state, SignOutAction);
    }
  }
}
