/**
 * The mock authentication API: a user list persisted under one storage key,
 * seeded with default users, with credential checking on sign-in, duplicate
 * rejection on sign-up and the searchable user list.
 */
module AuthApi {
  import opened Common
  import opened Users
  import opened Query
  import opened Listing

  /**
   * The users the store is seeded with. Those records name their identifier
   * `id` rather than `_id`, so their `_id` is absent.
   */
  const DefaultUsers: seq<User> := [
    User(None, "hr@test.com", "Habib ABIDI", Admin, Some("Password123!"), None),
    User(None, "resp@test.com", "Amjed ABIDI", ProjectManager, Some("Password123!"), None),
    User(None, "manager@test.com", "Farouk LABIDI", Manager, Some("Password123!"), None),
    User(None, "dev@test.com", "dev SMART", Developper, Some("Password123!"), None)
  ]

  /**
   * What the storage key 'users' holds: nothing (or the empty string), a list
   * that parses, or text that does not parse.
   */
  datatype StoredUsers = Absent | Held(users: seq<User>) | Unreadable

  /** The list `getPersistedUsers` returns for what is stored. */
  function PersistedUsers(stored: StoredUsers): (users: seq<User>)
    ensures stored.Absent? ==> users == DefaultUsers
    ensures stored.Held? ==> users == stored.users
    ensures stored.Unreadable? ==> users == []
  {
    match stored
    case Absent => DefaultUsers
    case Held(us) => us
    case Unreadable => []
  }

  /** The test `user => user.email === email`. */
  function HasEmail(email: string): User -> bool
  {
    (user: User) => user.email == email
  }

  /** `find(user => user.email === email)`, as a position. */
  function FirstWithEmail(users: seq<User>, email: string): (r: Option<nat>)
    ensures r.Some? ==> r.value < |users| && users[r.value].email == email
    ensures r.Some? ==> forall j :: 0 <= j < r.value ==> users[j].email != email
    ensures r.None? <==> forall u :: u in users ==> u.email != email
  {
    FirstWhere(users, HasEmail(email))
  }

  /** The claims an access token is signed over: the `_id` of the user. */
  datatype Token = Token(userId: Option<string>)

  const CredentialsError := "Please check your email and password"
  const DuplicateError := "User already exists"

  /**
   * The sign-in decision: the first user with the email must exist and carry
   * exactly the given password; the token is issued for that user.
   */
  function CheckCredentials(users: seq<User>, email: string, password: string): (r: Result<Token>)
    ensures r.Err? <==> (FirstWithEmail(users, email).None?
                         || users[FirstWithEmail(users, email).value].password != Some(password))
    ensures r.Err? ==> r.message == CredentialsError
    ensures r.Ok? ==> r.value == Token(users[FirstWithEmail(users, email).value].id)
  {
    match FirstWithEmail(users, email)
    case None => Err(CredentialsError)
    case Some(k) =>
      if users[k].password != Some(password) then Err(CredentialsError)
      else Ok(Token(users[k].id))
  }

  /** The user record sign-up creates. */
  function NewUser(id: string, email: string, name: string, password: string, role: Role): User
  {
    User(Some(id), email, name, role, Some(password), None)
  }

  /**
   * The sign-up decision: any user with the email rejects the request;
   * otherwise the stored list becomes the old list with the new user appended.
   */
  function Register(users: seq<User>, email: string, name: string, password: string, role: Role, id: string)
    : (r: Result<seq<User>>)
    ensures r.Err? <==> exists u :: u in users && u.email == email
    ensures r.Err? ==> r.message == DuplicateError
    ensures r.Ok? ==> |r.value| == |users| + 1 && r.value[..|users|] == users
    ensures r.Ok? ==> r.value[|users|] == NewUser(id, email, name, password, role)
  {
    if FirstWithEmail(users, email).Some? then Err(DuplicateError)
    else Ok(users + [NewUser(id, email, name, password, role)])
  }

  /** No two users share an email. */
  ghost predicate UniqueEmails(users: seq<User>)
  {
    forall i, j :: 0 <= i < j < |users| ==> users[i].email != users[j].email
  }

  /**
   * With nothing stored, every default user signs in with the default
   * password, and since those records carry no `_id` the token names no user.
   */
  lemma DefaultUsersSignIn(i: nat)
    requires i < |DefaultUsers|
    ensures CheckCredentials(PersistedUsers(Absent), DefaultUsers[i].email, "Password123!") == Ok(Token(None))
  {
  }

  /** After a successful sign-up, signing in with the same email and password succeeds, for the new user. */
  lemma SignUpThenSignIn(users: seq<User>, email: string, name: string, password: string, role: Role, id: string)
    requires Register(users, email, name, password, role, id).Ok?
    ensures CheckCredentials(Register(users, email, name, password, role, id).value, email, password)
         == Ok(Token(Some(id)))
  {
    FirstWhereAppend(users, [NewUser(id, email, name, password, role)], HasEmail(email));
  }

  /** Sign-up never introduces a second user with the same email. */
  lemma SignUpKeepsEmailsUnique(users: seq<User>, email: string, name: string, password: string, role: Role, id: string)
    requires UniqueEmails(users)
    requires Register(users, email, name, password, role, id).Ok?
    ensures UniqueEmails(Register(users, email, name, password, role, id).value)
  {
  }

  /** With unique emails, sign-in succeeds exactly when some user has that email and password. */
  lemma CredentialsWithUniqueEmails(users: seq<User>, email: string, password: string)
    requires UniqueEmails(users)
    ensures CheckCredentials(users, email, password).Ok?
        <==> exists u :: u in users && u.email == email && u.password == Some(password)
  {
  }

  /** The searchable fields of a user: email, name and role. */
  function UserFields(user: User): seq<string>
  {
    [user.email, user.name, RoleName(user.role)]
  }

  /** With a non-empty query, exactly the users whose email, name or role contains it are kept. */
  lemma FilteredUsers(users: seq<User>, filters: Option<Filters>)
    ensures IsSubsequence(Matching(users, UserFields, filters), users)
    ensures !QueryActive(filters) ==> Matching(users, UserFields, filters) == users
    ensures QueryActive(filters) ==>
      var q := filters.value.query.value;
      forall u :: u in Matching(users, UserFields, filters)
        <==> u in users && (FieldMatches(u.email, q) || FieldMatches(u.name, q) || FieldMatches(RoleName(u.role), q))
    ensures QueryActive(filters) ==>
      var q := filters.value.query.value;
      forall u :: multiset(Matching(users, UserFields, filters))[u]
        == if FieldMatches(u.email, q) || FieldMatches(u.name, q) || FieldMatches(RoleName(u.role), q)
           then multiset(users)[u] else 0
  {
    MatchingMembers(users, UserFields, filters);
    MatchingCounts(users, UserFields, filters);
    if QueryActive(filters) {
      var q := filters.value.query.value;
      forall u ensures AnyFieldMatches(UserFields(u), q)
                   <==> (FieldMatches(u.email, q) || FieldMatches(u.name, q) || FieldMatches(RoleName(u.role), q)) {
        var f := UserFields(u);
        assert f[1..] == [u.name, RoleName(u.role)];
        assert f[1..][1..] == [RoleName(u.role)];
        assert f[1..][1..][1..] == [];
        assert AnyFieldMatches(f[1..][1..], q) == FieldMatches(RoleName(u.role), q);
        assert AnyFieldMatches(f[1..], q) == (FieldMatches(u.name, q) || AnyFieldMatches(f[1..][1..], q));
      }
    }
  }

  /** The store behind the API: the value of the storage key 'users'. */
  class UserStore {
    var stored: StoredUsers

    constructor(initial: StoredUsers)
      ensures stored == initial
    {
      stored := initial;
    }

    /** Reads the list, seeding storage with the default users when nothing is stored. */
    method GetPersistedUsers() returns (users: seq<User>)
      modifies this
      ensures users == PersistedUsers(old(stored))
      ensures stored == if old(stored).Absent? then Held(DefaultUsers) else old(stored)
    {
      match stored
      case Absent =>
        stored := Held(DefaultUsers);
        users := DefaultUsers;
      case Held(us) =>
        users := us;
      case Unreadable =>
        users := [];
    }

    /** Writes back the current list with `user` appended (an unreadable list is replaced). */
    method PersistUser(user: User)
      modifies this
      ensures stored == Held(PersistedUsers(old(stored)) + [user])
    {
      var usersData := GetPersistedUsers();
      stored := Held(usersData + [user]);
    }

    method SignIn(email: string, password: string) returns (r: Result<Token>)
      modifies this
      ensures r == CheckCredentials(PersistedUsers(old(stored)), email, password)
      ensures PersistedUsers(stored) == PersistedUsers(old(stored))
    {
      var users := GetPersistedUsers();
      var found := FirstWithEmail(users, email);
      if found.None? || users[found.value].password != Some(password) {
        r := Err(CredentialsError);
        return;
      }
      r := Ok(Token(users[found.value].id));
    }

    /** `newId` is the identifier the resource-id generator would produce. */
    method SignUp(email: string, name: string, password: string, role: Role, newId: string)
      returns (r: Result<Token>)
      modifies this
      ensures Register(PersistedUsers(old(stored)), email, name, password, role, newId).Err? ==>
                r == Err(DuplicateError) && PersistedUsers(stored) == PersistedUsers(old(stored))
      ensures Register(PersistedUsers(old(stored)), email, name, password, role, newId).Ok? ==>
                r == Ok(Token(Some(newId)))
                && stored == Held(Register(PersistedUsers(old(stored)), email, name, password, role, newId).value)
    {
      var users := GetPersistedUsers();
      if FirstWithEmail(users, email).Some? {
        r := Err(DuplicateError);
        return;
      }
      var user := NewUser(newId, email, name, password, role);
      PersistUser(user);
      r := Ok(Token(user.id));
    }

    /** The user list: `count` is fixed by the filter stage, before sorting and pagination. */
    method GetUsers(request: Request,
                    applySort: (seq<User>, string, SortDir) -> seq<User>,
                    applyPagination: (seq<User>, int, int) -> seq<User>)
      returns (response: Response<User>)
      modifies this
      ensures PersistedUsers(stored) == PersistedUsers(old(stored))
      ensures request.filters.None? ==> response.count == |PersistedUsers(old(stored))|
      ensures response.count == |Matching(PersistedUsers(old(stored)), UserFields, request.filters)|
      ensures response.data
           == Arrange(Matching(PersistedUsers(old(stored)), UserFields, request.filters), request, applySort, applyPagination)
    {
      var users := GetPersistedUsers();
      response := GetPage(users, UserFields, request, applySort, applyPagination);
    }

    method SaveUser(user: User)
      modifies this
      ensures stored == Held(PersistedUsers(old(stored)) + [user])
    {
      PersistUser(user);
    }
  }
}
