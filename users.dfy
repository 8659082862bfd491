/** The user registry (UserService). */
module Users {
  import opened Common

  datatype User = User(id: UId, username: string, email: string, role: string)

  /** What a create request supplies; `None` is a null role. */
  datatype NewUser = NewUser(username: string, email: string, role: Option<string>)

  /** The table after a registration attempt, and what it returned. */
  datatype Enrolment = Enrolment(users: map<UId, User>, result: Result<User>)

  /** Every user is stored under its own id, and no two users share a
      username or an email. */
  ghost predicate Registered(users: map<UId, User>) {
    (forall id :: id in users ==> users[id].id == id) &&
    (forall a, b :: a in users && b in users && users[a].username == users[b].username ==> a == b) &&
    (forall a, b :: a in users && b in users && users[a].email == users[b].email ==> a == b)
  }

  predicate UsernameTaken(users: map<UId, User>, username: string) {
    exists id :: id in users && users[id].username == username
  }

  predicate EmailTaken(users: map<UId, User>, email: string) {
    exists id :: id in users && users[id].email == email
  }

  /** createUser on values: the username is checked first, then the email;
      the role defaults to USER; `id` is the id the store assigns. */
  function Register(users: map<UId, User>, id: UId, request: NewUser): Enrolment {
    if UsernameTaken(users, request.username) then
      Enrolment(users, Err(BadRequest("Username already exists: " + request.username)))
    else if EmailTaken(users, request.email) then
      Enrolment(users, Err(BadRequest("Email already exists: " + request.email)))
    else
      var user := User(id, request.username, request.email, request.role.GetOr("USER"));
      Enrolment(users[id := user], Ok(user))
  }

  /** findByUsername: with usernames unique the match is the one user
      carrying `username`. */
  function ByUsername(users: map<UId, User>, username: string): (r: Result<User>)
    requires Registered(users)
    ensures r.Ok? <==> UsernameTaken(users, username)
    ensures r.Ok? ==> r.value.id in users && users[r.value.id] == r.value && r.value.username == username
    ensures r.Err? ==> r.error == NotFound("User")
  {
    if UsernameTaken(users, username) then
      var id :| id in users && users[id].username == username;
      Ok(users[id])
    else Err(NotFound("User"))
  }

  // ---------------------------------------------------------------------
  // Lemmas

  /** createUser succeeds exactly when neither the username nor the email is
      taken, reports the username clash before the email clash, and on
      success adds exactly one user, carrying the request's fields and the
      given or default role. A failure stores nothing. */
  lemma RegisterIff(users: map<UId, User>, id: UId, request: NewUser)
    requires Registered(users) && id !in users
    ensures var e := Register(users, id, request);
      e.result.Ok? <==> !UsernameTaken(users, request.username) && !EmailTaken(users, request.email)
    ensures var e := Register(users, id, request);
      UsernameTaken(users, request.username) ==>
        e == Enrolment(users, Err(BadRequest("Username already exists: " + request.username)))
    ensures var e := Register(users, id, request);
      e.result.Err? ==> e.users == users
    ensures var e := Register(users, id, request);
      e.result.Ok? ==>
        e.users.Keys == users.Keys + {id} && |e.users| == |users| + 1 &&
        (forall other :: other in users ==> e.users[other] == users[other]) &&
        e.result.value == User(id, request.username, request.email,
                               if request.role.Some? then request.role.value else "USER")
  {
    if !UsernameTaken(users, request.username) && !EmailTaken(users, request.email) {
      var user := User(id, request.username, request.email, request.role.GetOr("USER"));
      assert Register(users, id, request) == Enrolment(users[id := user], Ok(user));
    }
  }

  /** Registration keeps usernames and emails unique. */
  lemma RegisterKeepsRegistered(users: map<UId, User>, id: UId, request: NewUser)
    requires Registered(users) && id !in users
    ensures Registered(Register(users, id, request).users)
  {
  }

  /** A registered user is then found by id and by username. */
  lemma RegisterThenFind(users: map<UId, User>, id: UId, request: NewUser)
    requires Registered(users) && id !in users
    requires Register(users, id, request).result.Ok?
    ensures var e := Register(users, id, request);
      Registered(e.users) && id in e.users && e.users[id] == e.result.value &&
      ByUsername(e.users, request.username) == Ok(e.result.value)
  {
    RegisterKeepsRegistered(users, id, request);
    var e := Register(users, id, request);
    assert e.users[id].username == request.username;
  }

  // ---------------------------------------------------------------------
  // The service

  class UserService {
    var users: map<UId, User>

    ghost predicate Valid()
      reads this
    {
      Registered(users)
    }

    constructor ()
      ensures Valid() && users == map[]
    {
      users := map[];
    }

    /** createUser; `id` is the fresh id the store assigns on save. */
    method CreateUser(id: UId, request: NewUser) returns (r: Result<User>)
      requires Valid() && id !in users
      modifies this
      ensures Valid()
      ensures Enrolment(users, r) == Register(old(users), id, request)
    {
      RegisterKeepsRegistered(users, id, request);
      if exists k :: k in users && users[k].username == request.username {
        return Err(BadRequest("Username already exists: " + request.username));
      }
      if exists k :: k in users && users[k].email == request.email {
        return Err(BadRequest("Email already exists: " + request.email));
      }
      var user := User(id, request.username, request.email, request.role.GetOr("USER"));
      users := users[id := user];
      r := Ok(user);
    }

    /** getUserById and findUserById. */
    function GetUserById(id: UId): (r: Result<User>)
      reads this
      ensures r.Ok? <==> id in users
      ensures r.Ok? ==> r.value == users[id]
      ensures r.Err? ==> r.error == NotFound("User")
    {
      if id in users then Ok(users[id]) else Err(NotFound("User"))
    }

    /** getUserByUsername. */
    function GetUserByUsername(username: string): (r: Result<User>)
      requires Valid()
      reads this
      ensures r.Ok? <==> exists id :: id in users && users[id].username == username
      ensures r.Ok? ==> r.value in users.Values && r.value.username == username
      ensures r.Err? ==> r.error == NotFound("User")
    {
      ByUsername(users, username)
    }

    /** userExists. */
    function UserExists(id: UId): (r: bool)
      reads this
      ensures r <==> id in users
    {
      id in users
    }
  }
}
