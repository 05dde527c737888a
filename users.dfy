/** The user directory of the users microservice (`UserServiceImpl`): a table
    of user records keyed by id, with creation, full and partial updates, role
    changes, deletion, and the login and logout checks. */
module UserDirectory {
  import opened Common

  type UserId = nat

  /** The role enumeration. Its declaration is not part of this model; the
      service names `USER`, and `ADMIN` stands for the other member. */
  datatype Role = USER | ADMIN

  /** The name under which each role member is declared. */
  function RoleName(role: Role): string
  {
    match role
    case USER => "USER"
    case ADMIN => "ADMIN"
  }

  /** `Role.valueOf(name)`: the member declared under exactly `name`, or
      `None` where Java throws `IllegalArgumentException`. */
  function ParseRole(name: string): (r: Option<Role>)
    ensures forall role :: r == Some(role) <==> RoleName(role) == name
  {
    if name == "USER" then Some(USER)
    else if name == "ADMIN" then Some(ADMIN)
    else None
  }

  /** A stored user record. `password` holds the encoder's output; `role` is
      nullable in the entity. */
  datatype User = User(
    id: UserId,
    username: string,
    email: string,
    password: string,
    telephone: string,
    role: Option<Role>)

  /** The input of `createUser` (`UserCreationDTO`). */
  datatype UserCreationDto = UserCreationDto(
    username: string,
    email: string,
    password: string,
    telephone: string)

  /** The `UserDTO` input of `updateUser`, also nested in a partial update;
      every field may be null. */
  datatype UserDto = UserDto(
    userId: Option<UserId>,
    username: Option<string>,
    email: Option<string>,
    password: Option<string>,
    telephone: Option<string>)

  /** The input of `updateAllUser`: an optional nested `UserDTO` and optional
      top-level fields. */
  datatype UserUpdateDto = UserUpdateDto(
    userDto: Option<UserDto>,
    username: Option<string>,
    email: Option<string>,
    password: Option<string>,
    telephone: Option<string>,
    role: Option<Role>)

  datatype AuthDto = AuthDto(username: string, password: string)

  datatype LogoutDto = LogoutDto(username: string)

  /** What the mappers make of a stored record. The mappers are not part of
      this model, so a view carries the whole record and nothing is claimed
      about which fields the wire form keeps. */
  datatype UserView = UserView(of: User)
  datatype LoginView = LoginView(of: User)
  datatype LogoutView = LogoutView(of: User)

  /** The password encoder: a one-way `encode` and the check `matches(raw,
      encoded)`. Hashing and salting are not modelled. */
  datatype PasswordEncoder = PasswordEncoder(
    encode: string -> string,
    matches: (string, string) -> bool)

  /** The one property the service relies on: a password matches its own
      encoding. */
  ghost predicate Sound(e: PasswordEncoder)
  {
    forall raw :: e.matches(raw, e.encode(raw))
  }

  const UserNotFound: Error := Runtime("User not found")
  const UserIdMissing: Error := Runtime("User ID is missing")
  const RoleNotFound: Error := Runtime("Role not found")

  /** The single error of login and logout, whichever credential was wrong. */
  const AuthenticationFailed: Error :=
    ApiException("Authentication failed", ["Invalid username or password."], NOT_FOUND)

  predicate HasUsername(users: map<UserId, User>, name: string)
  {
    exists id :: id in users && users[id].username == name
  }

  predicate HasEmail(users: map<UserId, User>, email: string)
  {
    exists id :: id in users && users[id].email == email
  }

  /** At most one stored record has the given username. The service does not
      enforce this; it is a hypothesis of the statements that need it. */
  ghost predicate UsernameUnique(users: map<UserId, User>, name: string)
  {
    forall i, j :: i in users && j in users && users[i].username == name && users[j].username == name ==> i == j
  }

  /** Some stored record has the given username and a password the given raw
      password matches. */
  ghost predicate CredentialsMatch(users: map<UserId, User>, e: PasswordEncoder, auth: AuthDto)
  {
    exists id :: id in users && users[id].username == auth.username && e.matches(auth.password, users[id].password)
  }

  /** A nested `UserDTO` that is null sets no field, like one whose fields are
      all null. */
  function NestedOrUnset(d: Option<UserDto>): UserDto
  {
    if d.Some? then d.value else UserDto(None, None, None, None, None)
  }

  function EncodedOr(e: PasswordEncoder, raw: Option<string>, otherwise: string): string
  {
    if raw.Some? then e.encode(raw.value) else otherwise
  }

  /** The record a partial update leaves behind, stated field by field as a
      precedence rule: the top-level value if set, otherwise the nested
      DTO's value if set, otherwise the stored value (a password is stored
      encoded). The role changes only through the top-level field; the id is
      kept. */
  function Merged(u: User, upd: UserUpdateDto, e: PasswordEncoder): User
  {
    var n := NestedOrUnset(upd.userDto);
    User(
      u.id,
      Prefer(upd.username, Prefer(n.username, u.username)),
      Prefer(upd.email, Prefer(n.email, u.email)),
      EncodedOr(e, upd.password, EncodedOr(e, n.password, u.password)),
      Prefer(upd.telephone, Prefer(n.telephone, u.telephone)),
      if upd.role.Some? then upd.role else u.role)
  }

  /** The service over its repository, which is the map `users`; `nextId` is
      the id the repository hands out on the next insertion. */
  class UserService {
    var users: map<UserId, User>
    var nextId: UserId
    const encoder: PasswordEncoder

    /** Every record is stored under its own id, every id is below the next
        one to be handed out, and the encoder is sound. */
    ghost predicate Valid()
      reads this
    {
      && Sound(encoder)
      && forall id :: id in users ==> users[id].id == id && id < nextId
    }

    constructor (encoder: PasswordEncoder)
      requires Sound(encoder)
      ensures Valid() && this.encoder == encoder && users == map[]
    {
      this.encoder := encoder;
      users := map[];
      nextId := 1;
    }

    /** `getAllUsers`: every stored record, each the one stored under its id. */
    function GetAllUsers(): (r: set<User>)
      reads this
      requires Valid()
      ensures forall u :: u in r <==> u.id in users && users[u.id] == u
    {
      users.Values
    }

    /** `getUserById`: the stored record, or "User not found". */
    function GetUserById(id: UserId): (r: Result<User>)
      reads this
      ensures r.Ok? <==> id in users
      ensures r.Ok? ==> r.value == users[id]
      ensures r.Err? ==> r.error == UserNotFound
    {
      if id in users then Ok(users[id]) else Err(UserNotFound)
    }

    /** `findByUsername`: some record with that username, or null when there
        is none. Which one, when several share it, is the repository's
        choice. */
    method FindByUsername(name: string) returns (r: Option<User>)
      ensures r.None? <==> !HasUsername(users, name)
      ensures r.Some? ==> r.value in users.Values && r.value.username == name
    {
      if id :| id in users && users[id].username == name {
        r := Some(users[id]);
      } else {
        r := None;
      }
    }

    /** `findByEmail`: some record with that email, or null when there is
        none. */
    method FindByEmail(email: string) returns (r: Option<User>)
      ensures r.None? <==> !HasEmail(users, email)
      ensures r.Some? ==> r.value in users.Values && r.value.email == email
    {
      if id :| id in users && users[id].email == email {
        r := Some(users[id]);
      } else {
        r := None;
      }
    }

    /** `createUser`: stores a new record under a fresh id, with the encoded
        password (never the raw one) and the role USER, since the creation
        input carries no role. */
    method CreateUser(dto: UserCreationDto) returns (view: UserView)
      requires Valid()
      modifies this
      ensures Valid() && nextId > old(nextId)
      ensures view.of.id !in old(users) && users == old(users)[view.of.id := view.of]
      ensures view.of.username == dto.username && view.of.email == dto.email
      ensures view.of.telephone == dto.telephone
      ensures view.of.password == encoder.encode(dto.password)
      ensures view.of.role == Some(USER)
      ensures encoder.matches(dto.password, view.of.password)
      ensures GetUserById(view.of.id) == Ok(view.of)
    {
      // The mapped entity has no role, since the creation input has none; the
      // repository assigns the id when the entity is saved.
      var id := nextId;
      var entity := User(id, dto.username, dto.email, dto.password, dto.telephone, None);
      entity := entity.(password := encoder.encode(entity.password));
      if entity.role.None? {
        entity := entity.(role := Some(USER));
      }
      users := users[id := entity];
      nextId := nextId + 1;
      view := UserView(entity);
    }

    /** `updateUser`: fails without an id or for an unknown id, changing
        nothing; otherwise overwrites username, email and telephone,
        re-encodes the password, and keeps the id and the role. */
    method UpdateUser(dto: UserDto) returns (r: Result<UserView>)
      requires Valid()
      requires dto.username.Some? && dto.email.Some? && dto.password.Some? && dto.telephone.Some?
      modifies this
      ensures Valid() && nextId == old(nextId)
      ensures dto.userId.None? ==> r == Err(UserIdMissing)
      ensures dto.userId.Some? && dto.userId.value !in old(users) ==> r == Err(UserNotFound)
      ensures r.Ok? <==> dto.userId.Some? && dto.userId.value in old(users)
      ensures r.Err? ==> users == old(users)
      ensures r.Ok? ==>
        var id := dto.userId.value;
        && id in users
        && users == old(users)[id := users[id]]
        && users[id] == User(id, dto.username.value, dto.email.value, encoder.encode(dto.password.value),
                             dto.telephone.value, old(users)[id].role)
        && encoder.matches(dto.password.value, users[id].password)
        && r.value == UserView(users[id])
    {
      if dto.userId.None? {
        return Err(UserIdMissing);
      }
      var id := dto.userId.value;
      if id !in users {
        return Err(UserNotFound);
      }
      var entity := users[id];
      entity := entity.(username := dto.username.value);
      entity := entity.(email := dto.email.value);
      entity := entity.(password := encoder.encode(dto.password.value));
      entity := entity.(telephone := dto.telephone.value);
      users := users[id := entity];
      return Ok(UserView(entity));
    }

    /** `deleteUser`: removes the record if there is one; afterwards the id is
        not found. */
    method DeleteUser(id: UserId)
      requires Valid()
      modifies this
      ensures Valid() && nextId == old(nextId)
      ensures users == old(users) - {id}
      ensures GetUserById(id) == Err(UserNotFound)
    {
      users := users - {id};
    }

    /** `assignRole`: "User not found" for an unknown id, then "Role not
        found" for a name that is not a role, both changing nothing;
        otherwise sets exactly that record's role. */
    method AssignRole(id: UserId, roleName: string) returns (r: Result<UserView>)
      requires Valid()
      modifies this
      ensures Valid() && nextId == old(nextId)
      ensures id !in old(users) ==> r == Err(UserNotFound)
      ensures id in old(users) && ParseRole(roleName).None? ==> r == Err(RoleNotFound)
      ensures r.Ok? <==> id in old(users) && ParseRole(roleName).Some?
      ensures r.Err? ==> users == old(users)
      ensures r.Ok? ==>
        && id in old(users)
        && users == old(users)[id := old(users)[id].(role := ParseRole(roleName))]
        && r.value == UserView(users[id])
    {
      if id !in users {
        return Err(UserNotFound);
      }
      var entity := users[id];
      var role := ParseRole(roleName);
      if role.None? {
        return Err(RoleNotFound);
      }
      entity := entity.(role := role);
      users := users[id := entity];
      return Ok(UserView(entity));
    }

    /** `updateUserRole`: null, changing nothing, for an unknown id; otherwise
        sets exactly that record's role to the given (possibly null) role. */
    method UpdateUserRole(id: UserId, role: Option<Role>) returns (r: Option<UserView>)
      requires Valid()
      modifies this
      ensures Valid() && nextId == old(nextId)
      ensures r.None? <==> id !in old(users)
      ensures r.None? ==> users == old(users)
      ensures r.Some? ==>
        && users == old(users)[id := old(users)[id].(role := role)]
        && r.value == UserView(users[id])
    {
      if id in users {
        var user := users[id];
        user := user.(role := role);
        users := users[id := user];
        return Some(UserView(user));
      }
      return None;
    }

    /** `updateAllUser`: "User not found", changing nothing, for an unknown
        id; otherwise applies the nested DTO's set fields, then the set
        top-level fields, and stores the record `Merged` describes. */
    method UpdateAllUser(id: UserId, upd: UserUpdateDto) returns (r: Result<UserView>)
      requires Valid()
      modifies this
      ensures Valid() && nextId == old(nextId)
      ensures r.Err? <==> id !in old(users)
      ensures r.Err? ==> r.error == UserNotFound && users == old(users)
      ensures r.Ok? ==>
        && users == old(users)[id := Merged(old(users)[id], upd, encoder)]
        && r.value == UserView(users[id])
    {
      if id !in users {
        return Err(UserNotFound);
      }
      var user := users[id];
      ghost var stored, nestedOrUnset := user, NestedOrUnset(upd.userDto);
      if upd.userDto.Some? {
        var nested := upd.userDto.value;
        if nested.username.Some? {
          user := user.(username := nested.username.value);
        }
        if nested.email.Some? {
          user := user.(email := nested.email.value);
        }
        if nested.password.Some? {
          user := user.(password := encoder.encode(nested.password.value));
        }
        if nested.telephone.Some? {
          user := user.(telephone := nested.telephone.value);
        }
      }
      assert user == stored.(
        username := Prefer(nestedOrUnset.username, stored.username),
        email := Prefer(nestedOrUnset.email, stored.email),
        password := EncodedOr(encoder, nestedOrUnset.password, stored.password),
        telephone := Prefer(nestedOrUnset.telephone, stored.telephone));
      if upd.email.Some? {
        user := user.(email := upd.email.value);
      }
      if upd.password.Some? {
        user := user.(password := encoder.encode(upd.password.value));
      }
      if upd.telephone.Some? {
        user := user.(telephone := upd.telephone.value);
      }
      if upd.username.Some? {
        user := user.(username := upd.username.value);
      }
      if upd.role.Some? {
        user := user.(role := upd.role);
      }
      assert user == Merged(stored, upd, encoder);
      users := users[id := user];
      return Ok(UserView(user));
    }

    /** `login`: fails with the one generic error when no record has the
        username or when the password does not match the record found;
        otherwise returns that record. When at most one record has the username it succeeds
        exactly when the credentials match a stored record. */
    method Login(auth: AuthDto) returns (r: Result<LoginView>)
      ensures r.Err? ==> r.error == AuthenticationFailed
      ensures !HasUsername(users, auth.username) ==> r.Err?
      ensures r.Ok? ==>
        && r.value.of in users.Values
        && r.value.of.username == auth.username
        && encoder.matches(auth.password, r.value.of.password)
      ensures UsernameUnique(users, auth.username) ==> (r.Ok? <==> CredentialsMatch(users, encoder, auth))
    {
      var user := FindByUsername(auth.username);
      if user.None? || !encoder.matches(auth.password, user.value.password) {
        return Err(AuthenticationFailed);
      }
      return Ok(LoginView(user.value));
    }

    /** `logout`: fails with the same generic error as login when no record has
        the username; otherwise saves the record back unmodified, so the
        table is unchanged. */
    method Logout(dto: LogoutDto) returns (r: Result<LogoutView>)
      requires Valid()
      modifies this
      ensures Valid() && users == old(users) && nextId == old(nextId)
      ensures r.Err? <==> !HasUsername(users, dto.username)
      ensures r.Err? ==> r.error == AuthenticationFailed
      ensures r.Ok? ==> r.value.of in users.Values && r.value.of.username == dto.username
    {
      var user := FindByUsername(dto.username);
      if user.None? {
        return Err(AuthenticationFailed);
      }
      users := users[user.value.id := user.value];
      return Ok(LogoutView(user.value));
    }
  }

  /** A newly created user can log in with the password given at creation,
      provided no other record has the same username. */
  method CreatedUserCanLogIn(service: UserService, dto: UserCreationDto) returns (r: Result<LoginView>)
    requires service.Valid()
    requires !HasUsername(service.users, dto.username)
    modifies service
    ensures service.Valid()
    ensures r.Ok? && r.value.of.username == dto.username && r.value.of.role == Some(USER)
  {
    var view := service.CreateUser(dto);
    r := service.Login(AuthDto(dto.username, dto.password));
  }
}
