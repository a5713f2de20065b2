/**
 * The user routes (backend/routes/user_routes.py): the `admin_required` gate, the
 * `login` decision tree and the `get_all_users` listing, over the `user` table as a
 * sequence of rows in table order. The bcrypt comparison is a parameter `checkpw`.
 */
module UserRoutes {
  import opened Common

  /** A row of the `role` table. */
  datatype Role = Role(id: int, roleName: string)

  /** A row of the `user` table with its role relationship (`None` when it has none). */
  datatype User = User(
    id: int, firstname: Option<string>, lastname: Option<string>,
    username: string, password: Option<string>, role: Option<Role>)

  const AdminRoleName := "Admin"
  const DefaultRoleName := "User"
  const AdminRightsRequired := "Administration rights required"
  const InvalidUserContext := "Invalid user context."
  const MissingCredentials := "Missing username or password"
  const InvalidCredentials := "Invalid username or password"
  const LoginSuccessful := "Login successful"

  /** What `admin_required` does with a request. */
  datatype GateDecision =
    | RunHandler
    | Forbidden(code: int, msg: string)
    | ServerError(code: int, msg: string)

  /**
   * `User.query.get(id)`: the user with that primary key, if any. It has the shape of
   * `CameraRoutes.FindLocation`; the two route modules model separate tables and neither
   * imports the other.
   */
  function FindUserById(users: seq<User>, id: int): (r: Option<User>)
    ensures r.Some? ==> r.value in users && r.value.id == id
    ensures r.None? ==> forall i :: 0 <= i < |users| ==> users[i].id != id
    decreases |users|
  {
    if users == [] then None
    else if users[0].id == id then Some(users[0])
    else FindUserById(users[1..], id)
  }

  /** `User.query.filter_by(username=name).first()`: the first user with that name, if any. */
  function FindUserByName(users: seq<User>, name: string): (r: Option<nat>)
    ensures r.Some? ==> r.value < |users| && users[r.value].username == name
    ensures r.Some? ==> forall i :: 0 <= i < r.value ==> users[i].username != name
    ensures r.None? ==> forall i :: 0 <= i < |users| ==> users[i].username != name
    decreases |users|
  {
    if users == [] then None
    else if users[0].username == name then Some(0)
    else match FindUserByName(users[1..], name)
      case None => None
      case Some(k) => Some(k + 1)
  }

  /** The role name reported for a user: its role's name, or 'User' without a role. */
  function RoleNameOf(u: User): (r: string)
    ensures u.role.None? ==> r == DefaultRoleName
    ensures u.role.Some? ==> r == u.role.value.roleName
  {
    match u.role
    case None => DefaultRoleName
    case Some(role) => role.roleName
  }

  /** The user exists, has a role, and the role is exactly 'Admin'. */
  predicate IsAdmin(u: Option<User>) {
    u.Some? && u.value.role.Some? && u.value.role.value.roleName == AdminRoleName
  }

  /** `admin_required`, for the token's identity string. */
  function AdminRequired(identity: string, users: seq<User>): (r: GateDecision)
    ensures ParseInt(identity).None? <==> r == ServerError(500, InvalidUserContext)
    ensures r.ServerError? <==> !IntSyntax(identity)
    ensures r == RunHandler <==> ParseInt(identity).Some? && IsAdmin(FindUserById(users, ParseInt(identity).value))
    ensures r.Forbidden? <==> ParseInt(identity).Some? && !IsAdmin(FindUserById(users, ParseInt(identity).value))
    ensures r.Forbidden? ==> r == Forbidden(403, AdminRightsRequired)
  {
    match ParseInt(identity)
    case None => ServerError(500, InvalidUserContext)
    case Some(userId) =>
      if IsAdmin(FindUserById(users, userId)) then RunHandler
      else Forbidden(403, AdminRightsRequired)
  }

  /** The fields `login` reads from the JSON body; a missing key is `None`. */
  datatype LoginRequest = LoginRequest(username: Option<string>, password: Option<string>)

  /** A `login` reply; a success carries the identity the access token is created for. */
  datatype LoginReply =
    | LoginOk(code: int, message: string, userId: int, username: string, role: string, tokenIdentity: string)
    | LoginError(code: int, message: string)

  /** `login`. `checkpw(password, hash)` is the bcrypt comparison. */
  function Login(req: LoginRequest, users: seq<User>, checkpw: (string, string) -> bool): (r: LoginReply)
    // a missing or empty field: 400
    ensures !TruthyText(req.username) || !TruthyText(req.password) <==> r == LoginError(400, MissingCredentials)
    // 200 only for the first user with that name, with a stored hash the password matches
    ensures r.LoginOk? <==>
      && TruthyText(req.username) && TruthyText(req.password)
      && FindUserByName(users, req.username.value).Some?
      && var u := users[FindUserByName(users, req.username.value).value];
      && TruthyText(u.password) && checkpw(req.password.value, u.password.value)
    ensures r.LoginOk? ==>
      var u := users[FindUserByName(users, req.username.value).value];
      r == LoginOk(200, LoginSuccessful, u.id, u.username, RoleNameOf(u), IntToDecimal(u.id))
    // every other failure is the same 401, whatever went wrong
    ensures r.LoginError? && r.code != 400 ==> r == LoginError(401, InvalidCredentials)
  {
    if !TruthyText(req.username) || !TruthyText(req.password) then
      LoginError(400, MissingCredentials)
    else
      match FindUserByName(users, req.username.value)
      case None => LoginError(401, InvalidCredentials)
      case Some(k) =>
        var u := users[k];
        if TruthyText(u.password) && checkpw(req.password.value, u.password.value) then
          LoginOk(200, LoginSuccessful, u.id, u.username, RoleNameOf(u), IntToDecimal(u.id))
        else LoginError(401, InvalidCredentials)
  }

  /** An unknown user name and a wrong password give identical replies. */
  lemma UnknownUserLooksLikeWrongPassword(
    users: seq<User>, checkpw: (string, string) -> bool, name: string, password: string, k: nat)
    requires name != "" && password != ""
    requires FindUserByName(users, name) == Some(k)
    requires users[k].password.Some? ==> !checkpw(password, users[k].password.value)
    ensures Login(LoginRequest(Some(name), Some(password)), users, checkpw)
         == Login(LoginRequest(Some(name), Some(password)), RemoveUsersNamed(users, name), checkpw)
  {
    RemoveUsersNamedDropsName(users, name);
  }

  /** The table without the users of a given name. */
  function RemoveUsersNamed(users: seq<User>, name: string): (r: seq<User>)
    ensures forall u :: u in r <==> u in users && u.username != name
    decreases |users|
  {
    if users == [] then []
    else if users[0].username == name then RemoveUsersNamed(users[1..], name)
    else [users[0]] + RemoveUsersNamed(users[1..], name)
  }

  /** Nobody of that name is left to find. */
  lemma RemoveUsersNamedDropsName(users: seq<User>, name: string)
    ensures FindUserByName(RemoveUsersNamed(users, name), name).None?
  {
    var r := RemoveUsersNamed(users, name);
    forall i | 0 <= i < |r| ensures r[i].username != name {
      assert r[i] in r;
    }
  }

  /** One entry of the `get_all_users` list. */
  datatype UserEntry = UserEntry(
    id: int, username: string, firstname: Option<string>, lastname: Option<string>,
    role: string, userId: int)

  /** The list body of `get_all_users`: one entry per user, in table order. */
  method GetAllUsers(users: seq<User>) returns (userList: seq<UserEntry>)
    ensures |userList| == |users|
    ensures forall i :: 0 <= i < |users| ==>
      && userList[i].id == users[i].id && userList[i].userId == users[i].id
      && userList[i].username == users[i].username
      && userList[i].firstname == users[i].firstname && userList[i].lastname == users[i].lastname
      && userList[i].role == RoleNameOf(users[i])
  {
    userList := [];
    var i := 0;
    while i < |users|
      invariant 0 <= i <= |users|
      invariant |userList| == i
      invariant forall k :: 0 <= k < i ==>
        userList[k] == UserEntry(users[k].id, users[k].username, users[k].firstname,
                                 users[k].lastname, RoleNameOf(users[k]), users[k].id)
    {
      var user := users[i];
      var roleName := if user.role.Some? then user.role.value.roleName else DefaultRoleName;
      userList := userList + [UserEntry(user.id, user.username, user.firstname, user.lastname, roleName, user.id)];
      i := i + 1;
    }
  }

  /** The `/users` route: the admin gate, then the listing. */
  method GetAllUsersRoute(identity: string, users: seq<User>) returns (gate: GateDecision, userList: seq<UserEntry>)
    ensures gate == AdminRequired(identity, users)
    ensures gate != RunHandler ==> userList == []
    ensures gate == RunHandler ==>
      && |userList| == |users|
      && (forall i :: 0 <= i < |users| ==> userList[i].id == users[i].id == userList[i].userId)
  {
    gate := AdminRequired(identity, users);
    if gate == RunHandler {
      userList := GetAllUsers(users);
    } else {
      userList := [];
    }
  }

  /** Primary keys are distinct. */
  predicate UniqueIds(users: seq<User>) {
    forall i, j :: 0 <= i < j < |users| ==> users[i].id != users[j].id
  }

  /**
   * The token issued by a successful login passes the admin gate exactly when the user who
   * logged in is an admin: `int(str(user.id))` finds that same user again.
   */
  lemma LoginTokenPassesGateIffAdmin(req: LoginRequest, users: seq<User>, checkpw: (string, string) -> bool)
    requires UniqueIds(users)
    requires Login(req, users, checkpw).LoginOk?
    ensures var k := FindUserByName(users, req.username.value).value;
      AdminRequired(Login(req, users, checkpw).tokenIdentity, users) == RunHandler <==> IsAdmin(Some(users[k]))
  {
    var k := FindUserByName(users, req.username.value).value;
    var u := users[k];
    ParseIntOfDecimal(u.id);
    FindByIdOfUniqueMember(users, k);
  }

  /** With distinct keys, looking up a member's key finds that member. */
  lemma {:induction false} FindByIdOfUniqueMember(users: seq<User>, k: nat)
    requires UniqueIds(users) && k < |users|
    ensures FindUserById(users, users[k].id) == Some(users[k])
    decreases k
  {
    if k > 0 {
      assert users[0].id != users[k].id;
      assert UniqueIds(users[1..]) by {
        forall i, j | 0 <= i < j < |users[1..]| ensures users[1..][i].id != users[1..][j].id {
          assert users[1..][i] == users[i + 1] && users[1..][j] == users[j + 1];
        }
      }
      FindByIdOfUniqueMember(users[1..], k - 1);
    }
  }
}
