/**
 * The record the export builds for one user account (the private UserData class of
 * ExportUsersRolesCommand.cs) and the mapping from a directory user to it.
 */
module UserRecords {

  /** A role as the directory exposes it; the export reads only its local name. */
  datatype Role = Role(localName: string)

  /** A directory user account: the attributes the export reads from it. */
  datatype User = User(
    fullName: string,        // Profile.FullName
    email: string,           // Profile.Email
    localName: string,       // LocalName, the login
    domainName: string,      // GetDomainName()
    description: string,     // Description
    state: string,           // Profile.State
    isAdministrator: bool,   // IsAdministrator
    roles: seq<Role>)        // Roles, in enumeration order

  /** One exported row. */
  datatype UserData = UserData(
    name: string,
    email: string,
    login: string,
    domainName: string,
    description: string,
    state: string,
    isAdministrator: bool,
    roles: seq<string>)

  /** The role names collected by appending each role's local name in turn. */
  function RoleNames(roles: seq<Role>): (names: seq<string>)
    ensures |names| == |roles|
  {
    if roles == [] then [] else RoleNames(roles[..|roles| - 1]) + [roles[|roles| - 1].localName]
  }

  /** Collecting keeps one name per role, in order: no sorting and no removal of duplicates. */
  lemma {:induction false} RoleNamesAt(roles: seq<Role>)
    ensures |RoleNames(roles)| == |roles|
    ensures forall k :: 0 <= k < |roles| ==> RoleNames(roles)[k] == roles[k].localName
  {
    if roles != [] {
      RoleNamesAt(roles[..|roles| - 1]);
    }
  }

  /** The record the constructor UserData(User) builds: a field-by-field copy. */
  function ToUserData(u: User): (d: UserData)
    ensures d.name == u.fullName && d.email == u.email && d.login == u.localName
    ensures d.domainName == u.domainName && d.description == u.description && d.state == u.state
    ensures d.isAdministrator == u.isAdministrator
    ensures |d.roles| == |u.roles|
    ensures forall k :: 0 <= k < |u.roles| ==> d.roles[k] == u.roles[k].localName
  {
    RoleNamesAt(u.roles);
    UserData(u.fullName, u.email, u.localName, u.domainName, u.description, u.state,
             u.isAdministrator, RoleNames(u.roles))
  }

  /** The constructor UserData(User): copy the fields, then append the roles one by one. */
  method NewUserData(u: User) returns (d: UserData)
    ensures d == ToUserData(u)
  {
    d := UserData(u.fullName, u.email, u.localName, u.domainName, u.description, u.state,
                  u.isAdministrator, []);
    for k := 0 to |u.roles|
      invariant d == ToUserData(u).(roles := RoleNames(u.roles[..k]))
    {
      assert u.roles[..k + 1][..k] == u.roles[..k];
      d := d.(roles := d.roles + [u.roles[k].localName]);
    }
    assert u.roles[..|u.roles|] == u.roles;
  }

  /** The records of a domain's users, one per user and in enumeration order. */
  function UserDatas(users: seq<User>): (ds: seq<UserData>)
    ensures |ds| == |users|
    ensures forall j :: 0 <= j < |users| ==> ds[j] == ToUserData(users[j])
  {
    seq(|users|, j requires 0 <= j < |users| => ToUserData(users[j]))
  }

  /** Materialising the users' records into a list (Select followed by ToList). */
  method CollectUserDatas(users: seq<User>) returns (ds: seq<UserData>)
    ensures ds == UserDatas(users)
  {
    ds := [];
    for j := 0 to |users|
      invariant ds == UserDatas(users[..j])
    {
      var d := NewUserData(users[j]);
      ds := ds + [d];
    }
    assert users[..|users|] == users;
  }
}
