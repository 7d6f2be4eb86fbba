/** The staff login route (`POST /api/auth/login`): a first-match lookup of the posted
    email and password in the fixed user table, answered with the user minus its
    password, a 401, or a 500 when the body cannot be read. */
module Login {
  import opened Common
  import opened Seqs

  datatype User = User(id: string, email: string, password: string, role: string, name: string)

  /** What the route sends back for a user: every field but the password. */
  datatype PublicUser = PublicUser(id: string, email: string, role: string, name: string)

  /** `USERS`, in table order. */
  const Users: seq<User> := [
    User("1", "admin@tms.com", "admin123", Admin, "Admin User"),
    User("2", "ops@tms.com", "ops123", Operations, "Operations Manager"),
    User("3", "acc@tms.com", "acc123", Accounts, "Accounts Executive"),
    User("4", "trans@tms.com", "trans123", Transport, "Transport Coordinator")
  ]

  /** The destructured request body. A field that is missing or not a string is `None`;
      such a field is never strictly equal to a stored string. */
  datatype Credentials = Credentials(email: Option<string>, password: Option<string>)

  datatype Body = UserBody(user: PublicUser) | ErrorBody(error: string)

  datatype Response = Response(status: int, body: Body)

  /** `u.email === email && u.password === password` */
  function Matches(c: Credentials): User -> bool
  {
    (u: User) => c.email == Some(u.email) && c.password == Some(u.password)
  }

  /** `const { password: _, ...userWithoutPassword } = user` */
  function Strip(u: User): (r: PublicUser)
    ensures r.id == u.id && r.email == u.email && r.role == u.role && r.name == u.name
  {
    PublicUser(u.id, u.email, u.role, u.name)
  }

  /** The handler. `None` stands for a body that `request.json()` rejects or that cannot
      be destructured; the `catch` turns it into a 500. */
  function Post(body: Option<Credentials>): Response
  {
    match body
    case None => Response(500, ErrorBody("Internal server error"))
    case Some(c) =>
      var k := FindFirst(Users, Matches(c));
      if k == -1 then Response(401, ErrorBody("Invalid email or password"))
      else Response(200, UserBody(Strip(Users[k])))
  }

  /** Login succeeds exactly when some table entry has both the posted email and the
      posted password; the user returned is the first such entry, without its password.
      No match is a 401 and an unreadable body a 500, each with its fixed message. */
  lemma PostSpec(body: Option<Credentials>)
    ensures Post(body).status == 200 <==>
      body.Some? && exists k :: 0 <= k < |Users| && Matches(body.value)(Users[k])
    ensures Post(body).status == 200 ==>
      exists k :: 0 <= k < |Users| && Matches(body.value)(Users[k]) &&
        Post(body).body == UserBody(Strip(Users[k])) &&
        forall j :: 0 <= j < k ==> !Matches(body.value)(Users[j])
    ensures Post(body).status == 401 <==>
      body.Some? && forall k :: 0 <= k < |Users| ==> !Matches(body.value)(Users[k])
    ensures Post(body).status == 401 ==> Post(body).body == ErrorBody("Invalid email or password")
    ensures Post(body).status == 500 <==> body.None?
    ensures Post(body).status == 500 ==> Post(body).body == ErrorBody("Internal server error")
  {
    if body.Some? {
      var k := FindFirst(Users, Matches(body.value));
      if k != -1 {
        assert Matches(body.value)(Users[k]);
      }
    }
  }

  /** The table holds one account per role, under four distinct emails. */
  lemma OneAccountPerRole()
    ensures forall i, j :: 0 <= i < j < |Users| ==> Users[i].email != Users[j].email
    ensures forall i, j :: 0 <= i < j < |Users| ==> Users[i].role != Users[j].role
    ensures forall r :: r in [Admin, Operations, Accounts, Transport] <==>
      exists k :: 0 <= k < |Users| && Users[k].role == r
  {
    assert Users[0].role == Admin && Users[1].role == Operations;
    assert Users[2].role == Accounts && Users[3].role == Transport;
  }

  /** Since the emails are distinct, at most one entry matches, so "first match" never
      has to choose. */
  lemma MatchIsUnique(c: Credentials, i: int, j: int)
    requires 0 <= i < |Users| && 0 <= j < |Users|
    requires Matches(c)(Users[i]) && Matches(c)(Users[j])
    ensures i == j
  {
    OneAccountPerRole();
    assert Users[i].email == Users[j].email;
  }

  /** Every account logs in with its own email and password and comes back as itself. */
  lemma OwnCredentialsLogIn(k: int)
    requires 0 <= k < |Users|
    ensures Post(Some(Credentials(Some(Users[k].email), Some(Users[k].password)))) ==
      Response(200, UserBody(Strip(Users[k])))
  {
    var c := Credentials(Some(Users[k].email), Some(Users[k].password));
    assert Matches(c)(Users[k]);
    var f := FindFirst(Users, Matches(c));
    MatchIsUnique(c, f, k);
  }

  /** The four demo accounts log in with their roles. */
  lemma DemoLogins()
    ensures Post(Some(Credentials(Some("admin@tms.com"), Some("admin123")))) ==
      Response(200, UserBody(PublicUser("1", "admin@tms.com", Admin, "Admin User")))
    ensures Post(Some(Credentials(Some("ops@tms.com"), Some("ops123")))).body == UserBody(Strip(Users[1]))
    ensures Post(Some(Credentials(Some("acc@tms.com"), Some("acc123")))).body == UserBody(Strip(Users[2]))
    ensures Post(Some(Credentials(Some("trans@tms.com"), Some("trans123")))).body == UserBody(Strip(Users[3]))
  {
    OwnCredentialsLogIn(0);
    OwnCredentialsLogIn(1);
    OwnCredentialsLogIn(2);
    OwnCredentialsLogIn(3);
  }

  /** The admin email with any other password is refused. */
  lemma WrongPasswordRefused(wrong: string)
    requires wrong != "admin123"
    ensures Post(Some(Credentials(Some("admin@tms.com"), Some(wrong)))) ==
      Response(401, ErrorBody("Invalid email or password"))
  {
    var bad := Credentials(Some("admin@tms.com"), Some(wrong));
    OneAccountPerRole();
    assert !Matches(bad)(Users[0]);
    PostSpec(Some(bad));
  }
}
