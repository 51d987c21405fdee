/**
 * The user and token documents of the customer-facing shop
 * (src/models/User.js, src/models/Token.js): the fields, what the schema
 * validates, the `username` and `email` unique indexes and the soft-delete
 * find filter. The stored password is the bcrypt hash, an opaque string here.
 */
module NcbdUser {
  import opened Common

  const Customer := "customer"
  const Admin := "admin"
  const SuperAdmin := "superadmin"
  const Roles: set<string> := {Customer, Admin, SuperAdmin}

  const MinPasswordLength := 6

  datatype User = User(
    username: string,
    email: string,
    password: string,
    roles: seq<string>,
    isVerified: bool,
    isDeleted: bool)

  datatype TokenType = EmailVerification | PasswordReset

  /** A one-hour token; its expiry is left to the database. */
  datatype Token = Token(userId: nat, token: string, kind: TokenType, createdAt: int)

  /** The unanchored pattern `\S+@\S+\.\S+`: somewhere, a non-space, `@`, one or more non-spaces, `.`, a non-space. */
  predicate EmailMatches(s: string) {
    exists a, d :: 1 <= a && a + 2 <= d && d + 1 < |s| && !IsJsSpace(s[a - 1]) && s[a] == '@'
                   && NoSpaceBetween(s, a, d) && s[d] == '.' && !IsJsSpace(s[d + 1])
  }

  /** No white space strictly between positions `a` and `d`. */
  predicate NoSpaceBetween(s: string, a: int, d: int)
    requires 0 <= a && d <= |s|
  {
    forall k :: a < k < d ==> !IsJsSpace(s[k])
  }

  lemma EmailPatternAccepts()
    ensures EmailMatches("a@b.c")
  {
    var s := "a@b.c";
    assert 1 <= 1 && 1 + 2 <= 3 && 3 + 1 < |s| && !IsJsSpace(s[0]) && s[1] == '@'
           && NoSpaceBetween(s, 1, 3) && s[3] == '.' && !IsJsSpace(s[4]);
  }

  /** A domain needs a dot with a character on each side. */
  lemma EmailPatternNeedsDot()
    ensures !EmailMatches("a@b")
  {
  }

  /** An address without `@` is rejected. */
  lemma EmailPatternNeedsAt(s: string)
    requires '@' !in s
    ensures !EmailMatches(s)
  {
  }

  /** The pattern is not anchored: white space before the local part's last character is accepted. */
  lemma EmailPatternUnanchored()
    ensures EmailMatches("a b@c.d")
  {
    var s := "a b@c.d";
    assert 1 <= 3 && 3 + 2 <= 5 && 5 + 1 < |s| && !IsJsSpace(s[2]) && s[3] == '@'
           && NoSpaceBetween(s, 3, 5) && s[5] == '.' && !IsJsSpace(s[6]);
  }

  predicate RolesValid(roles: seq<string>) {
    forall k :: 0 <= k < |roles| ==> roles[k] in Roles
  }

  /** Everything the schema checks when a user is saved with validation. */
  predicate UserSchemaValid(u: User) {
    u.username != [] && u.email != [] && EmailMatches(u.email) && |u.password| >= MinPasswordLength && RolesValid(u.roles)
  }

  /** The `/^find/` filter. */
  predicate UserFound(users: seq<User>, id: nat) {
    id < |users| && !users[id].isDeleted
  }

  /** The `username` and `email` unique indexes, over deleted users too. */
  predicate UserIndexesUnique(users: seq<User>) {
    forall i, j :: 0 <= i < j < |users| ==> users[i].username != users[j].username && users[i].email != users[j].email
  }

  /** Every user passes the schema; stated on the prefixes so that the email pattern is unfolded only where a proof asks. */
  predicate AllSchemaValid(users: seq<User>)
    decreases |users|
  {
    users == [] || (AllSchemaValid(users[..|users| - 1]) && UserSchemaValid(users[|users| - 1]))
  }

  lemma {:induction false} AllSchemaValidAt(users: seq<User>, i: nat)
    requires AllSchemaValid(users) && i < |users|
    ensures UserSchemaValid(users[i])
    decreases |users|
  {
    if i < |users| - 1 {
      AllSchemaValidAt(users[..|users| - 1], i);
    }
  }

  predicate StoredUsersValid(users: seq<User>) {
    UserIndexesUnique(users) && AllSchemaValid(users)
  }

  lemma {:induction false} ChangeKeepsSchemaValid(users: seq<User>, id: nat, u: User)
    requires AllSchemaValid(users) && id < |users| && UserSchemaValid(u)
    ensures AllSchemaValid(users[id := u])
    decreases |users|
  {
    var r := users[id := u];
    var n := |users| - 1;
    if id < n {
      assert r[..n] == users[..n][id := u];
      ChangeKeepsSchemaValid(users[..n], id, u);
    } else {
      assert r[..n] == users[..n];
    }
  }

  /** A change to one user that keeps the indexed fields and passes the schema keeps the collection valid. */
  lemma ChangeUserKeepsValid(users: seq<User>, id: nat, u: User)
    requires StoredUsersValid(users) && id < |users|
    requires u.username == users[id].username && u.email == users[id].email && UserSchemaValid(u)
    ensures StoredUsersValid(users[id := u])
  {
    var r := users[id := u];
    forall i, j | 0 <= i < j < |r| ensures r[i].username != r[j].username && r[i].email != r[j].email {
      assert users[i].username != users[j].username && users[i].email != users[j].email;
    }
    ChangeKeepsSchemaValid(users, id, u);
  }

  /** The unique indexes admit a new user. */
  predicate UserFree(users: seq<User>, u: User) {
    forall j :: 0 <= j < |users| ==> users[j].username != u.username && users[j].email != u.email
  }

  lemma AppendUserKeepsValid(users: seq<User>, u: User)
    requires StoredUsersValid(users) && UserFree(users, u) && UserSchemaValid(u)
    ensures StoredUsersValid(users + [u])
  {
    assert (users + [u])[..|users|] == users;
  }
}
