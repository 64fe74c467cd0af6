// The values the users controller works on: the user record, the request
// parameters it reads, the site configuration, strong-parameter filtering and
// the XML rendering of a record.
module Records {

  datatype Option<T> = None | Some(value: T)

  /** A user record: the attributes `User.new(user_params)` can set, the admin
      flag the controller sets itself, and the API token set by `generate_token`.
      An attribute Rails would leave `nil` is the empty string here. */
  datatype User = User(
    login: string,
    password: string,
    passwordConfirmation: string,
    firstName: string,
    lastName: string,
    email: string,
    authType: string,
    openIdUrl: string,
    isAdmin: bool,
    token: string)

  /** `User.new` with no attributes. */
  function BlankUser(): User
  {
    User("", "", "", "", "", "", "", "", false, "")
  }

  /** The `SITE_CONFIG` entries and `Tracks::Config.auth_schemes` the controller reads. */
  datatype SiteConfig = SiteConfig(
    openSignups: bool,
    tosLink: Option<string>,
    adminEmail: string,
    authSchemes: seq<string>)

  /** The request parameters the controller reads. `exception` is set when the
      posted XML body could not be parsed; `user` is the nested `user` hash. */
  datatype Params = Params(
    exception: bool,
    approveTos: Option<string>,
    user: Option<map<string, string>>,
    order: Option<string>)

  /** The keys `user_params` lets through `permit`. */
  const PermittedKeys: set<string> :=
    {"login", "first_name", "last_name", "email", "password_confirmation", "password", "auth_type", "open_id_url"}

  /** `permit(...)`: keeps the permitted keys of the hash, with their values. */
  function Permit(m: map<string, string>): (r: map<string, string>)
    ensures r.Keys == m.Keys * PermittedKeys
    ensures forall k :: k in r ==> r[k] == m[k]
  {
    map k | k in m && k in PermittedKeys :: m[k]
  }

  /** `user_params`: `params.require(:user)` raises ParameterMissing (None here)
      when the `user` hash is absent or empty; otherwise its permitted part. */
  function UserParams(p: Params): (r: Option<map<string, string>>)
    ensures r.None? <==> p.user.None? || p.user.value.Keys == {}
    ensures r.Some? ==> r.value.Keys == p.user.value.Keys * PermittedKeys
    ensures r.Some? ==> forall k :: k in r.value ==> r.value[k] == p.user.value[k]
    ensures r.Some? ==> "approve_tos" !in r.value
  {
    if p.user.None? || p.user.value.Keys == {} then None else Some(Permit(p.user.value))
  }

  /** Reads one attribute of a parameter hash; an absent key gives the empty string. */
  function Attr(m: map<string, string>, key: string): string
  {
    if key in m then m[key] else ""
  }

  /** `User.new(attrs)` for a permitted hash: `is_admin` and `token` are not
      assignable through it. */
  function BuildUser(m: map<string, string>): (u: User)
    ensures !u.isAdmin && u.token == ""
    ensures forall k :: k in PermittedKeys - {"password_confirmation"} ==> Attributes(u)[k] == Attr(m, k)
    ensures u.passwordConfirmation == Attr(m, "password_confirmation")
  {
    User(Attr(m, "login"), Attr(m, "password"), Attr(m, "password_confirmation"),
         Attr(m, "first_name"), Attr(m, "last_name"), Attr(m, "email"),
         Attr(m, "auth_type"), Attr(m, "open_id_url"), false, "")
  }

  /** The characters Ruby's `[[:space:]]` matches in the ASCII range. */
  predicate IsSpace(c: char)
  {
    c == ' ' || c == '\t' || c == '\n' || c == '\r' || c == '\U{000B}' || c == '\U{000C}'
  }

  /** Ruby's `blank?` on an optional string: `nil`, empty, or only white space. */
  predicate Blank(s: Option<string>)
  {
    s.None? || forall i :: 0 <= i < |s.value| ==> IsSpace(s.value[i])
  }

  /** The attribute hash `to_xml` serialises for a user. */
  function Attributes(u: User): map<string, string>
  {
    map["login" := u.login, "password" := u.password, "first_name" := u.firstName,
        "last_name" := u.lastName, "email" := u.email, "auth_type" := u.authType,
        "open_id_url" := u.openIdUrl, "is_admin" := if u.isAdmin then "true" else "false",
        "token" := u.token]
  }

  /** `to_xml(:except => [:password])`: every attribute but the password, unchanged. */
  function ToXml(u: User): (r: map<string, string>)
    ensures "password" !in r
    ensures r.Keys == Attributes(u).Keys - {"password"}
    ensures forall k :: k in r ==> r[k] == Attributes(u)[k]
  {
    Attributes(u) - {"password"}
  }
}
