// The decisions of the users controller and the operations built on them.
// Each operation has a specification function from the store and session
// before the request to the store, session and response after it (the *Step
// functions), and a method that performs it step by step on a UserStore and
// a Session and is proved to agree with that function.
module UsersController {
  import opened Records
  import opened Store

  datatype Format = Html | Xml

  datatype Direction = Ascending | StoreDefault

  /** The `User.order(...)` argument of a listing. */
  datatype Ordering = Ordering(column: string, direction: Direction)

  datatype Listing = Listing(ordering: Ordering, records: seq<map<string, string>>)

  /** Which signup page `new` shows: the first-user page or the normal one. */
  datatype Heading = FirstUserSignup | NewUserSignup

  datatype NewResponse =
    | SignupForm(heading: Heading, user: User, authTypes: seq<(string, string)>)
    | NoSignup(adminEmail: string)

  /** Outcomes of `POST /users` (HTML). */
  datatype HtmlCreateResponse =
    | MalformedPost              // render_failure: the XML body did not parse
    | SignupsClosed(adminEmail: string)  // the "nosignup" page
    | TosRejected                // redirect to signup with the ToS error
    | MissingUserParams          // `params.require(:user)` raised ParameterMissing
    | InvalidUser(user: User)    // stashed in the session, redirect to signup
    | NotSaved                   // `user.save` failed after `valid?` passed; nothing is rendered
    | SignedUp(id: nat)          // redirect back or home

  /** Outcomes of `POST /users.xml`. */
  datatype XmlCreateResponse =
    | XmlMalformedPost
    | Unauthorized
    | BadRequest
    | XmlTosRejected
    | Created(id: nat)
    | Conflict
  {
    /** The HTTP status; None where the code leaves it to `render_failure`'s default. */
    function Status(): Option<nat>
    {
      match this
      case XmlMalformedPost => None
      case Unauthorized => Some(401)
      case BadRequest => Some(400)
      case XmlTosRejected => None
      case Created(_) => Some(200)
      case Conflict => Some(409)
    }
  }

  datatype Redirect = LoginPage | UsersPage

  datatype DestroyResponse =
    | UserNotFound                            // `User.find` raised RecordNotFound
    | HtmlDestroyed(deleted: bool, target: Redirect)
    | XmlOk                                   // `head :ok`

  datatype AuthTypeResponse = AuthTypeMissingParams | AuthTypeUpdated | AuthTypeRejected

  datatype TokenResponse = TokenRefreshed | TokenRecordInvalid

  /** The store, session and response after a request. */
  datatype Step<R> = Step(db: Db, session: SessionState, response: R)

  /** The store and response after a request that leaves the session alone. */
  datatype Written<R> = Written(db: Db, response: R)

  datatype Taken = Taken(user: User, session: SessionState)

  // ---------------------------------------------------------------- index, show

  /** The listing's sort column: the requested one when it is a column of the
      users table, `login` otherwise. */
  function OrderBy(order: Option<string>, columns: set<string>): (column: string)
    ensures column == "login" || (order.Some? && column == order.value && column in columns)
    ensures order.Some? && order.value in columns ==> column == order.value
  {
    if order.Some? && order.value in columns then order.value else "login"
  }

  /** The ordering `index` asks for: HTML appends " ASC", XML leaves the
      direction to the database. */
  function IndexOrdering(format: Format, order: Option<string>, columns: set<string>): (r: Ordering)
    ensures r.column == OrderBy(order, columns)
    ensures r.direction == Ascending <==> format == Html
  {
    Ordering(OrderBy(order, columns), if format == Html then Ascending else StoreDefault)
  }

  /** `GET /users.xml`: `ordered` is the database's answer to `User.order(column)`,
      every stored id exactly once; each record is rendered without its password. */
  function IndexXml(db: Db, caller: Option<nat>, order: Option<string>, columns: set<string>, ordered: seq<nat>): (r: Listing)
    requires IsAdminCaller(db, caller)
    requires multiset(ordered) == multiset(db.users.Keys)
    ensures r.ordering == IndexOrdering(Xml, order, columns)
    ensures |r.records| == |ordered| == |db.users|
    ensures forall i :: 0 <= i < |ordered| ==>
      ordered[i] in db.users && "password" !in r.records[i] && r.records[i] == ToXml(db.users[ordered[i]])
  {
    assert forall i :: 0 <= i < |ordered| ==> ordered[i] in multiset(ordered);
    MultisetOfSetSize(db.users.Keys);
    Listing(IndexOrdering(Xml, order, columns), seq(|ordered|, i requires 0 <= i < |ordered| => ToXml(db.users[ordered[i]])))
  }

  /** A set seen as a multiset holds each element once. */
  lemma MultisetOfSetSize(s: set<nat>)
    ensures |multiset(s)| == |s|
  {
    if s != {} {
      var x :| x in s;
      MultisetOfSetSize(s - {x});
      assert multiset(s) == multiset(s - {x}) + multiset{x};
    }
  }

  /** `GET /users/id.xml`: None when `User.find` raises RecordNotFound. */
  function ShowXml(db: Db, caller: Option<nat>, id: nat): (r: Option<map<string, string>>)
    requires IsAdminCaller(db, caller)
    ensures r.None? <==> id !in db.users
    ensures r.Some? ==> "password" !in r.value && r.value == ToXml(db.users[id])
  {
    if id in db.users then Some(ToXml(db.users[id])) else None
  }

  // ---------------------------------------------------------------- new

  /** The auth-type choices of the signup form: only CAS when the session has
      a CAS user, otherwise one pair per configured scheme, in order. */
  function AuthTypes(casUser: Option<string>, schemes: seq<string>): (r: seq<(string, string)>)
    ensures casUser.Some? ==> r == [("cas", "cas")]
    ensures casUser.None? ==> |r| == |schemes| && forall i :: 0 <= i < |schemes| ==> r[i] == (schemes[i], schemes[i])
  {
    if casUser.Some? then [("cas", "cas")]
    else seq(|schemes|, i requires 0 <= i < |schemes| => (schemes[i], schemes[i]))
  }

  method AuthTypeChoices(casUser: Option<string>, schemes: seq<string>) returns (choices: seq<(string, string)>)
    ensures choices == AuthTypes(casUser, schemes)
  {
    choices := [];
    if casUser.None? {
      for i := 0 to |schemes|
        invariant |choices| == i
        invariant forall k :: 0 <= k < i ==> choices[k] == (schemes[k], schemes[k])
      {
        choices := choices + [(schemes[i], schemes[i])];
      }
    } else {
      choices := choices + [("cas", "cas")];
    }
  }

  /** Who may sign up: anyone while there are no users yet, an admin, or
      anyone when signups are open. */
  predicate Admits(db: Db, caller: Option<nat>, cfg: SiteConfig): (ok: bool)
    ensures NoUsersYet(db) ==> ok
    ensures IsAdminCaller(db, caller) ==> ok
    ensures !NoUsersYet(db) && !IsAdminCaller(db, caller) ==> (ok <==> cfg.openSignups)
  {
    NoUsersYet(db) || IsAdminCaller(db, caller) || cfg.openSignups
  }

  /** `get_new_user`: the user stashed by a failed signup, taken out of the
      session, or a blank user when there is none. */
  function GetNewUserStep(ss: SessionState): (r: Taken)
    ensures r.session == ss.(newUser := None)
    ensures ss.newUser.Some? ==> r.user == ss.newUser.value
    ensures ss.newUser.None? ==> r.user == BlankUser()
  {
    match ss.newUser
    case Some(u) => Taken(u, ss.(newUser := None))
    case None => Taken(BlankUser(), ss)
  }

  method GetNewUser(session: Session) returns (user: User)
    modifies session
    ensures Taken(user, session.State()) == GetNewUserStep(old(session.State()))
  {
    if session.newUser.Some? {
      user := session.newUser.value;
      session.newUser := None;
    } else {
      user := BlankUser();
    }
  }

  /** `GET /users/new`. */
  function NewStep(db: Db, ss: SessionState, cfg: SiteConfig, caller: Option<nat>): (r: Step<NewResponse>)
    ensures r.db == db
    ensures r.response.SignupForm? <==> Admits(db, caller, cfg)
    ensures r.response.NoSignup? ==> r.response.adminEmail == cfg.adminEmail && r.session == ss
    ensures r.response.SignupForm? ==>
      && (r.response.heading == FirstUserSignup <==> NoUsersYet(db))
      && r.response.user == (if ss.newUser.Some? then ss.newUser.value else BlankUser())
      && r.session == ss.(newUser := None)
      && r.response.authTypes == AuthTypes(ss.casUser, cfg.authSchemes)
  {
    var choices := AuthTypes(ss.casUser, cfg.authSchemes);
    if NoUsersYet(db) then
      var t := GetNewUserStep(ss);
      Step(db, t.session, SignupForm(FirstUserSignup, t.user, choices))
    else if IsAdminCaller(db, caller) || cfg.openSignups then
      var t := GetNewUserStep(ss);
      Step(db, t.session, SignupForm(NewUserSignup, t.user, choices))
    else
      Step(db, ss, NoSignup(cfg.adminEmail))
  }

  method New(store: UserStore, session: Session, cfg: SiteConfig, caller: Option<nat>) returns (resp: NewResponse)
    modifies session
    ensures Step(store.State(), session.State(), resp) == NewStep(store.State(), old(session.State()), cfg, caller)
  {
    var authTypes := AuthTypeChoices(session.casUser, cfg.authSchemes);
    if NoUsersYet(store.State()) {
      var user := GetNewUser(session);
      resp := SignupForm(FirstUserSignup, user, authTypes);
    } else if IsAdminCaller(store.State(), caller) || cfg.openSignups {
      var user := GetNewUser(session);
      resp := SignupForm(NewUserSignup, user, authTypes);
    } else {
      resp := NoSignup(cfg.adminEmail);
    }
  }

  // ---------------------------------------------------------------- create

  /** The HTML ToS gate: the top-level `approve_tos` is "on", or no ToS link is published. */
  predicate HtmlTosAccepted(p: Params, cfg: SiteConfig): (ok: bool)
    ensures Blank(cfg.tosLink) ==> ok
    ensures !Blank(cfg.tosLink) ==> (ok <==> p.approveTos == Some("on"))
  {
    p.approveTos == Some("on") || Blank(cfg.tosLink)
  }

  /** The XML ToS gate, which reads `approve_tos` from the permitted user hash. */
  predicate XmlTosAccepted(attrs: map<string, string>, cfg: SiteConfig): (ok: bool)
    ensures Blank(cfg.tosLink) ==> ok
    ensures "approve_tos" !in attrs ==> (ok <==> Blank(cfg.tosLink))
  {
    Attr(attrs, "approve_tos") == "on" || Blank(cfg.tosLink)
  }

  /** `check_create_user_params`: a `user` hash with a non-empty login and a
      non-empty password. */
  function CheckCreateUserParams(p: Params): (ok: bool)
    ensures ok <==> p.user.Some?
                    && "login" in p.user.value && p.user.value["login"] != ""
                    && "password" in p.user.value && p.user.value["password"] != ""
    ensures ok ==> UserParams(p).Some?
  {
    if p.user.None? then false
    else if "login" !in p.user.value then false
    else if p.user.value["login"] == "" then false
    else if "password" !in p.user.value then false
    else if p.user.value["password"] == "" then false
    else true
  }

  /** `POST /users` (HTML). */
  function HtmlCreateStep(db: Db, ss: SessionState, cfg: SiteConfig, rules: User -> bool, caller: Option<nat>, p: Params): (r: Step<HtmlCreateResponse>)
    // an unparsable body fails before anything else
    ensures p.exception ==> r == Step(db, ss, MalformedPost)
    // admission, exactly as `new` decides it
    ensures !p.exception ==> (r.response == SignupsClosed(cfg.adminEmail) <==> !Admits(db, caller, cfg))
    // the ToS gate comes after admission
    ensures r.response == TosRejected <==> !p.exception && Admits(db, caller, cfg) && !HtmlTosAccepted(p, cfg)
    ensures r.response.SignedUp? ==> Admits(db, caller, cfg) && HtmlTosAccepted(p, cfg)
    // nothing is written unless the signup succeeds
    ensures !r.response.SignedUp? ==> r.db == db
    // an invalid user is stashed for the signup form, and only then
    ensures r.response.InvalidUser? ==>
      && UserParams(p).Some? && r.response.user == BuildUser(UserParams(p).value)
      && !ValidUser(db, rules, r.response.user, None)
      && r.session == ss.(newUser := Some(r.response.user))
    ensures !r.response.InvalidUser? && !r.response.SignedUp? ==> r.session == ss
    // past both gates: a missing user hash, an invalid user, a save that
    // fails only for the admin record, or a signup
    ensures !p.exception && Admits(db, caller, cfg) && HtmlTosAccepted(p, cfg) ==>
      && (r.response == MissingUserParams <==> UserParams(p).None?)
      && (UserParams(p).Some? ==>
            var u := BuildUser(UserParams(p).value);
            && (r.response.InvalidUser? <==> !ValidUser(db, rules, u, None))
            && (ValidUser(db, rules, u, None) ==>
                  if ValidUser(db, rules, u.(isAdmin := NoUsersYet(db)), None) then r.response.SignedUp?
                  else r.response == NotSaved))
    // a successful signup stores the submitted user, admin iff the store was
    // empty, gives it a Preference, and logs it in unless an admin signed it up
    ensures r.response.SignedUp? ==>
      var id := r.response.id;
      && id in r.db.users
      && (WellFormed(db) ==> id !in db.users)
      && r.db.users == db.users[id := r.db.users[id]]
      && UserParams(p).Some?
      && r.db.users[id] == BuildUser(UserParams(p).value).(isAdmin := NoUsersYet(db))
      && r.db.preferences == db.preferences + {id}
      && r.session == (if IsAdminCaller(db, caller) then ss else ss.(userId := Some(id)))
    ensures WellFormed(db) ==> WellFormed(r.db)
  {
    if p.exception then Step(db, ss, MalformedPost)
    else if !Admits(db, caller, cfg) then Step(db, ss, SignupsClosed(cfg.adminEmail))
    else if !HtmlTosAccepted(p, cfg) then Step(db, ss, TosRejected)
    else match UserParams(p)
      case None => Step(db, ss, MissingUserParams)
      case Some(attrs) =>
        var user := BuildUser(attrs);
        if !ValidUser(db, rules, user, None) then Step(db, ss.(newUser := Some(user)), InvalidUser(user))
        else
          var signupByAdmin := IsAdminCaller(db, caller);
          var saved := SaveNew(db, rules, if NoUsersYet(db) then user.(isAdmin := true) else user);
          match saved.id
          case None => Step(db, ss, NotSaved)
          case Some(id) =>
            Step(AddPreference(saved.db, id), if signupByAdmin then ss else ss.(userId := Some(id)), SignedUp(id))
  }

  method CreateHtml(store: UserStore, session: Session, cfg: SiteConfig, caller: Option<nat>, p: Params)
    returns (resp: HtmlCreateResponse)
    requires store.Valid()
    modifies store, session
    ensures store.Valid()
    ensures Step(store.State(), session.State(), resp)
            == HtmlCreateStep(old(store.State()), old(session.State()), cfg, store.rules, caller, p)
  {
    if p.exception {
      resp := MalformedPost;
      return;
    }
    if !Admits(store.State(), caller, cfg) {
      resp := SignupsClosed(cfg.adminEmail);
      return;
    }
    if !HtmlTosAccepted(p, cfg) {
      resp := TosRejected;
      return;
    }
    var attrs := UserParams(p);
    if attrs.None? {
      resp := MissingUserParams;
      return;
    }
    var user := BuildUser(attrs.value);
    if !ValidUser(store.State(), store.rules, user, None) {
      session.newUser := Some(user);
      resp := InvalidUser(user);
      return;
    }
    var signupByAdmin := IsAdminCaller(store.State(), caller);
    if NoUsersYet(store.State()) {
      user := user.(isAdmin := true);
    }
    var id := store.Save(user);
    if id.None? {
      resp := NotSaved;
      return;
    }
    // `User.authenticate` hands back the record just saved.
    store.CreatePreference(id.value);
    if !signupByAdmin {
      session.userId := id;
    }
    resp := SignedUp(id.value);
  }

  /** `POST /users.xml`. */
  function XmlCreateStep(db: Db, ss: SessionState, cfg: SiteConfig, rules: User -> bool, caller: Option<nat>, p: Params): (r: Step<XmlCreateResponse>)
    ensures r.session == ss
    // the checks run in a fixed order
    ensures r.response == XmlMalformedPost <==> p.exception
    ensures r.response == Unauthorized <==> !p.exception && !IsAdminCaller(db, caller)
    ensures r.response == BadRequest <==> !p.exception && IsAdminCaller(db, caller) && !CheckCreateUserParams(p)
    ensures r.response == XmlTosRejected <==>
      !p.exception && IsAdminCaller(db, caller) && CheckCreateUserParams(p) && !Blank(cfg.tosLink)
    // 200 exactly when the user was stored; every other answer writes nothing
    ensures !r.response.Created? ==> r.db == db
    ensures r.response.Created? ==>
      var id := r.response.id;
      && id in r.db.users
      && (WellFormed(db) ==> id !in db.users)
      && r.db.users == db.users[id := r.db.users[id]]
      && r.db.preferences == db.preferences
      && !r.db.users[id].isAdmin
      && r.db.users[id].passwordConfirmation == r.db.users[id].password
      && r.db.users[id].login == p.user.value["login"]
      && r.db.users[id].login != ""
    // past every gate: 200 with the submitted user when it is valid, 409 otherwise
    ensures !p.exception && IsAdminCaller(db, caller) && CheckCreateUserParams(p) && Blank(cfg.tosLink) ==>
      var u := BuildUser(UserParams(p).value).(passwordConfirmation := p.user.value["password"]);
      if ValidUser(db, rules, u, None) then r.response.Created? && r.db.users[r.response.id] == u
      else r.response == Conflict
    ensures r.response == Conflict ==>
      CheckCreateUserParams(p) && !ValidUser(db, rules, BuildUser(UserParams(p).value).(passwordConfirmation := p.user.value["password"]), None)
    ensures WellFormed(db) ==> WellFormed(r.db)
  {
    if p.exception then Step(db, ss, XmlMalformedPost)
    else if !IsAdminCaller(db, caller) then Step(db, ss, Unauthorized)
    else if !CheckCreateUserParams(p) then Step(db, ss, BadRequest)
    else
      var attrs := UserParams(p).value;
      if !XmlTosAccepted(attrs, cfg) then Step(db, ss, XmlTosRejected)
      else
        var user := BuildUser(attrs).(passwordConfirmation := Attr(attrs, "password"));
        var saved := SaveNew(db, rules, user);
        match saved.id
        case Some(id) => Step(saved.db, ss, Created(id))
        case None => Step(db, ss, Conflict)
  }

  method CreateXml(store: UserStore, session: Session, cfg: SiteConfig, caller: Option<nat>, p: Params)
    returns (resp: XmlCreateResponse)
    requires store.Valid()
    modifies store
    ensures store.Valid()
    ensures Step(store.State(), session.State(), resp)
            == XmlCreateStep(old(store.State()), session.State(), cfg, store.rules, caller, p)
  {
    if p.exception {
      resp := XmlMalformedPost;
      return;
    }
    if !IsAdminCaller(store.State(), caller) {
      resp := Unauthorized;
      return;
    }
    if !CheckCreateUserParams(p) {
      resp := BadRequest;
      return;
    }
    var attrs := UserParams(p).value;
    if !XmlTosAccepted(attrs, cfg) {
      resp := XmlTosRejected;
      return;
    }
    var user := BuildUser(attrs);
    user := user.(passwordConfirmation := Attr(attrs, "password"));
    var id := store.Save(user);
    if id.Some? {
      resp := Created(id.value);
    } else {
      resp := Conflict;
    }
  }

  // ---------------------------------------------------------------- destroy

  /** The filter `admin_or_self_login_required` lets through. */
  predicate AdminOrSelf(db: Db, caller: Option<nat>, id: nat)
  {
    caller.Some? && caller.value in db.users && (db.users[caller.value].isAdmin || caller.value == id)
  }

  /** `DELETE /users/id`: `destroyed` is whether the record's `destroy`
      succeeded. The caller is logged out only when it deleted itself and the
      deletion succeeded; XML answers 200 either way. */
  function DestroyStep(db: Db, ss: SessionState, caller: Option<nat>, id: nat, destroyed: bool, format: Format): (r: Step<DestroyResponse>)
    requires AdminOrSelf(db, caller, id)
    ensures r.response == UserNotFound <==> id !in db.users
    ensures r.db == (if id in db.users && destroyed then RemoveUser(db, id) else db)
    ensures r.session == (if id in db.users && destroyed && caller == Some(id) then ss.(userId := None) else ss)
    ensures id in db.users && format == Xml ==> r.response == XmlOk
    ensures id in db.users && format == Html ==>
      r.response.HtmlDestroyed? && r.response.deleted == destroyed
      && (r.response.target == LoginPage <==> caller == Some(id))
    ensures WellFormed(db) ==> WellFormed(r.db)
  {
    if id !in db.users then Step(db, ss, UserNotFound)
    else
      var db' := if destroyed then RemoveUser(db, id) else db;
      var ss' := if destroyed && caller == Some(id) then ss.(userId := None) else ss;
      Step(db', ss', if format == Html then HtmlDestroyed(destroyed, if caller == Some(id) then LoginPage else UsersPage) else XmlOk)
  }

  method Destroy(store: UserStore, session: Session, caller: Option<nat>, id: nat, destroyed: bool, format: Format)
    returns (resp: DestroyResponse)
    requires store.Valid() && AdminOrSelf(store.State(), caller, id)
    modifies store, session
    ensures store.Valid()
    ensures Step(store.State(), session.State(), resp)
            == DestroyStep(old(store.State()), old(session.State()), caller, id, destroyed, format)
  {
    if id !in store.users {
      resp := UserNotFound;
      return;
    }
    var saved := store.Destroy(id, destroyed);
    if saved && caller == Some(id) {
      // logout_user
      session.userId := None;
    }
    if format == Html {
      resp := HtmlDestroyed(saved, if caller == Some(id) then LoginPage else UsersPage);
    } else {
      resp := XmlOk;
    }
  }

  // ---------------------------------------------------------------- current user

  /** `update_auth_type` for the logged-in user `caller`. */
  function UpdateAuthTypeStep(db: Db, rules: User -> bool, caller: nat, p: Params): (r: Written<AuthTypeResponse>)
    requires caller in db.users
    ensures r.response == AuthTypeMissingParams <==> UserParams(p).None?
    ensures r.response == AuthTypeUpdated <==>
      UserParams(p).Some?
      && ValidUser(db, rules, db.users[caller].(authType := Attr(UserParams(p).value, "auth_type")), Some(caller))
    ensures r.response == AuthTypeUpdated ==>
      r.db == db.(users := db.users[caller := db.users[caller].(authType := Attr(UserParams(p).value, "auth_type"))])
    ensures r.response != AuthTypeUpdated ==> r.db == db
    ensures WellFormed(db) ==> WellFormed(r.db)
  {
    match UserParams(p)
    case None => Written(db, AuthTypeMissingParams)
    case Some(attrs) =>
      var saved := SaveExisting(db, rules, caller, db.users[caller].(authType := Attr(attrs, "auth_type")));
      if saved.id.Some? then Written(saved.db, AuthTypeUpdated) else Written(db, AuthTypeRejected)
  }

  method UpdateAuthType(store: UserStore, caller: nat, p: Params) returns (resp: AuthTypeResponse)
    requires store.Valid() && caller in store.users
    modifies store
    ensures store.Valid()
    ensures Written(store.State(), resp) == UpdateAuthTypeStep(old(store.State()), store.rules, caller, p)
  {
    var attrs := UserParams(p);
    if attrs.None? {
      resp := AuthTypeMissingParams;
      return;
    }
    var user := store.users[caller];
    user := user.(authType := Attr(attrs.value, "auth_type"));
    var ok := store.Update(caller, user);
    resp := if ok then AuthTypeUpdated else AuthTypeRejected;
  }

  /** `refresh_token` for the logged-in user `caller`; `token` is what
      `generate_token` produced. `save!` raises (TokenRecordInvalid) when the
      record does not validate. */
  function RefreshTokenStep(db: Db, rules: User -> bool, caller: nat, token: string): (r: Written<TokenResponse>)
    requires caller in db.users
    ensures r.response == TokenRefreshed <==> ValidUser(db, rules, db.users[caller].(token := token), Some(caller))
    ensures r.response == TokenRefreshed ==> r.db == db.(users := db.users[caller := db.users[caller].(token := token)])
    ensures r.response == TokenRecordInvalid ==> r.db == db
    ensures WellFormed(db) ==> WellFormed(r.db)
  {
    var saved := SaveExisting(db, rules, caller, db.users[caller].(token := token));
    if saved.id.Some? then Written(saved.db, TokenRefreshed) else Written(db, TokenRecordInvalid)
  }

  method RefreshToken(store: UserStore, caller: nat, token: string) returns (resp: TokenResponse)
    requires store.Valid() && caller in store.users
    modifies store
    ensures store.Valid()
    ensures Written(store.State(), resp) == RefreshTokenStep(old(store.State()), store.rules, caller, token)
  {
    var user := store.users[caller].(token := token);
    var ok := store.Update(caller, user);
    resp := if ok then TokenRefreshed else TokenRecordInvalid;
  }
}
