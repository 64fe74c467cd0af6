// Properties that relate several requests, or the two representations of one
// request, to each other.
module UsersControllerProperties {
  import opened Records
  import opened Store
  import opened UsersController

  /** `new` shows the signup form exactly when HTML `create` gets past admission. */
  lemma NewAndCreateAdmitAlike(db: Db, ss: SessionState, cfg: SiteConfig, rules: User -> bool, caller: Option<nat>, p: Params)
    requires !p.exception
    ensures NewStep(db, ss, cfg, caller).response.SignupForm?
            <==> !HtmlCreateStep(db, ss, cfg, rules, caller, p).response.SignupsClosed?
    ensures !Admits(db, caller, cfg) ==>
      && NewStep(db, ss, cfg, caller) == Step(db, ss, NoSignup(cfg.adminEmail))
      && HtmlCreateStep(db, ss, cfg, rules, caller, p) == Step(db, ss, SignupsClosed(cfg.adminEmail))
  {
  }

  /** A user refused as invalid is stashed, offered again by the next signup
      form, and only by that one: the form after it starts from a blank user. */
  lemma StashedUserShownOnce(db: Db, ss: SessionState, cfg: SiteConfig, rules: User -> bool, caller: Option<nat>, p: Params)
    requires !p.exception && Admits(db, caller, cfg) && HtmlTosAccepted(p, cfg)
    requires UserParams(p).Some? && !ValidUser(db, rules, BuildUser(UserParams(p).value), None)
    ensures var r := HtmlCreateStep(db, ss, cfg, rules, caller, p);
            var first := NewStep(r.db, r.session, cfg, caller);
            var second := NewStep(first.db, first.session, cfg, caller);
            && r == Step(db, ss.(newUser := Some(BuildUser(UserParams(p).value))), InvalidUser(BuildUser(UserParams(p).value)))
            && first.response.SignupForm? && first.response.user == BuildUser(UserParams(p).value)
            && second.response.SignupForm? && second.response.user == BlankUser()
            && second.session == ss.(newUser := None)
  {
    var stashed := ss.(newUser := Some(BuildUser(UserParams(p).value)));
    var first := NewStep(db, stashed, cfg, caller);
    assert first.session == ss.(newUser := None);
  }

  /** The XML path admits only admins, so on an empty store it creates nobody. */
  lemma XmlCreateRequiresAdmin(db: Db, ss: SessionState, cfg: SiteConfig, rules: User -> bool, caller: Option<nat>, p: Params)
    ensures var r := XmlCreateStep(db, ss, cfg, rules, caller, p);
            r.response.Created? ==> IsAdminCaller(db, caller)
    ensures NoUsersYet(db) ==>
      var r := XmlCreateStep(db, ss, cfg, rules, caller, p);
      r.db == db && (r.response == XmlMalformedPost || r.response == Unauthorized)
  {
  }

  /** The two representations do not admit the same callers: with open
      signups an anonymous caller signs up through HTML and gets 401 from XML. */
  lemma HtmlAndXmlDiverge(db: Db, ss: SessionState, cfg: SiteConfig, rules: User -> bool, p: Params)
    requires cfg.openSignups && Blank(cfg.tosLink) && !p.exception
    requires CheckCreateUserParams(p)
    requires ValidUser(db, rules, BuildUser(UserParams(p).value), None)
    requires ValidUser(db, rules, BuildUser(UserParams(p).value).(isAdmin := NoUsersYet(db)), None)
    ensures HtmlCreateStep(db, ss, cfg, rules, None, p).response.SignedUp?
    ensures XmlCreateStep(db, ss, cfg, rules, None, p) == Step(db, ss, Unauthorized)
  {
    var attrs := UserParams(p).value;
    if NoUsersYet(db) {
      assert BuildUser(attrs).(isAdmin := true) == BuildUser(attrs).(isAdmin := NoUsersYet(db));
    } else {
      assert BuildUser(attrs) == BuildUser(attrs).(isAdmin := NoUsersYet(db));
    }
  }

  /** The XML ToS gate never sees an `approve_tos` the client sends: it passes
      exactly when no ToS link is published. */
  lemma XmlTosIgnoresApproval(p: Params, cfg: SiteConfig)
    requires UserParams(p).Some?
    ensures XmlTosAccepted(UserParams(p).value, cfg) <==> Blank(cfg.tosLink)
  {
  }

  /** An unknown order column sorts the same as no order column. */
  lemma UnknownOrderIsDefault(order: string, columns: set<string>, format: Format)
    requires order !in columns
    ensures IndexOrdering(format, Some(order), columns) == IndexOrdering(format, None, columns)
    ensures IndexOrdering(format, None, columns).column == "login"
  {
  }

  /** XML `create` answers 200 exactly when a user was added, and 409 leaves
      the store as it was. */
  lemma XmlStatusMatchesPersistence(db: Db, ss: SessionState, cfg: SiteConfig, rules: User -> bool, caller: Option<nat>, p: Params)
    requires WellFormed(db)
    ensures var r := XmlCreateStep(db, ss, cfg, rules, caller, p);
            r.response.Status() == Some(200) <==> r.db.users.Keys != db.users.Keys
    ensures var r := XmlCreateStep(db, ss, cfg, rules, caller, p);
            r.response.Status() == Some(409) ==> r.db == db
  {
    var r := XmlCreateStep(db, ss, cfg, rules, caller, p);
    if r.response.Created? {
      assert r.response.id in r.db.users.Keys && r.response.id !in db.users.Keys;
    }
  }

  /** Posting an existing login through XML is a 409 that writes nothing. */
  lemma DuplicateLoginConflicts(db: Db, ss: SessionState, cfg: SiteConfig, rules: User -> bool, caller: Option<nat>, p: Params, other: nat)
    requires !p.exception && IsAdminCaller(db, caller) && Blank(cfg.tosLink)
    requires CheckCreateUserParams(p)
    requires other in db.users && db.users[other].login == p.user.value["login"]
    ensures XmlCreateStep(db, ss, cfg, rules, caller, p) == Step(db, ss, Conflict)
  {
    var attrs := UserParams(p).value;
    var user := BuildUser(attrs).(passwordConfirmation := Attr(attrs, "password"));
    assert user.login == db.users[other].login;
    assert !ValidUser(db, rules, user, None);
  }

  /** Deleting someone else, or a failed deletion, leaves the caller's session alone. */
  lemma OnlySelfDeletionLogsOut(db: Db, ss: SessionState, caller: Option<nat>, id: nat, destroyed: bool, format: Format)
    requires AdminOrSelf(db, caller, id)
    ensures var r := DestroyStep(db, ss, caller, id, destroyed, format);
            r.session != ss ==> caller == Some(id) && destroyed && id in db.users && r.session.userId.None?
    ensures var r := DestroyStep(db, ss, caller, id, destroyed, format);
            id in db.users && destroyed ==> id !in r.db.users && id !in r.db.preferences
  {
  }

  /** A first signup on an empty store (login "admin", password "admin"):
      the account is stored as an admin with a Preference and logged in. */
  lemma FirstSignupScenario(ss: SessionState, cfg: SiteConfig, rules: User -> bool, caller: Option<nat>)
    requires Blank(cfg.tosLink)
    requires rules(BuildUser(map["login" := "admin", "password" := "admin", "password_confirmation" := "admin"]))
    requires rules(BuildUser(map["login" := "admin", "password" := "admin", "password_confirmation" := "admin"]).(isAdmin := true))
    ensures var p := Params(false, None, Some(map["login" := "admin", "password" := "admin", "password_confirmation" := "admin"]), None);
            var r := HtmlCreateStep(Db(map[], 0, {}), ss, cfg, rules, caller, p);
            && r.response == SignedUp(0)
            && r.db.users == map[0 := r.db.users[0]]
            && r.db.users[0].isAdmin && r.db.users[0].login == "admin"
            && r.db.preferences == {0}
            && r.session.userId == Some(0)
  {
    var attrs := map["login" := "admin", "password" := "admin", "password_confirmation" := "admin"];
    AdminAttrsPermitted(attrs);
    var user := BuildUser(attrs);
    assert user.login == "admin";
    assert ValidUser(Db(map[], 0, {}), rules, user.(isAdmin := true), None);
  }

  /** The three attributes of the first-signup scenario all pass `permit`. */
  lemma AdminAttrsPermitted(attrs: map<string, string>)
    requires attrs == map["login" := "admin", "password" := "admin", "password_confirmation" := "admin"]
    ensures UserParams(Params(false, None, Some(attrs), None)) == Some(attrs)
  {
    assert "login" in attrs.Keys;
    assert Permit(attrs) == attrs;
  }

  // ------------------------------------------------------------ runs of signups

  datatype SignupRequest = SignupRequest(caller: Option<nat>, params: Params)

  /** A run of HTML signups, one request after the other. */
  function SignupRun(db: Db, ss: SessionState, cfg: SiteConfig, rules: User -> bool, reqs: seq<SignupRequest>): Db
    decreases |reqs|
  {
    if reqs == [] then db
    else
      var s := HtmlCreateStep(db, ss, cfg, rules, reqs[0].caller, reqs[0].params);
      SignupRun(s.db, s.session, cfg, rules, reqs[1..])
  }

  ghost function Admins(db: Db): set<nat>
  {
    set id | id in db.users && db.users[id].isAdmin
  }

  /** Once there is a user, an HTML signup never makes an admin: the set of
      admins stays as it was and every stored user stays. */
  lemma LaterSignupKeepsAdmins(db: Db, ss: SessionState, cfg: SiteConfig, rules: User -> bool, caller: Option<nat>, p: Params)
    requires WellFormed(db) && !NoUsersYet(db)
    ensures var s := HtmlCreateStep(db, ss, cfg, rules, caller, p);
            Admins(s.db) == Admins(db) && db.users.Keys <= s.db.users.Keys && WellFormed(s.db)
  {
    var s := HtmlCreateStep(db, ss, cfg, rules, caller, p);
    if s.response.SignedUp? {
      AdminsKeptByNonAdmin(db, s.db, s.response.id);
    }
  }

  /** Storing a non-admin under a fresh id keeps the set of admins. */
  lemma AdminsKeptByNonAdmin(db: Db, db': Db, id: nat)
    requires id !in db.users && id in db'.users && !db'.users[id].isAdmin
    requires db'.users == db.users[id := db'.users[id]]
    ensures Admins(db') == Admins(db)
  {
  }

  /** Once there is a user, a run of signups never makes another admin, and
      keeps every stored user. */
  lemma {:induction false} NoNewAdminsOnceUsersExist(db: Db, ss: SessionState, cfg: SiteConfig, rules: User -> bool, reqs: seq<SignupRequest>)
    requires WellFormed(db) && !NoUsersYet(db)
    ensures Admins(SignupRun(db, ss, cfg, rules, reqs)) == Admins(db)
    ensures db.users.Keys <= SignupRun(db, ss, cfg, rules, reqs).users.Keys
    decreases |reqs|
  {
    if reqs != [] {
      var s := HtmlCreateStep(db, ss, cfg, rules, reqs[0].caller, reqs[0].params);
      LaterSignupKeepsAdmins(db, ss, cfg, rules, reqs[0].caller, reqs[0].params);
      NoNewAdminsOnceUsersExist(s.db, s.session, cfg, rules, reqs[1..]);
    }
  }

  /** Starting from an empty store, a run of signups makes at most one admin:
      the first user to sign up. */
  lemma {:induction false} AtMostOneBootstrapAdmin(db: Db, ss: SessionState, cfg: SiteConfig, rules: User -> bool, reqs: seq<SignupRequest>)
    requires WellFormed(db) && NoUsersYet(db)
    ensures |Admins(SignupRun(db, ss, cfg, rules, reqs))| <= 1
    decreases |reqs|
  {
    if reqs == [] {
      assert Admins(db) == {};
    } else {
      var s := HtmlCreateStep(db, ss, cfg, rules, reqs[0].caller, reqs[0].params);
      if s.response.SignedUp? {
        var id := s.response.id;
        assert s.db.users.Keys == {id};
        assert Admins(s.db) == {id};
        NoNewAdminsOnceUsersExist(s.db, s.session, cfg, rules, reqs[1..]);
      } else {
        AtMostOneBootstrapAdmin(s.db, s.session, cfg, rules, reqs[1..]);
      }
    }
  }
}
