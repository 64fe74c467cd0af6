# Users controller of Tracks, modelled in Dafny

This project models the decision logic of the Tracks users controller
(`app/controllers/users_controller.rb`): who may sign up, what the HTML and
XML signup paths do to the users table and the session, how a listing picks
its sort column, what a deletion does to the caller's session, and the two
updates a user makes to their own record (auth type, API token).

The users table is a finite map from id to a `User` record, with the ids that
own a Preference record and the next id the database hands out (`Store.Db`).
Its invariant (`Store.WellFormed`) says logins are present and unique, every id
was handed out, and every Preference belongs to a stored user. The session is
a record of `user_id`, `new_user` and `cas_user` (`Store.SessionState`). The
site configuration holds `open_signups`, the ToS link, the admin e-mail address
and the configured auth schemes (`Records.SiteConfig`).

`User.valid?` is a present login that no other stored user has, plus the User
model's other validations. Those live in the User model, which is not part of
this model. They are a parameter `rules: User -> bool`, fixed per store.

Each request is modelled twice:
- a specification function (`NewStep`, `HtmlCreateStep`, `XmlCreateStep`,
  `DestroyStep`, `UpdateAuthTypeStep`, `RefreshTokenStep`, `GetNewUserStep`)
  maps the store and session before the request to the store, session and
  response after it, and its `ensures` state what the controller promises;
- a method (`New`, `CreateHtml`, `CreateXml`, `Destroy`, `UpdateAuthType`,
  `RefreshToken`, `GetNewUser`) performs the request step by step on a
  `Store.UserStore` and a `Store.Session` object and is proved to agree with
  that function.

Files: `records.dfy` (request parameters, strong parameters, `blank?`,
`to_xml`), `store.dfy` (users table, session, save/destroy), `users_controller.dfy`
(the controller), `properties.dfy` (properties relating several requests).

Behaviour kept as the code has it:
- The XML `create` path admits only a logged-in admin. The HTML path also
  admits anyone while the store is empty or signups are open
  (`UsersControllerProperties.HtmlAndXmlDiverge`). So the two representations
  do not admit the same callers.
- The XML path never sets `is_admin` and never creates a Preference.
- The XML ToS check reads `approve_tos` from the permitted user hash, which
  never contains it, so it passes only when no ToS link is published.

## Model

| member | source | states |
|---|---|---|
| `Records.UserParams` | app/controllers/users_controller.rb:211-213 | `require(:user)` fails exactly when the user hash is absent or empty; otherwise the result holds exactly the submitted keys that are permitted, with their values, and never `approve_tos` |
| `Records.BuildUser` | app/controllers/users_controller.rb:89 | `User.new(user_params)` sets each of the eight permitted attributes (login, password, confirmation, names, e-mail, auth type, OpenID URL) from the hash, empty when absent, and never makes an admin or sets a token |
| `Records.ToXml` | app/controllers/users_controller.rb:24 | the rendered record has every attribute except `password`, with its value unchanged |
| `Store.SaveNew` | app/controllers/users_controller.rb:102 | `save` stores the record under a fresh id exactly when it is valid, otherwise writes nothing, and keeps the table invariant |
| `Store.SaveExisting` | app/controllers/users_controller.rb:193 | saving a changed stored record replaces it exactly when valid (login unique among the others), otherwise writes nothing |
| `Store.AddPreference` | app/controllers/users_controller.rb:104 | `create_preference` adds the user's Preference and nothing else |
| `Store.RemoveUser` | app/controllers/users_controller.rb:144 | `destroy` removes the user and its Preference, keeps every other record, and keeps the invariant |
| `Store.UserStore.Save` | app/controllers/users_controller.rb:102 | the object's new state and answer are those of `SaveNew` |
| `Store.UserStore.Update` | app/controllers/users_controller.rb:193 | the object's new state and answer are those of `SaveExisting` |
| `Store.UserStore.CreatePreference` | app/controllers/users_controller.rb:104 | the object's new state is that of `AddPreference` |
| `Store.UserStore.Destroy` | app/controllers/users_controller.rb:144 | the record is removed exactly when the destroy is permitted, as `RemoveUser` says |
| `UsersController.OrderBy` | app/controllers/users_controller.rb:10-13 | the sort column is the requested one when it is a known column, `login` otherwise |
| `UsersController.IndexOrdering` | app/controllers/users_controller.rb:10-23 | the HTML listing sorts ascending by that column; the XML listing uses the database's default direction |
| `UsersController.IndexXml` | app/controllers/users_controller.rb:22-25 | given the database's listing of every stored id once, the XML listing has one record per stored user, each the user's record without `password` |
| `UsersController.ShowXml` | app/controllers/users_controller.rb:30-33 | `show` is not-found exactly when the id is absent, otherwise the record without `password` |
| `UsersController.AuthTypes` | app/controllers/users_controller.rb:37-42 | with a CAS user in the session the only choice is `cas`; otherwise one `[s, s]` pair per configured scheme, in order |
| `UsersController.AuthTypeChoices` | app/controllers/users_controller.rb:37-42 | the append loop builds exactly those choices |
| `UsersController.GetNewUserStep` | app/controllers/users_controller.rb:215-223 | returns the stashed user and clears the stash, or a blank user when none is stashed |
| `UsersController.GetNewUser` | app/controllers/users_controller.rb:215-223 | the session update and result are those of `GetNewUserStep` |
| `UsersController.NewStep` | app/controllers/users_controller.rb:36-59 | the form is shown iff the store is empty, the caller is an admin or signups are open; the first-user heading iff the store is empty; otherwise "nosignup" with the admin e-mail and the session untouched; the store is never written |
| `UsersController.New` | app/controllers/users_controller.rb:36-59 | the session update and response are those of `NewStep` |
| `UsersController.Admits` | app/controllers/users_controller.rb:76 | signing up is allowed on an empty store and for an admin caller; otherwise exactly when signups are open |
| `UsersController.HtmlTosAccepted` | app/controllers/users_controller.rb:83 | the HTML ToS gate passes when no ToS link is published, and otherwise exactly when `approve_tos` is "on" |
| `UsersController.XmlTosAccepted` | app/controllers/users_controller.rb:121 | the XML ToS gate passes when no ToS link is published, and, for a hash without `approve_tos`, only then |
| `UsersController.CheckCreateUserParams` | app/controllers/users_controller.rb:225-232 | true iff there is a user hash with a non-empty login and a non-empty password |
| `UsersController.HtmlCreateStep` | app/controllers/users_controller.rb:68-111 | a parse exception fails first; signups closed iff admission (the `new` rule) fails; ToS checked after admission; past both gates, a missing user hash iff `require(:user)` fails, the invalid-user answer iff the built user is invalid, and otherwise a signup exactly when the record to save (admin iff the store is empty) is valid, `NotSaved` when it is not; nothing written unless signed up; an invalid user is stashed in the session; a signed-up user is the submitted one, admin iff the store was empty, gets a Preference, and is logged in unless an admin signed it up; the invariant is kept |
| `UsersController.CreateHtml` | app/controllers/users_controller.rb:68-111 | store, session and response are those of `HtmlCreateStep` |
| `UsersController.XmlCreateStep` | app/controllers/users_controller.rb:112-135 | checks in order (parse exception; 401 iff the caller is not an admin; 400 iff login or password is missing or empty; the ToS gate only on the link); past every gate, 200 with the submitted user stored when it is valid and 409 when it is not; 200 exactly when the user is stored, never as an admin, with confirmation set to the password and no Preference; any other answer writes nothing; the session is never touched |
| `UsersController.CreateXml` | app/controllers/users_controller.rb:112-135 | store and response are those of `XmlCreateStep` |
| `UsersController.DestroyStep` | app/controllers/users_controller.rb:140-171 | not-found iff the id is absent; the user and its Preference are removed iff the destroy succeeded; the session's user id is cleared iff it succeeded and the caller deleted itself; XML answers `:ok` either way |
| `UsersController.Destroy` | app/controllers/users_controller.rb:140-171 | store, session and response are those of `DestroyStep` |
| `UsersController.UpdateAuthTypeStep` | app/controllers/users_controller.rb:191-200 | the caller's auth type is replaced exactly when the user hash is present and the changed record is valid; otherwise nothing is written |
| `UsersController.UpdateAuthType` | app/controllers/users_controller.rb:191-200 | store and response are those of `UpdateAuthTypeStep` |
| `UsersController.RefreshTokenStep` | app/controllers/users_controller.rb:202-207 | the caller's token is replaced exactly when the record still validates; otherwise `save!` fails and nothing is written |
| `UsersController.RefreshToken` | app/controllers/users_controller.rb:202-207 | store and response are those of `RefreshTokenStep` |
| `UsersControllerProperties.NewAndCreateAdmitAlike` | app/controllers/users_controller.rb:76-81 | `new` shows the form exactly when HTML `create` gets past admission, and both leave store and session alone when it does not |
| `UsersControllerProperties.StashedUserShownOnce` | app/controllers/users_controller.rb:91-97 | an admitted signup with an invalid user writes nothing and stashes that user; the next form shows it, and the form after it a blank user |
| `UsersControllerProperties.XmlCreateRequiresAdmin` | app/controllers/users_controller.rb:113-116 | XML creates a user only for an admin caller, so on an empty store it creates nobody |
| `UsersControllerProperties.HtmlAndXmlDiverge` | app/controllers/users_controller.rb:76 | with open signups an anonymous caller signs up through HTML but gets 401 from XML |
| `UsersControllerProperties.XmlTosIgnoresApproval` | app/controllers/users_controller.rb:121 | the XML ToS gate passes exactly when no ToS link is published |
| `UsersControllerProperties.UnknownOrderIsDefault` | app/controllers/users_controller.rb:10-13 | an unknown order column sorts the same as none, by `login` |
| `UsersControllerProperties.XmlStatusMatchesPersistence` | app/controllers/users_controller.rb:128-133 | XML answers 200 exactly when the set of stored ids changed; 409 leaves the store as it was |
| `UsersControllerProperties.DuplicateLoginConflicts` | app/controllers/users_controller.rb:126-133 | posting an existing login through XML is a 409 that writes nothing |
| `UsersControllerProperties.OnlySelfDeletionLogsOut` | app/controllers/users_controller.rb:144-149 | the session changes only when the caller deleted itself successfully; a successful destroy leaves no record or Preference behind |
| `UsersControllerProperties.FirstSignupScenario` | app/controllers/users_controller.rb:99-108 | signing up "admin"/"admin" on an empty store stores one admin with a Preference and logs it in |
| `UsersControllerProperties.LaterSignupKeepsAdmins` | app/controllers/users_controller.rb:100-101 | once a user exists, an HTML signup keeps the set of admins, every stored user and the table invariant |
| `UsersControllerProperties.NoNewAdminsOnceUsersExist` | app/controllers/users_controller.rb:100-101 | once a user exists, any run of HTML signups keeps the set of admins and every stored user |
| `UsersControllerProperties.AtMostOneBootstrapAdmin` | app/controllers/users_controller.rb:100-101 | from an empty store, any run of HTML signups makes at most one admin |

## Left out

- `tracks_data/create_admin.rb`: a one-shot seeding script with no decision logic. It takes its token from the clock and `rand`, saves without validation and prints.
- The `before_action` filters (`admin_login_required`, `admin_or_self_login_required`, `login_required`, `login_optional`) live in ApplicationController, which is not part of this model. They appear as preconditions: an admin caller for `index` and `show`, admin or self for `destroy`, a stored caller for `update_auth_type` and `refresh_token`. The caller they resolve is an input.
- Rendering, layouts, page titles, `t(...)` strings, `notify` messages, `store_location`, `redirect_back_or_home` and pagination are left out. Responses are enum values; redirect targets of `destroy` are `LoginPage` or `UsersPage`.
- `render_failure`'s default status is set in ApplicationController, which is not part of this model; those responses carry no status (`Status()` is None).
- `logout_user` is in ApplicationController, which is not part of this model. It is modelled as clearing `session['user_id']` only.
- The redirect after a deletion compares the deleted id with the caller as resolved at the start of the request.
- `User.authenticate` is a foreign call. After a successful HTML save it is modelled as returning the record just saved.
- `User.no_users_yet?`, `User.column_names`, `generate_token` and the User model's validations other than login presence and uniqueness are not shown. They are an empty-store test, a set of column names given as input, a new token given as input, and the `rules` parameter.
- Whether `destroy` succeeds depends on the User model's callbacks, which are not shown. It is an input, `destroyed`.
- `change_password`, `update_password` and `change_auth_type` are left out. The first and last only set a page title; `update_password` only calls the foreign `change_password` and rescues its exception.
- The JS branch of `destroy` only counts users for the view.
- Request values are strings. A `nil` or nested value inside the `user` hash is not modelled, and an unset attribute is the empty string.
- Ruby's `blank?` is modelled with ASCII white space only; Ruby's `[[:space:]]` also matches Unicode spaces.
- `UsersController.IndexXml`: does not state that the listing is sorted by the chosen column. The database does the sorting, and its answer (`ordered`, required to hold every stored id exactly once) is an input.
- The database hands out ids in sequence (`nextId`). Concurrent duplicate signups are a database-constraint matter and are not modelled.
- The XML serialisation beyond "every attribute but `password`" is not modelled: element names, the `users` root, and the `id` and timestamp columns.
