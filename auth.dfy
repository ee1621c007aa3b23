/** The login route's server action (src/routes/login.tsx): the two field
    validators and the decision procedure that turns one submitted form into
    a session or a structured error, against the abstract user store. */
module Auth {
  import opened Options
  import opened UserStore

  /** One entry of the submitted `FormData`, as `form.get(name)` returns it:
      `null` when the field is missing, a string, or an uploaded file. */
  datatype FormValue = Absent | Text(s: string) | Blob

  /** The four fields the action reads. */
  datatype Form = Form(loginType: FormValue, username: FormValue, password: FormValue, redirectTo: FormValue)

  /** The values echoed back for re-display. */
  datatype Fields = Fields(loginType: string, username: string, password: string)

  /** The `fieldErrors` object: one optional message per validated field. */
  datatype FieldErrorMap = FieldErrorMap(username: Option<string>, password: Option<string>)

  /** What the action produces: one of the three `FormError` shapes it throws,
      or the redirecting response of `createUserSession`. */
  datatype Outcome =
    | ShapeError(message: string)
    | FieldErrors(message: string, fieldErrors: FieldErrorMap, fields: Fields)
    | FormError(message: string, fields: Fields)
    | Session(userId: string, redirectTo: string)

  /** The outcome together with the store after the call. */
  datatype Step = Step(outcome: Outcome, store: Store)

  const UsernameMessage := "Usernames must be at least 1 characters long"
  const PasswordMessage := "Passwords must be at least 1 characters long"
  const ShapeMessage := "Form not submitted correctly."
  const FieldsInvalidMessage := "Fields invalid"
  const IncorrectMessage := "Username/Password combination is incorrect"
  const CreateFailedMessage := "Something went wrong trying to create a new user."
  const LoginTypeInvalidMessage := "Login type invalid"

  function ExistsMessage(username: string): string
  {
    "User with username " + username + " already exists"
  }

  /** `validateUsername`: a message exactly when the value is not a string of
      at least one character. */
  function ValidateUsername(value: FormValue): (r: Option<string>)
    ensures r.Some? <==> !value.Text? || |value.s| < 1
    ensures r.Some? ==> r.value == UsernameMessage
  {
    if !value.Text? || |value.s| < 1 then Some(UsernameMessage) else None
  }

  /** `validatePassword`: the same rule, with its own message. */
  function ValidatePassword(value: FormValue): (r: Option<string>)
    ensures r.Some? <==> !value.Text? || |value.s| < 1
    ensures r.Some? ==> r.value == PasswordMessage
  {
    if !value.Text? || |value.s| < 1 then Some(PasswordMessage) else None
  }

  /** JavaScript truthiness of an optional message (`Boolean(x)`). */
  predicate Truthy(m: Option<string>)
  {
    m.Some? && m.value != ""
  }

  /** `Object.values(fieldErrors).some(Boolean)`: since both messages are
      non-empty, this holds exactly when some field has a message. */
  function AnyFieldError(errors: FieldErrorMap): (b: bool)
    requires errors.username.Some? ==> errors.username.value == UsernameMessage
    requires errors.password.Some? ==> errors.password.value == PasswordMessage
    ensures b <==> errors.username.Some? || errors.password.Some?
  {
    Truthy(errors.username) || Truthy(errors.password)
  }

  /** `form.get("redirectTo") || "/"`: a missing value and the empty string
      are falsy and fall back to "/"; anything else (a file object included)
      is kept. */
  function DefaultRedirect(v: FormValue): (r: FormValue)
    ensures r != Absent && r != Text("")
    ensures v == Absent || v == Text("") ==> r == Text("/")
    ensures v != Absent && v != Text("") ==> r == v
  {
    if v == Absent || v == Text("") then Text("/") else v
  }

  /** The shape check on the four values after the fallback: all strings. */
  predicate ShapeOk(form: Form)
  {
    form.loginType.Text? && form.username.Text? && form.password.Text? && DefaultRedirect(form.redirectTo).Text?
  }

  /** The redirect target a well-shaped form asks for. */
  function RedirectTarget(form: Form): (target: string)
    requires ShapeOk(form)
    ensures target != ""
    ensures form.redirectTo.Text? && form.redirectTo.s != "" ==> target == form.redirectTo.s
    ensures !(form.redirectTo.Text? && form.redirectTo.s != "") ==> target == "/"
  {
    DefaultRedirect(form.redirectTo).s
  }

  /** The echoed fields of a well-shaped form. */
  function EchoedFields(form: Form): Fields
    requires ShapeOk(form)
  {
    Fields(form.loginType.s, form.username.s, form.password.s)
  }

  /** A well-shaped form whose fields both pass validation. */
  predicate Validated(form: Form)
  {
    ShapeOk(form) && |form.username.s| > 0 && |form.password.s| > 0
  }

  /** The server action of `createServerAction$`, as a function of the form,
      the store before the call and whether the store's `register` fails.
      Control is straight-line with early exits, in the source's order:
      fallback, shape check, field validation, dispatch, session. */
  function Action(form: Form, st: Store, createFails: bool): (r: Step)
    // failures never touch the store or the session
    ensures !r.outcome.Session? ==> r.store == st
    // the shape check comes first and carries nothing
    ensures r.outcome.ShapeError? <==> !ShapeOk(form)
    ensures r.outcome.ShapeError? ==> r.outcome.message == ShapeMessage
    // field validation comes before any dispatch
    ensures r.outcome.FieldErrors? <==>
      ShapeOk(form) && (|form.username.s| == 0 || |form.password.s| == 0)
    ensures r.outcome.FieldErrors? ==>
      && r.outcome.message == FieldsInvalidMessage
      && r.outcome.fields == EchoedFields(form)
      && r.outcome.fieldErrors.username.Some? == (|form.username.s| == 0)
      && r.outcome.fieldErrors.password.Some? == (|form.password.s| == 0)
      && r.outcome.fieldErrors == FieldErrorMap(ValidateUsername(form.username), ValidatePassword(form.password))
    ensures r.outcome.FormError? ==> ShapeOk(form) && r.outcome.fields == EchoedFields(form)
    // a session is created only on a successful login or registration
    ensures r.outcome.Session? ==>
      && ShapeOk(form)
      && r.outcome.redirectTo == RedirectTarget(form)
      && r.store.session == Some(r.outcome.userId)
      && form.username.s in r.store.users
      && r.outcome.userId == IdString(r.store.users[form.username.s].id)
      && r.store.users[form.username.s].password == form.password.s
    ensures r.outcome.Session? && form.loginType == Text("login") ==>
      r.store.users == st.users && r.store.nextId == st.nextId
    ensures r.outcome.Session? && form.loginType == Text("register") ==>
      form.username.s !in st.users && r.store.users.Keys == st.users.Keys + {form.username.s}
    ensures r.outcome.Session? <==>
      && Validated(form)
      && (|| (form.loginType.s == "login" && UserStore.Login(st, form.username.s, form.password.s).Some?)
          || (form.loginType.s == "register" && form.username.s !in st.users && !createFails))
    // the store invariant is kept
    ensures Valid(st) ==> Valid(r.store)
  {
    var redirectTo := DefaultRedirect(form.redirectTo);
    if !(form.loginType.Text? && form.username.Text? && form.password.Text? && redirectTo.Text?) then
      Step(ShapeError(ShapeMessage), st)
    else
      var loginType, username, password := form.loginType.s, form.username.s, form.password.s;
      var fields := Fields(loginType, username, password);
      var fieldErrors := FieldErrorMap(ValidateUsername(form.username), ValidatePassword(form.password));
      if AnyFieldError(fieldErrors) then
        Step(FieldErrors(FieldsInvalidMessage, fieldErrors, fields), st)
      else if loginType == "login" then
        match UserStore.Login(st, username, password)
        case None => Step(FormError(IncorrectMessage, fields), st)
        case Some(user) =>
          var id := IdString(user.id);
          Step(Session(id, redirectTo.s), CreateSession(st, id))
      else if loginType == "register" then
        if FindUnique(st, username).Some? then
          Step(FormError(ExistsMessage(username), fields), st)
        else
          var created := Register(st, username, password, createFails);
          match created.user
          case None => Step(FormError(CreateFailedMessage, fields), created.store)
          case Some(user) =>
            var id := IdString(user.id);
            Step(Session(id, redirectTo.s), CreateSession(created.store, id))
      else
        Step(FormError(LoginTypeInvalidMessage, fields), st)
  }

  /** An empty field is reported as a field error even when the login type is
      unknown: validation runs before the dispatch. */
  lemma ValidationBeforeDispatch(form: Form, st: Store, createFails: bool)
    requires ShapeOk(form) && form.loginType.s != "login" && form.loginType.s != "register"
    requires |form.username.s| == 0
    ensures Action(form, st, createFails) ==
      Step(FieldErrors(FieldsInvalidMessage,
                       FieldErrorMap(Some(UsernameMessage), ValidatePassword(form.password)),
                       EchoedFields(form)), st)
  {
  }

  /** `"login"` with no matching user: the credential error, fields echoed, no
      field errors, nothing changed. */
  lemma LoginNoMatch(form: Form, st: Store, createFails: bool)
    requires Validated(form) && form.loginType.s == "login"
    requires UserStore.Login(st, form.username.s, form.password.s).None?
    ensures Action(form, st, createFails) == Step(FormError(IncorrectMessage, EchoedFields(form)), st)
  {
  }

  /** `"login"` with a matching user: one session, bound to that user's id
      string, redirecting to the requested target; the users are untouched. */
  lemma LoginSucceeds(form: Form, st: Store, createFails: bool, user: User)
    requires Validated(form) && form.loginType.s == "login"
    requires UserStore.Login(st, form.username.s, form.password.s) == Some(user)
    ensures Action(form, st, createFails) ==
      Step(Session(IdString(user.id), RedirectTarget(form)), st.(session := Some(IdString(user.id))))
  {
  }

  /** `"register"` with a taken username: the conflict error, and the store is
      never asked to register. */
  lemma RegisterTaken(form: Form, st: Store, createFails: bool)
    requires Validated(form) && form.loginType.s == "register"
    requires form.username.s in st.users
    ensures Action(form, st, createFails) ==
      Step(FormError(ExistsMessage(form.username.s), EchoedFields(form)), st)
  {
  }

  /** `"register"` where the store yields no user: the generic creation error,
      no session. */
  lemma RegisterFails(form: Form, st: Store)
    requires Validated(form) && form.loginType.s == "register"
    requires form.username.s !in st.users
    ensures Action(form, st, true) == Step(FormError(CreateFailedMessage, EchoedFields(form)), st)
  {
  }

  /** `"register"` of a new username: exactly one user is added under the next
      identifier, and one session is bound to it. */
  lemma RegisterSucceeds(form: Form, st: Store)
    requires Validated(form) && form.loginType.s == "register"
    requires form.username.s !in st.users
    ensures Action(form, st, false) ==
      Step(Session(IdString(st.nextId), RedirectTarget(form)),
           Store(st.users[form.username.s := User(st.nextId, form.password.s)],
                 st.nextId + 1,
                 Some(IdString(st.nextId))))
  {
  }

  /** Any other login type that passes validation: "Login type invalid". */
  lemma UnknownLoginType(form: Form, st: Store, createFails: bool)
    requires Validated(form) && form.loginType.s != "login" && form.loginType.s != "register"
    ensures Action(form, st, createFails) == Step(FormError(LoginTypeInvalidMessage, EchoedFields(form)), st)
  {
  }

  /** After any submission on a valid store, the session (if any) names exactly
      one stored user. */
  lemma SessionIdentifiesUser(form: Form, st: Store, createFails: bool, u: string, v: string)
    requires Valid(st)
    requires Action(form, st, createFails).store.session.Some?
    requires var st' := Action(form, st, createFails).store;
      && u in st'.users && v in st'.users
      && IdString(st'.users[u].id) == st'.session.value
      && IdString(st'.users[v].id) == st'.session.value
    ensures u == v
  {
    SessionNamesOneUser(Action(form, st, createFails).store, u, v);
  }

  /** The route's store and session as mutable state, with the store calls the
      action makes and the action itself as methods. */
  class AuthServer {
    var users: map<string, User>
    var nextId: nat
    var session: Option<string>

    /** The abstract value of this object. */
    function State(): Store
      reads this
    {
      Store(users, nextId, session)
    }

    constructor (init: Store)
      ensures State() == init
    {
      users, nextId, session := init.users, init.nextId, init.session;
    }

    /** `login({ username, password })`. */
    method Login(username: string, password: string) returns (user: Option<User>)
      ensures user.Some? <==> username in users && users[username].password == password
      ensures user == UserStore.Login(State(), username, password)
    {
      if username in users && users[username].password == password {
        user := Some(users[username]);
      } else {
        user := None;
      }
    }

    /** `db.user.findUnique({ where: { username } })`. */
    method FindUnique(username: string) returns (user: Option<User>)
      ensures user.Some? <==> username in users
      ensures user == UserStore.FindUnique(State(), username)
    {
      if username in users {
        user := Some(users[username]);
      } else {
        user := None;
      }
    }

    /** `register({ username, password })`; `fails` is the store failure. */
    method Register(username: string, password: string, fails: bool) returns (user: Option<User>)
      modifies this
      ensures Created(user, State()) == UserStore.Register(old(State()), username, password, fails)
    {
      if fails || username in users {
        user := None;
      } else {
        var created := User(nextId, password);
        users := users[username := created];
        nextId := nextId + 1;
        user := Some(created);
      }
    }

    /** `createUserSession(userId, redirectTo)`: overwrites the session slot and
        answers with the redirect. */
    method CreateUserSession(userId: string, redirectTo: string) returns (response: Outcome)
      modifies this`session
      ensures session == Some(userId)
      ensures response == Session(userId, redirectTo)
    {
      session := Some(userId);
      response := Session(userId, redirectTo);
    }

    /** The server action, step by step as the route runs it. */
    method Submit(form: Form, createFails: bool) returns (outcome: Outcome)
      modifies this
      ensures Step(outcome, State()) == Action(form, old(State()), createFails)
      ensures Valid(old(State())) ==> Valid(State())
    {
      var loginType := form.loginType;
      var username := form.username;
      var password := form.password;
      var redirectTo := DefaultRedirect(form.redirectTo);
      if !loginType.Text? || !username.Text? || !password.Text? || !redirectTo.Text? {
        return ShapeError(ShapeMessage);
      }

      var fields := Fields(loginType.s, username.s, password.s);
      var fieldErrors := FieldErrorMap(ValidateUsername(username), ValidatePassword(password));
      if AnyFieldError(fieldErrors) {
        return FieldErrors(FieldsInvalidMessage, fieldErrors, fields);
      }

      if loginType.s == "login" {
        var user := Login(username.s, password.s);
        if user.None? {
          return FormError(IncorrectMessage, fields);
        }
        outcome := CreateUserSession(IdString(user.value.id), redirectTo.s);
      } else if loginType.s == "register" {
        var userExists := FindUnique(username.s);
        if userExists.Some? {
          return FormError(ExistsMessage(username.s), fields);
        }
        var user := Register(username.s, password.s, createFails);
        if user.None? {
          return FormError(CreateFailedMessage, fields);
        }
        outcome := CreateUserSession(IdString(user.value.id), redirectTo.s);
      } else {
        outcome := FormError(LoginTypeInvalidMessage, fields);
      }
    }
  }
}
