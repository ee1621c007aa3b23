/** The user store and session slot the login route talks to.

    The application reaches them through `~/db/session` (`login`, `register`,
    `createUserSession`) and the database handle `db.user.findUnique`; that
    code is not part of this model, so the store is abstract: a map from
    username to the stored user, a counter for fresh identifiers, and the one
    session slot of the client that submits the form. */
module UserStore {
  import opened Options
  import opened Text

  /** A stored user: its identifier and the secret it was registered with. */
  datatype User = User(id: nat, password: string)

  /** Users by username, the next identifier to hand out, and the current
      session, which holds the user-id string it is bound to. */
  datatype Store = Store(users: map<string, User>, nextId: nat, session: Option<string>)

  /** What `register` hands back: the created user, if any, and the new store. */
  datatype Created = Created(user: Option<User>, store: Store)

  /** The store's own invariant: usernames are non-empty and unique (map keys),
      identifiers are unique and below the counter, and a current session is
      bound to the id string of some stored user. */
  ghost predicate Valid(st: Store)
  {
    && "" !in st.users
    && (forall u :: u in st.users ==> st.users[u].id < st.nextId)
    && (forall u, v :: u in st.users && v in st.users && u != v ==> st.users[u].id != st.users[v].id)
    && (st.session.Some? ==> exists u :: u in st.users && IdString(st.users[u].id) == st.session.value)
  }

  /** `db.user.findUnique({ where: { username } })`. */
  function FindUnique(st: Store, username: string): Option<User>
  {
    if username in st.users then Some(st.users[username]) else None
  }

  /** `login({ username, password })`: the user whose username and secret both
      match, if there is one. Password hashing is not part of this model. */
  function Login(st: Store, username: string, password: string): Option<User>
  {
    if username in st.users && st.users[username].password == password
    then Some(st.users[username])
    else None
  }

  /** `register({ username, password })`: adds a user under a fresh identifier.
      `fails` stands for a store failure the model cannot see; a username that
      is already taken is refused by the store's uniqueness constraint. */
  function Register(st: Store, username: string, password: string, fails: bool): (r: Created)
    ensures r.user.None? <==> fails || username in st.users
    ensures r.user.None? ==> r.store == st
    ensures r.user.Some? ==>
      && r.store.users == st.users[username := r.user.value]
      && r.user.value.password == password
      && r.store.session == st.session
    ensures Valid(st) && r.user.Some? ==>
      forall u :: u in st.users ==> st.users[u].id != r.user.value.id
    ensures Valid(st) && username != "" ==> Valid(r.store)
  {
    if fails || username in st.users then Created(None, st)
    else
      var user := User(st.nextId, password);
      var st' := Store(st.users[username := user], st.nextId + 1, st.session);
      assert Valid(st) && username != "" ==> Valid(st') by {
        if Valid(st) && username != "" {
          if st.session.Some? {
            var w :| w in st.users && IdString(st.users[w].id) == st.session.value;
            assert w in st'.users && st'.users[w] == st.users[w];
          }
        }
      }
      Created(Some(user), st')
  }

  /** `createUserSession(userId, redirectTo)` as far as the store sees it: the
      session slot is overwritten with the given user-id string. */
  function CreateSession(st: Store, userId: string): Store
  {
    st.(session := Some(userId))
  }

  /** The decimal digit for `d`. */
  function DigitChar(d: nat): (c: char)
    requires d < 10
    ensures IsDigit(c)
  {
    (('0' as int) + d) as char
  }

  predicate IsDigits(s: string)
  {
    forall i :: 0 <= i < |s| ==> IsDigit(s[i])
  }

  /** The template string `${user.id}` of an integer identifier: its decimal
      form, without leading zeros. */
  function IdString(n: nat): (s: string)
    ensures |s| >= 1 && IsDigits(s)
    ensures |s| > 1 ==> s[0] != '0'
    decreases n
  {
    if n < 10 then [DigitChar(n)] else IdString(n / 10) + [DigitChar(n % 10)]
  }

  /** Reads a string of decimal digits back as a number. */
  function ParseId(s: string): nat
    requires IsDigits(s)
  {
    if s == [] then 0 else ParseId(s[..|s| - 1]) * 10 + (s[|s| - 1] as int - '0' as int)
  }

  /** Reading the id string back yields the identifier. */
  lemma {:induction false} ParseIdString(n: nat)
    ensures ParseId(IdString(n)) == n
    decreases n
  {
    var s := IdString(n);
    if n >= 10 {
      assert s[..|s| - 1] == IdString(n / 10);
      ParseIdString(n / 10);
    }
  }

  /** Distinct identifiers give distinct session strings. */
  lemma IdStringInjective(m: nat, n: nat)
    ensures IdString(m) == IdString(n) ==> m == n
  {
    ParseIdString(m);
    ParseIdString(n);
  }

  /** In a valid store a session string names at most one user. */
  lemma SessionNamesOneUser(st: Store, u: string, v: string)
    requires Valid(st)
    requires u in st.users && v in st.users
    requires IdString(st.users[u].id) == IdString(st.users[v].id)
    ensures u == v
  {
    IdStringInjective(st.users[u].id, st.users[v].id);
  }
}
