/**
  The login form: two fields, a per-field error map, a server-level error
  and a password-visibility toggle. Submitting with an empty field is
  stopped by the browser; otherwise it validates the fields and either
  records field errors, records the generic server error, or asks for
  navigation to the dashboard.
 */
module Login {

  datatype Field = Username | Password

  const UsernameMessage := "Username must be at least 3 characters"
  const PasswordMessage := "Password must be at least 8 characters"
  const ServerErrorMessage := "Invalid username or password"
  const Destination := "/dashboard"

  /**
    The component state. `errors` maps a field to the text shown under it;
    an entry holding "" is the cleared state, which shows nothing.
   */
  datatype LoginState = LoginState(
    username: string,
    password: string,
    showPassword: bool,
    errors: map<Field, string>,
    serverError: string)

  /** Empty fields, password hidden, no field errors and an empty server error. */
  const Initial := LoginState("", "", false, map[], "")

  lemma InitialIsEmpty()
    ensures Initial.username == "" && Initial.password == ""
    ensures !Initial.showPassword
    ensures Initial.errors == map[] && Initial.serverError == ""
  {
  }

  function Value(st: LoginState, f: Field): string {
    match f
    case Username => st.username
    case Password => st.password
  }

  /** An error is shown under `f` when its entry is present and non-empty. */
  predicate Shown(errors: map<Field, string>, f: Field) {
    f in errors && errors[f] != ""
  }

  /** The minimum lengths of the login schema. */
  predicate FieldValid(f: Field, v: string) {
    match f
    case Username => |v| >= 3
    case Password => |v| >= 8
  }

  /** The schema's fixed message of each field: a visible text, distinct from the other field's and from the server error. */
  function Message(f: Field): (r: string)
    ensures r != "" && r != ServerErrorMessage
    ensures f == Username ==> r != PasswordMessage
    ensures f == Password ==> r != UsernameMessage
  {
    match f
    case Username => UsernameMessage
    case Password => PasswordMessage
  }

  predicate FormValid(st: LoginState) {
    FieldValid(Username, st.username) && FieldValid(Password, st.password)
  }

  /** The per-field errors of a failed parse: one entry, with its message, for each failing field only. */
  function ValidationErrors(st: LoginState): (r: map<Field, string>)
    ensures forall f :: f in r <==> !FieldValid(f, Value(st, f))
    ensures forall f :: f in r ==> r[f] == Message(f)
    ensures r == map[] <==> FormValid(st)
  {
    var u := if FieldValid(Username, st.username) then map[] else map[Username := UsernameMessage];
    var p := if FieldValid(Password, st.password) then map[] else map[Password := PasswordMessage];
    assert Username in u + p <==> !FieldValid(Username, st.username);
    assert Password in u + p <==> !FieldValid(Password, st.password);
    u + p
  }

  /** Typing into field `f`: only that field's value changes, and only its error is cleared. */
  function Change(st: LoginState, f: Field, v: string): (r: LoginState)
    ensures Value(r, f) == v
    ensures forall g :: g != f ==> Value(r, g) == Value(st, g)
    ensures f in r.errors && !Shown(r.errors, f)
    ensures forall g :: g != f ==> (g in r.errors <==> g in st.errors)
    ensures forall g :: g != f && g in st.errors ==> r.errors[g] == st.errors[g]
    ensures r.showPassword == st.showPassword && r.serverError == st.serverError
  {
    var st' := match f
      case Username => st.(username := v)
      case Password => st.(password := v);
    st'.(errors := st.errors[f := ""])
  }

  /** The eye button. */
  function TogglePassword(st: LoginState): (r: LoginState)
    ensures r.showPassword == !st.showPassword
    ensures r.(showPassword := st.showPassword) == st
  {
    st.(showPassword := !st.showPassword)
  }

  lemma ToggleTwiceRestores(st: LoginState)
    ensures TogglePassword(TogglePassword(st)) == st
  {
  }

  /** The state after a submit, and the navigations it requested (at most one). */
  datatype SubmitOutcome = SubmitOutcome(state: LoginState, navigations: seq<string>)

  /**
    Both inputs are `required` and the form does not opt out of the browser's
    checks, so the submit event only fires when neither field is empty.
   */
  predicate Filled(st: LoginState) {
    st.username != "" && st.password != ""
  }

  /**
    Submitting: with an empty field the browser blocks the submit event and
    nothing changes. Otherwise the server error is cleared first; a failing
    parse replaces the field errors; a passing one is followed by the
    authentication step, whose failure (`authFails`) sets the generic server
    error and whose success navigates to the dashboard.
   */
  function Submit(st: LoginState, authFails: bool): (r: SubmitOutcome)
    ensures !Filled(st) ==> r == SubmitOutcome(st, [])
    ensures r.state.username == st.username && r.state.password == st.password
    ensures r.state.showPassword == st.showPassword
    ensures Filled(st) && !FormValid(st) ==> r.state.errors == ValidationErrors(st) && r.navigations == []
    ensures Filled(st) && !FormValid(st) ==> r.state.serverError == ""
    ensures Filled(st) ==> (r.state.serverError != "" <==> FormValid(st) && authFails)
    ensures Filled(st) && r.state.serverError != "" ==> r.state.serverError == ServerErrorMessage
    ensures FormValid(st) ==> Filled(st) && r.state.errors == st.errors
    ensures r.navigations != [] <==> FormValid(st) && !authFails
    ensures r.navigations != [] ==> r.navigations == [Destination]
  {
    var cleared := st.(serverError := "");
    if !Filled(st) then
      SubmitOutcome(st, [])
    else if !FormValid(st) then
      SubmitOutcome(cleared.(errors := ValidationErrors(st)), [])
    else if authFails then
      SubmitOutcome(cleared.(serverError := ServerErrorMessage), [])
    else
      SubmitOutcome(cleared, [Destination])
  }

  /** Every error on screen belongs to a field whose current value is invalid. */
  predicate ErrorsSound(st: LoginState) {
    forall f :: Shown(st.errors, f) ==> !FieldValid(f, Value(st, f))
  }

  /** The form starts sound, and every step keeps it sound. */
  lemma ErrorsSoundPreserved(st: LoginState, f: Field, v: string, authFails: bool)
    requires ErrorsSound(st)
    ensures ErrorsSound(Initial)
    ensures ErrorsSound(Change(st, f, v))
    ensures ErrorsSound(TogglePassword(st))
    ensures ErrorsSound(Submit(st, authFails).state)
  {
    var c := Change(st, f, v);
    forall g | Shown(c.errors, g) ensures !FieldValid(g, Value(c, g)) {
      assert g != f;
    }
    var s := Submit(st, authFails).state;
    forall g | Shown(s.errors, g) ensures !FieldValid(g, Value(s, g)) {
      assert Value(s, g) == Value(st, g);
    }
  }

  /**
    A successful login from a reachable (sound) state navigates once and
    leaves no field error and no server error on screen.
   */
  lemma SuccessShowsNoErrors(st: LoginState)
    requires ErrorsSound(st) && FormValid(st)
    ensures Submit(st, false).navigations == [Destination]
    ensures forall f :: !Shown(Submit(st, false).state.errors, f)
    ensures Submit(st, false).state.serverError == ""
  {
    forall f ensures !Shown(Submit(st, false).state.errors, f) {
      assert FieldValid(f, Value(st, f));
    }
  }

  /**
    A two-character username with a password typed in never reaches
    authentication and shows the username message.
   */
  lemma ShortUsernameRejected(st: LoginState, authFails: bool)
    requires st.username == "ab" && st.password != ""
    ensures Submit(st, authFails).navigations == []
    ensures Shown(Submit(st, authFails).state.errors, Username)
    ensures Submit(st, authFails).state.errors[Username] == UsernameMessage
    ensures Submit(st, authFails).state.serverError == ""
  {
    assert !FieldValid(Username, Value(st, Username));
  }

  /** "abc" with "12345678" passes validation and, when authentication succeeds, navigates exactly once. */
  /** With the fields still empty, pressing Login changes nothing: no message appears and nothing navigates. */
  lemma EmptyFieldsBlocked(authFails: bool)
    ensures Submit(Initial, authFails) == SubmitOutcome(Initial, [])
    ensures ValidationErrors(Initial) != map[]
  {
  }

  lemma MinimalCredentialsAccepted(st: LoginState)
    requires st.username == "abc" && st.password == "12345678"
    ensures Submit(st, false).navigations == [Destination]
    ensures |Submit(st, false).navigations| == 1
  {
  }
}
