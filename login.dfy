/** The login form (src/pages/public/Login.jsx): the form state, the empty-field guard on
    submit, and the effect that leaves the page once signed in. */
module Login {

  import opened Common
  import AuthSlice

  const EmailField: string := "email"
  const PasswordField: string := "password"
  const HomePath: string := "/"

  /** What `handleSubmit` does: refuse a form whose `email` or `password` is empty, or dispatch
      `login` with the form object. */
  datatype SubmitOutcome = MissingField | DispatchLogin(payload: map<string, string>)

  function SubmitDecision(userData: map<string, string>): (o: SubmitOutcome)
    ensures o == MissingField <==> !Truthy(Lookup(userData, EmailField)) || !Truthy(Lookup(userData, PasswordField))
    ensures o.DispatchLogin? ==> o.payload == userData
  {
    if !Truthy(Lookup(userData, EmailField)) || !Truthy(Lookup(userData, PasswordField)) then MissingField
    else DispatchLogin(userData)
  }

  /** The form as the page builds it holds exactly the two fields, so the payload is
      `{email, password}`. */
  lemma {:induction false} LoginPayload(email: string, password: string)
    ensures SubmitDecision(map[EmailField := email, PasswordField := password]) ==
            (if email == "" || password == "" then MissingField
             else DispatchLogin(map[EmailField := email, PasswordField := password]))
  {
    var m := map[EmailField := email, PasswordField := password];
    assert Lookup(m, EmailField) == Some(email);
    assert Lookup(m, PasswordField) == Some(password);
  }

  /** The page leaves for `/` once the store reports success or holds a user. */
  predicate LeavesPage(isSuccess: bool, user: Option<AuthSlice.User>)
  {
    isSuccess || user.Some?
  }

  /** A signed-in visitor never sees the form: the effect redirects at once whatever the
      flags, and a visitor without a user stays until the login succeeds. */
  lemma RedirectRule(isSuccess: bool, user: Option<AuthSlice.User>)
    ensures user.Some? ==> LeavesPage(isSuccess, user)
    ensures user.None? ==> (LeavesPage(isSuccess, user) <==> isSuccess)
  {
  }

  class LoginForm {
    var userData: map<string, string>

    constructor ()
      ensures userData == map[EmailField := "", PasswordField := ""]
    {
      userData := map[EmailField := "", PasswordField := ""];
    }

    /** `handleChange`: only the named field changes. */
    method HandleChange(name: string, value: string)
      modifies this
      ensures userData == old(userData)[name := value]
    {
      userData := userData[name := value];
    }

    method HandleSubmit() returns (o: SubmitOutcome)
      ensures o == SubmitDecision(userData)
    {
      var email := Lookup(userData, EmailField);
      var password := Lookup(userData, PasswordField);
      if !Truthy(email) || !Truthy(password) {
        o := MissingField;
      } else {
        o := DispatchLogin(userData);
      }
    }

    /** The effect on every auth-store change: go home when signed in, then dispatch `reset`. */
    method OnAuthChange(store: AuthSlice.AuthStore) returns (navigateTo: Option<string>)
      modifies store
      ensures navigateTo == (if LeavesPage(old(store.isSuccess), old(store.user)) then Some(HomePath) else None)
      ensures Some(store.State()) == AuthSlice.Reduce(old(store.State()), AuthSlice.Reset, store.decode)
    {
      navigateTo := if store.isSuccess || store.user.Some? then Some(HomePath) else None;
      var _ := store.Dispatch(AuthSlice.Reset);
    }
  }
}
