/** The login/signup form (LandingPage.jsx): the mode flag, the fields, the
    loading flag and the error text, and the submit handler that dispatches to
    the shell's login or signup. */
module Landing {
  import opened Gateway
  import opened Shell

  /** The error shown when a rejection carries no message. */
  const DefaultError := "An error occurred. Please check your credentials."

  /** The form's component state. */
  datatype Form = Form(
    isLogin: bool,
    email: string,
    password: string,
    name: string,
    lunarAddress: string,
    loading: bool,
    error: string)

  /** The initial `useState` values: login mode, empty fields, no error. */
  const InitialForm := Form(true, "", "", "", "", false, "")

  /** `err.message || default`: the message, unless it is empty. */
  function ErrorText(message: string): (t: string)
    ensures t != ""
    ensures message != "" ==> t == message
    ensures message == "" ==> t == DefaultError
  {
    if message != "" then message else DefaultError
  }

  /** The call the submit makes: `onLogin(email, password)` in login mode,
      `onSignup(email, password, name, lunarAddress)` otherwise. */
  function Dispatch(f: Form, s: Session, b: Backend, h: seq<Call>): (r: Run<Session>)
    ensures f.isLogin ==> r == LoginRun(s, f.email, f.password, b, h)
    ensures !f.isLogin ==> r == SignupRun(s, f.email, f.password, f.name, f.lunarAddress, b, h)
  {
    if f.isLogin then LoginRun(s, f.email, f.password, b, h)
    else SignupRun(s, f.email, f.password, f.name, f.lunarAddress, b, h)
  }

  /** Exactly one of login and signup runs: the first call is the login in
      login mode and the signup of a customer otherwise. */
  lemma DispatchCallsExactlyOne(f: Form, s: Session, b: Backend, h: seq<Call>)
    ensures var r := Dispatch(f, s, b, h);
            |r.calls| >= 1
            && (r.calls[0] == Login(f.email, f.password) <==> f.isLogin)
            && (r.calls[0] == Signup("user", SignupFields(f.email, f.password, f.name, f.lunarAddress)) <==> !f.isLogin)
  {
  }

  /** The form after a submit whose call ended with `o`: loading is over,
      the error is the thrown message (or the default) and empty otherwise,
      and the mode and fields are as they were. */
  function AfterSubmit(f: Form, o: Outcome): (g: Form)
    ensures !g.loading
    ensures o.Thrown? ==> g.error == ErrorText(o.message)
    ensures !o.Thrown? ==> g.error == ""
    ensures g.(loading := f.loading, error := f.error) == f
  {
    f.(loading := false, error := if o.Thrown? then ErrorText(o.message) else "")
  }

  /** A rejected login or signup always leaves a non-empty error on the form,
      and an accepted one none. */
  lemma SubmitErrorIffRejected(f: Form, s: Session, b: Backend, h: seq<Call>)
    ensures var r := Dispatch(f, s, b, h);
            (AfterSubmit(f, r.outcome).error != "" <==> r.outcome != Done)
            && (r.outcome != Done ==> r.state == s)
  {
  }

  /** The form component, holding the shell whose `login` and `signup` it was
      given as `onLogin` and `onSignup`. */
  class LandingPage {
    const app: App
    var isLogin: bool
    var email: string
    var password: string
    var name: string
    var lunarAddress: string
    var loading: bool
    var error: string

    function State(): Form
      reads this
    {
      Form(isLogin, email, password, name, lunarAddress, loading, error)
    }

    constructor (app: App)
      ensures State() == InitialForm && this.app == app
    {
      this.app := app;
      isLogin, email, password, name, lunarAddress := true, "", "", "", "";
      loading, error := false, "";
    }

    /** `handleSubmit`. The submit button is disabled while `loading` holds,
        so a submission starts only when no other is in flight; every
        submission ends with `loading` false again. */
    method HandleSubmit()
      requires !loading
      modifies this, app, app.gw
      ensures var r := Dispatch(old(State()), old(app.State()), app.gw.backend, old(app.gw.trace));
              && State() == AfterSubmit(old(State()), r.outcome)
              && app.State() == r.state
              && app.gw.trace == old(app.gw.trace) + r.calls
    {
      loading := true;
      error := "";
      var o: Outcome;
      if isLogin {
        o := app.Login(email, password);
      } else {
        o := app.Signup(email, password, name, lunarAddress);
      }
      if o.Thrown? {
        error := ErrorText(o.message);
      }
      loading := false;
    }

    /** The Login tab. */
    method SelectLogin()
      modifies this
      ensures State() == old(State()).(isLogin := true)
    {
      isLogin := true;
    }

    /** The Sign Up tab. */
    method SelectSignup()
      modifies this
      ensures State() == old(State()).(isLogin := false)
    {
      isLogin := false;
    }

    method SetEmail(value: string)
      modifies this
      ensures State() == old(State()).(email := value)
    {
      email := value;
    }

    method SetPassword(value: string)
      modifies this
      ensures State() == old(State()).(password := value)
    {
      password := value;
    }

    method SetName(value: string)
      modifies this
      ensures State() == old(State()).(name := value)
    {
      name := value;
    }

    method SetLunarAddress(value: string)
      modifies this
      ensures State() == old(State()).(lunarAddress := value)
    {
      lunarAddress := value;
    }
  }
}
