/** The application shell (App.jsx): the session state, the startup sequence
    (connectivity probe, then session restore), login, signup, logout and the
    rule that picks what is rendered. */
module Shell {
  import opened Gateway

  datatype Screen = LandingScreen | DashboardScreen

  /** The four pieces of state the shell keeps. */
  datatype Session = Session(user: Option<Rec>, currentScreen: Screen, backendConnected: bool, isLoading: bool)

  /** The state before startup has run. */
  const InitialSession := Session(None, LandingScreen, false, true)

  /** What the shell renders: the loading screen, or the connection banner
      together with the landing page or the dashboard of a user. */
  datatype View = Connecting | LandingView(connected: bool) | DashboardShown(connected: bool, user: Rec)

  /** The session lookup `from('user').me()`. */
  const MeCall := Me("user")

  /** The record sent by `signup`: the caller's fields, with the role fixed. */
  function SignupFields(email: string, password: string, name: string, lunarAddress: string): (m: map<string, string>)
    ensures m.Keys == {"email", "password", "name", "lunarAddress", "role"}
    ensures m["role"] == "customer"
    ensures m["email"] == email && m["password"] == password
    ensures m["name"] == name && m["lunarAddress"] == lunarAddress
  {
    map["email" := email, "password" := password, "name" := name,
        "lunarAddress" := lunarAddress, "role" := "customer"]
  }

  /** Rendering rule: the loading screen while loading; afterwards the
      dashboard exactly when the screen is not 'landing' and a user is set. */
  function Render(s: Session): (v: View)
    ensures v.Connecting? <==> s.isLoading
    ensures v.DashboardShown? <==> !s.isLoading && s.currentScreen != LandingScreen && s.user.Some?
    ensures v.DashboardShown? ==> v.user == s.user.value
    ensures !v.Connecting? ==> v.connected == s.backendConnected
  {
    if s.isLoading then Connecting
    else if s.currentScreen == LandingScreen || s.user.None? then LandingView(s.backendConnected)
    else DashboardShown(s.backendConnected, s.user.value)
  }

  /** The startup sequence: probe connectivity, and only when it succeeds try
      to restore the session; a failed restore is absorbed. */
  function Startup(s: Session, b: Backend, h: seq<Call>): (r: Run<Session>)
    ensures !r.state.isLoading && r.outcome == Done
    ensures 1 <= |r.calls| <= 2 && r.calls[0] == Probe
    ensures r.state.backendConnected <==> b.ack(h, Probe).Ok?
    ensures b.ack(h, Probe).Err? ==>
              r.calls == [Probe] && r.state.user == s.user && r.state.currentScreen == s.currentScreen
    ensures b.ack(h, Probe).Ok? ==> r.calls == [Probe, MeCall]
    ensures b.ack(h, Probe).Ok? && b.record(h + [Probe], MeCall).Ok? ==>
              r.state.user == Some(b.record(h + [Probe], MeCall).value) && r.state.currentScreen == DashboardScreen
    ensures b.ack(h, Probe).Ok? && b.record(h + [Probe], MeCall).Err? ==>
              r.state.user == None && r.state.currentScreen == LandingScreen
  {
    var probe := b.ack(h, Probe);
    if probe.Err? then
      Run(s.(backendConnected := false, isLoading := false), [Probe], Done)
    else
      var me := b.record(h + [Probe], MeCall);
      if me.Ok? then
        Run(Session(Some(me.value), DashboardScreen, true, false), [Probe, MeCall], Done)
      else
        Run(s.(user := None, currentScreen := LandingScreen, backendConnected := true, isLoading := false),
            [Probe, MeCall], Done)
  }

  /** `login`: authenticate, then look the user up; a rejection of either
      call propagates and leaves the session as it was. */
  function LoginRun(s: Session, email: string, password: string, b: Backend, h: seq<Call>): (r: Run<Session>)
    ensures 1 <= |r.calls| <= 2 && r.calls[0] == Login(email, password)
    ensures b.ack(h, Login(email, password)).Err? ==>
              r.calls == [Login(email, password)] && r.state == s
              && r.outcome == Thrown(b.ack(h, Login(email, password)).message)
    ensures b.ack(h, Login(email, password)).Ok? ==> r.calls == [Login(email, password), MeCall]
    ensures b.ack(h, Login(email, password)).Ok? && b.record(h + [Login(email, password)], MeCall).Ok? ==>
              r.outcome == Done
              && r.state == s.(user := Some(b.record(h + [Login(email, password)], MeCall).value),
                               currentScreen := DashboardScreen)
    ensures b.ack(h, Login(email, password)).Ok? && b.record(h + [Login(email, password)], MeCall).Err? ==>
              r.outcome == Thrown(b.record(h + [Login(email, password)], MeCall).message) && r.state == s
  {
    var c0 := Login(email, password);
    var login := b.ack(h, c0);
    if login.Err? then Run(s, [c0], Thrown(login.message))
    else
      var me := b.record(h + [c0], MeCall);
      if me.Err? then Run(s, [c0, MeCall], Thrown(me.message))
      else Run(s.(user := Some(me.value), currentScreen := DashboardScreen), [c0, MeCall], Done)
  }

  /** `signup`: create a customer with the given fields, log in with the same
      credentials, then look the user up; the first rejection propagates and
      leaves the session as it was. */
  function SignupRun(s: Session, email: string, password: string, name: string, lunarAddress: string,
                     b: Backend, h: seq<Call>): (r: Run<Session>)
    ensures 1 <= |r.calls| <= 3
    ensures r.calls[0] == Signup("user", SignupFields(email, password, name, lunarAddress))
    ensures |r.calls| >= 2 ==> r.calls[1] == Login(email, password)
    ensures |r.calls| == 3 ==> r.calls[2] == MeCall
    ensures var c0 := Signup("user", SignupFields(email, password, name, lunarAddress));
            b.ack(h, c0).Err? ==> r == Run(s, [c0], Thrown(b.ack(h, c0).message))
    ensures var c0, c1 := Signup("user", SignupFields(email, password, name, lunarAddress)), Login(email, password);
            b.ack(h, c0).Ok? && b.ack(h + [c0], c1).Err? ==>
              r == Run(s, [c0, c1], Thrown(b.ack(h + [c0], c1).message))
    ensures var c0, c1 := Signup("user", SignupFields(email, password, name, lunarAddress)), Login(email, password);
            b.ack(h, c0).Ok? && b.ack(h + [c0], c1).Ok? && b.record(h + [c0] + [c1], MeCall).Err? ==>
              r == Run(s, [c0, c1, MeCall], Thrown(b.record(h + [c0] + [c1], MeCall).message))
    ensures var c0, c1 := Signup("user", SignupFields(email, password, name, lunarAddress)), Login(email, password);
            b.ack(h, c0).Ok? && b.ack(h + [c0], c1).Ok? && b.record(h + [c0] + [c1], MeCall).Ok? ==>
              r == Run(s.(user := Some(b.record(h + [c0] + [c1], MeCall).value), currentScreen := DashboardScreen),
                       [c0, c1, MeCall], Done)
    ensures r.outcome.Done? || r.outcome.Thrown?
    ensures r.outcome != Done ==> r.state == s
    ensures r.outcome == Done ==> (|r.calls| == 3 && r.state.currentScreen == DashboardScreen
                                   && b.record(h + [r.calls[0]] + [r.calls[1]], MeCall).Ok?
                                   && r.state.user == Some(b.record(h + [r.calls[0]] + [r.calls[1]], MeCall).value))
  {
    var c0 := Signup("user", SignupFields(email, password, name, lunarAddress));
    var signup := b.ack(h, c0);
    if signup.Err? then Run(s, [c0], Thrown(signup.message))
    else
      var c1 := Login(email, password);
      var login := b.ack(h + [c0], c1);
      if login.Err? then Run(s, [c0, c1], Thrown(login.message))
      else
        var me := b.record(h + [c0] + [c1], MeCall);
        if me.Err? then Run(s, [c0, c1, MeCall], Thrown(me.message))
        else Run(s.(user := Some(me.value), currentScreen := DashboardScreen), [c0, c1, MeCall], Done)
  }

  /** `logout`: invalidate the session remotely, and only when that succeeds
      clear the user and return to the landing screen. */
  function LogoutRun(s: Session, b: Backend, h: seq<Call>): (r: Run<Session>)
    ensures r.calls == [Logout]
    ensures b.ack(h, Logout).Ok? ==>
              r.outcome == Done && r.state == s.(user := None, currentScreen := LandingScreen)
    ensures b.ack(h, Logout).Err? ==>
              r.outcome == Thrown(b.ack(h, Logout).message) && r.state == s
  {
    var logout := b.ack(h, Logout);
    if logout.Err? then Run(s, [Logout], Thrown(logout.message))
    else Run(s.(user := None, currentScreen := LandingScreen), [Logout], Done)
  }

  /** Signup is the signup call followed by exactly what login does with the
      same credentials. */
  lemma SignupIsSignupThenLogin(s: Session, email: string, password: string, name: string, lunarAddress: string,
                                b: Backend, h: seq<Call>)
    ensures var c0 := Signup("user", SignupFields(email, password, name, lunarAddress));
            var r := SignupRun(s, email, password, name, lunarAddress, b, h);
            var l := LoginRun(s, email, password, b, h + [c0]);
            b.ack(h, c0).Ok? ==> r == Run(l.state, [c0] + l.calls, l.outcome)
  {
  }

  /** After startup the loading screen is gone; when the probe fails the
      landing page is shown with the disconnected banner. */
  lemma StartupRendersNoLoadingScreen(b: Backend, h: seq<Call>)
    ensures var v := Render(Startup(InitialSession, b, h).state);
            !v.Connecting?
            && (b.ack(h, Probe).Err? ==> v == LandingView(false))
            && (v.DashboardShown? <==> b.ack(h, Probe).Ok? && b.record(h + [Probe], MeCall).Ok?)
  {
  }

  /** The shell's component state. `gw` is the `manifest` client it hands to
      the pages. */
  class App {
    var user: Option<Rec>
    var currentScreen: Screen
    var backendConnected: bool
    var isLoading: bool
    const gw: Gateway

    function State(): Session
      reads this
    {
      Session(user, currentScreen, backendConnected, isLoading)
    }

    /** The initial `useState` values. */
    constructor (gw: Gateway)
      ensures State() == InitialSession && this.gw == gw
    {
      user, currentScreen, backendConnected, isLoading := None, LandingScreen, false, true;
      this.gw := gw;
    }

    /** `initializeApp`, run once by the mount effect. */
    method Initialize()
      modifies this, gw
      ensures var r := Startup(old(State()), gw.backend, old(gw.trace));
              State() == r.state && gw.trace == old(gw.trace) + r.calls
    {
      var probe := gw.Ack(Probe);
      backendConnected := probe.Ok?;
      if probe.Ok? {
        var me := gw.Record(MeCall);
        if me.Ok? {
          user := Some(me.value);
          currentScreen := DashboardScreen;
        } else {
          user := None;
          currentScreen := LandingScreen;
        }
      }
      isLoading := false;
    }

    method Login(email: string, password: string) returns (o: Outcome)
      modifies this, gw
      ensures var r := LoginRun(old(State()), email, password, gw.backend, old(gw.trace));
              State() == r.state && gw.trace == old(gw.trace) + r.calls && o == r.outcome
    {
      var login := gw.Ack(Call.Login(email, password));
      if login.Err? {
        return Thrown(login.message);
      }
      var me := gw.Record(MeCall);
      if me.Err? {
        return Thrown(me.message);
      }
      user := Some(me.value);
      currentScreen := DashboardScreen;
      o := Done;
    }

    method Signup(email: string, password: string, name: string, lunarAddress: string) returns (o: Outcome)
      modifies this, gw
      ensures var r := SignupRun(old(State()), email, password, name, lunarAddress, gw.backend, old(gw.trace));
              State() == r.state && gw.trace == old(gw.trace) + r.calls && o == r.outcome
    {
      var signup := gw.Ack(Call.Signup("user", SignupFields(email, password, name, lunarAddress)));
      if signup.Err? {
        return Thrown(signup.message);
      }
      var login := gw.Ack(Call.Login(email, password));
      if login.Err? {
        return Thrown(login.message);
      }
      var me := gw.Record(MeCall);
      if me.Err? {
        return Thrown(me.message);
      }
      user := Some(me.value);
      currentScreen := DashboardScreen;
      o := Done;
    }

    method Logout() returns (o: Outcome)
      modifies this, gw
      ensures var r := LogoutRun(old(State()), gw.backend, old(gw.trace));
              State() == r.state && gw.trace == old(gw.trace) + r.calls && o == r.outcome
    {
      var logout := gw.Ack(Call.Logout);
      if logout.Err? {
        return Thrown(logout.message);
      }
      user := None;
      currentScreen := LandingScreen;
      o := Done;
    }
  }
}
