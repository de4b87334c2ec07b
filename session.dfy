/** The dashboard's session state and what one run of the script does to it. Each user
    interaction reruns the whole script top to bottom against the same session state. */
module Session {
  import opened Telemetry
  import opened Health
  import opened Maintenance

  /** The navigation bar's buttons, left to right. */
  const Pages: seq<string> := ["Dashboard", "Vehicle", "Scheduling", "Manufacturing", "Security"]

  /** The three session-state fields. */
  datatype State = State(loggedIn: bool, page: string, failureProb: real)

  /** The state the first run creates: not logged in, on the Dashboard, probability 0.0. */
  const Initial: State := State(false, "Dashboard", 0.0)

  /** What every reachable state satisfies. */
  predicate Consistent(s: State) {
    s.page in Pages && 0.0 <= s.failureProb <= 1.0
  }

  /** The widget values one run reads: the login form, which navigation buttons were pressed,
      the six sliders and the classifier's failure probability for those sliders (the trained
      classifier is not modelled; its output is taken as given). */
  datatype Widgets = Widgets(
    username: string,
    password: string,
    loginPressed: bool,
    navPressed: seq<bool>,
    reading: Reading,
    prob: real)

  /** What the run guarantees about its inputs: five navigation columns, slider readings in
      their ranges, and a probability from the classifier. */
  predicate WellFormed(w: Widgets) {
    |w.navPressed| == |Pages| && InSliderRange(w.reading) && 0.0 <= w.prob <= 1.0
  }

  /** What one run shows. `LoginAccepted` is a run that ends by requesting a rerun; `Blank` is
      a page name outside the five, which shows nothing. */
  datatype Screen =
    | LoginForm(credentialsError: bool)
    | LoginAccepted
    | DashboardPanel
    | VehicleReport(scores: seq<int>, health: int, advice: VehicleAdvice)
    | SchedulingPanel(schedule: ScheduleAdvice)
    | ManufacturingPanel
    | SecurityPanel
    | Blank

  /** The page after the navigation loop visits the first |pressed| buttons: each pressed
      button overwrites the page, so the last pressed one wins. */
  function Navigate(page: string, pressed: seq<bool>, names: seq<string>): (r: string)
    requires |pressed| == |names|
    ensures r == page || r in names
    decreases |pressed|
  {
    if pressed == [] then page
    else
      var n := |pressed| - 1;
      if pressed[n] then names[n] else Navigate(page, pressed[..n], names[..n])
  }

  /** Reference reading of the loop: with no button pressed the page is unchanged. */
  lemma {:induction false} NavigateNonePressed(page: string, pressed: seq<bool>, names: seq<string>)
    requires |pressed| == |names|
    requires forall j :: 0 <= j < |pressed| ==> !pressed[j]
    ensures Navigate(page, pressed, names) == page
    decreases |pressed|
  {
    if pressed != [] {
      var n := |pressed| - 1;
      NavigateNonePressed(page, pressed[..n], names[..n]);
    }
  }

  /** Reference reading of the loop: the page becomes the name of the last pressed button. */
  lemma {:induction false} NavigateLastPressed(page: string, pressed: seq<bool>, names: seq<string>, i: nat)
    requires |pressed| == |names|
    requires i < |pressed| && pressed[i]
    requires forall j :: i < j < |pressed| ==> !pressed[j]
    ensures Navigate(page, pressed, names) == names[i]
    decreases |pressed|
  {
    var n := |pressed| - 1;
    if i < n {
      NavigateLastPressed(page, pressed[..n], names[..n], i);
    }
  }

  /** The page a navigation-bar press produces is always one of the five names. */
  lemma NavigateStaysInPages(page: string, pressed: seq<bool>)
    requires page in Pages
    requires |pressed| == |Pages|
    ensures Navigate(page, pressed, Pages) in Pages
  {
  }

  /** One run of the script: the login gate, then the navigation bar, then the chosen page. */
  function Step(s: State, w: Widgets): (State, Screen)
    requires WellFormed(w)
  {
    if !s.loggedIn then
      if !w.loginPressed then (s, LoginForm(false))
      else if w.username != "" && w.password != "" then (s.(loggedIn := true), LoginAccepted)
      else (s, LoginForm(true))
    else
      var page := Navigate(s.page, w.navPressed, Pages);
      var t := s.(page := page);
      if page == "Dashboard" then (t, DashboardPanel)
      else if page == "Vehicle" then
        (t.(failureProb := w.prob),
         VehicleReport(Scores(w.reading), OverallHealth(w.reading), Advice(w.prob)))
      else if page == "Scheduling" then (t, SchedulingPanel(Schedule(t.failureProb)))
      else if page == "Manufacturing" then (t, ManufacturingPanel)
      else if page == "Security" then (t, SecurityPanel)
      else (t, Blank)
  }

  /** A login press succeeds exactly when both fields are non-empty; otherwise the state is
      unchanged and an error is shown. */
  lemma LoginRule(s: State, w: Widgets)
    requires WellFormed(w)
    requires !s.loggedIn
    ensures Step(s, w).0.loggedIn <==> w.loginPressed && w.username != "" && w.password != ""
    ensures Step(s, w).0.page == s.page && Step(s, w).0.failureProb == s.failureProb
    ensures w.loginPressed && (w.username == "" || w.password == "") ==>
              Step(s, w) == (s, LoginForm(true))
  {
  }

  /** Once logged in, a run never logs out, and everything it does goes through the navigation
      bar: the page becomes the last pressed button's name, or stays. */
  lemma LoggedInRun(s: State, w: Widgets)
    requires WellFormed(w)
    requires s.loggedIn
    ensures Step(s, w).0.loggedIn
    ensures Step(s, w).0.page == Navigate(s.page, w.navPressed, Pages)
    ensures Step(s, w).0.failureProb == (if Step(s, w).0.page == "Vehicle" then w.prob else s.failureProb)
  {
  }

  /** Every run keeps the state consistent, and a consistent state never shows the blank page. */
  lemma StepPreservesConsistent(s: State, w: Widgets)
    requires WellFormed(w)
    requires Consistent(s)
    ensures Consistent(Step(s, w).0)
    ensures Step(s, w).1 != Blank
  {
    if s.loggedIn {
      NavigateStaysInPages(s.page, w.navPressed);
    }
  }

  /** The stored probability changes only on a logged-in run that lands on the Vehicle page,
      and then to that run's probability. */
  lemma ProbabilityChangesOnlyOnVehicle(s: State, w: Widgets)
    requires WellFormed(w)
    requires Step(s, w).0.failureProb != s.failureProb
    ensures s.loggedIn && Step(s, w).0.page == "Vehicle" && Step(s, w).0.failureProb == w.prob
  {
  }

  /** The Scheduling page decides on the probability stored by an earlier run. */
  lemma SchedulingUsesStoredProbability(s: State, w: Widgets)
    requires WellFormed(w)
    requires s.loggedIn && Navigate(s.page, w.navPressed, Pages) == "Scheduling"
    ensures Step(s, w).1 == SchedulingPanel(Schedule(s.failureProb))
    ensures Step(s, w).0.failureProb == s.failureProb
  {
  }

  predicate AllWellFormed(ws: seq<Widgets>) {
    forall i :: 0 <= i < |ws| ==> WellFormed(ws[i])
  }

  /** The state after a sequence of runs. */
  function Run(s: State, ws: seq<Widgets>): State
    requires AllWellFormed(ws)
    decreases |ws|
  {
    if ws == [] then s
    else
      var n := |ws| - 1;
      Step(Run(s, ws[..n]), ws[n]).0
  }

  /** Whether run `i` of `ws`, started from `s`, landed on the Vehicle page and stored a
      probability above the threshold. */
  predicate StoresRiskAt(s: State, ws: seq<Widgets>, i: nat)
    requires AllWellFormed(ws)
    requires i < |ws|
  {
    var before := Run(s, ws[..i]);
    before.loggedIn && Navigate(before.page, ws[i].navPressed, Pages) == "Vehicle"
    && ws[i].prob > RiskThreshold
  }

  /** From the initial state, every run keeps the state consistent: the page is always one of
      the five names and the stored probability a probability. */
  lemma {:induction false} RunPreservesConsistent(s: State, ws: seq<Widgets>)
    requires AllWellFormed(ws)
    requires Consistent(s)
    ensures Consistent(Run(s, ws))
    decreases |ws|
  {
    if ws != [] {
      var n := |ws| - 1;
      RunPreservesConsistent(s, ws[..n]);
      StepPreservesConsistent(Run(s, ws[..n]), ws[n]);
    }
  }

  /** Until some run stores a probability above 0.7 on the Vehicle page, the stored probability
      stays at or below 0.7, so Scheduling reports that no service is required. */
  lemma {:induction false} NoServiceUntilRiskyVehicleVisit(s: State, ws: seq<Widgets>)
    requires AllWellFormed(ws)
    requires s.failureProb <= RiskThreshold
    requires forall i :: 0 <= i < |ws| ==> !StoresRiskAt(s, ws, i)
    ensures Run(s, ws).failureProb <= RiskThreshold
    ensures Schedule(Run(s, ws).failureProb) == NoServiceRequired
    decreases |ws|
  {
    if ws != [] {
      var n := |ws| - 1;
      var prefix := ws[..n];
      forall i | 0 <= i < |prefix| ensures !StoresRiskAt(s, prefix, i) {
        assert prefix[..i] == ws[..i];
        assert !StoresRiskAt(s, ws, i);
      }
      NoServiceUntilRiskyVehicleVisit(s, prefix);
      assert !StoresRiskAt(s, ws, n);
      assert ws[..n] == prefix;
    }
  }

  /** In particular, from the initial state Scheduling reports no service until such a visit. */
  lemma NoServiceFromInitialUntilRiskyVisit(ws: seq<Widgets>)
    requires AllWellFormed(ws)
    requires forall i :: 0 <= i < |ws| ==> !StoresRiskAt(Initial, ws, i)
    ensures Schedule(Run(Initial, ws).failureProb) == NoServiceRequired
    ensures Run(Initial, ws).page in Pages
  {
    NoServiceUntilRiskyVehicleVisit(Initial, ws);
    RunPreservesConsistent(Initial, ws);
  }

  /** A typical session: log in, open the Vehicle page with a risky reading, then open
      Scheduling, which schedules service from the stored probability. */
  lemma LoginVehicleSchedulingScenario(user: string, password: string, r: Reading, prob: real)
    requires user != "" && password != ""
    requires InSliderRange(r) && 0.0 <= prob <= 1.0
    ensures var login := Widgets(user, password, true, [false, false, false, false, false], r, prob);
            var vehicle := Widgets("", "", false, [false, true, false, false, false], r, prob);
            var scheduling := Widgets("", "", false, [false, false, true, false, false], r, 0.0);
            var s1 := Step(Initial, login);
            var s2 := Step(s1.0, vehicle);
            var s3 := Step(s2.0, scheduling);
            && s1 == (State(true, "Dashboard", 0.0), LoginAccepted)
            && s2.1 == VehicleReport(Scores(r), OverallHealth(r), Advice(prob))
            && s3.0 == State(true, "Scheduling", prob)
            && s3.1 == SchedulingPanel(Schedule(prob))
  {
    var vehicle := [false, true, false, false, false];
    var scheduling := [false, false, true, false, false];
    NavigateLastPressed("Dashboard", vehicle, Pages, 1);
    NavigateLastPressed("Vehicle", scheduling, Pages, 2);
  }

  /** The live session state, updated in place by each run of the script. */
  class SessionState {
    var loggedIn: bool
    var page: string
    var failureProb: real

    function Snapshot(): State
      reads this
    {
      State(loggedIn, page, failureProb)
    }

    ghost predicate Valid()
      reads this
    {
      Consistent(Snapshot())
    }

    /** The first run's defaults. */
    constructor ()
      ensures Snapshot() == Initial
      ensures Valid()
    {
      loggedIn := false;
      page := "Dashboard";
      failureProb := 0.0;
    }

    /** The navigation bar: each of the five buttons, left to right, sets the page if pressed. */
    method NavigationBar(pressed: seq<bool>)
      requires |pressed| == |Pages|
      modifies this`page
      ensures page == Navigate(old(page), pressed, Pages)
    {
      var i := 0;
      while i < |Pages|
        invariant 0 <= i <= |Pages|
        invariant page == Navigate(old(page), pressed[..i], Pages[..i])
      {
        if pressed[i] {
          page := Pages[i];
        }
        i := i + 1;
        assert pressed[..i][..i - 1] == pressed[..i - 1];
        assert Pages[..i][..i - 1] == Pages[..i - 1];
      }
      assert pressed[..i] == pressed && Pages[..i] == Pages;
    }

    /** One run of the script against this session state. */
    method Rerun(w: Widgets) returns (screen: Screen)
      requires Valid()
      requires WellFormed(w)
      modifies this
      ensures Valid()
      ensures (Snapshot(), screen) == Step(old(Snapshot()), w)
    {
      ghost var before := Snapshot();
      StepPreservesConsistent(before, w);
      if !loggedIn {
        if w.loginPressed {
          if w.username != "" && w.password != "" {
            loggedIn := true;
            screen := LoginAccepted;
          } else {
            screen := LoginForm(true);
          }
        } else {
          screen := LoginForm(false);
        }
        return;
      }
      NavigationBar(w.navPressed);
      if page == "Dashboard" {
        screen := DashboardPanel;
      } else if page == "Vehicle" {
        failureProb := w.prob;
        screen := VehicleReport(Scores(w.reading), OverallHealth(w.reading), Advice(w.prob));
      } else if page == "Scheduling" {
        screen := SchedulingPanel(Schedule(failureProb));
      } else if page == "Manufacturing" {
        screen := ManufacturingPanel;
      } else if page == "Security" {
        screen := SecurityPanel;
      } else {
        screen := Blank;
      }
    }
  }
}
