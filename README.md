# Vehicle maintenance dashboard: decision rules and session state

A Dafny model of the decision logic of a Streamlit demonstration dashboard for vehicle-fleet
health monitoring (`g.py`). The dashboard trains a random-forest classifier on a synthetic
fleet. The fleet is labelled by a fixed failure rule. The dashboard then scores one vehicle's
slider readings. The model covers the logic that can be stated exactly:

- **FailureRule** (`failure_rule.dfy`): the `failure` label of a telemetry record. It is the OR of
  five strict threshold tests: engine temperature above 95, battery below 11.8 V, brake wear
  above 70 %, oil pressure below 30 psi, coolant below 65 %. RPM takes no part.
- **Health** (`health.dfy`): the two-tier per-parameter score (90 inside the inclusive bounds,
  50 outside), the six fixed bound pairs, and overall health as the truncated mean of the six
  scores.
- **Maintenance** (`maintenance.dfy`): the strict `prob > 0.7` test. The Vehicle page applies it
  to the probability it has just computed. The Scheduling page applies it to the stored one.
- **Session** (`session.dfy`): the three session-state fields `logged_in`, `page` and
  `failure_prob`. One run of the script is modelled as a pure function `Step`. The class
  `SessionState` provides `Rerun`, which updates the fields in place. Its navigation bar is the
  script's loop over the five buttons. Lemmas over whole sequences of runs show that the page is
  always one of the five names. They also show that Scheduling reports no service until some
  Vehicle visit stores a probability above 0.7.
- **Telemetry** (`telemetry.dfy`): the six-field reading, the slider ranges and the slider
  defaults.

Readings are Dafny `real`s. Brake wear and RPM are `int`s, as in the fleet table. Every rule only
compares a reading with a literal constant, so reals give the same decisions as the floats.
The one arithmetic step is `int(sum / len)`. Its sums are multiples of 10 between 300 and 540,
so integer division by 6 gives the same result as the floating-point quotient truncated.

For five scores of 90 and one of 50, the code computes 500 / 6, which truncates to 83. A
figure of 88 (530 / 6) does not match the code: it would need a sixth score of 80, which the
two-tier scorer never produces. The model follows the code.

Inputs that the script gets from outside are parameters of the model. These are the login
fields, which buttons were pressed, the slider values, and the classifier's probability for
the current sliders (taken as any value in [0, 1]).

## Model

| member | source | states |
|---|---|---|
| FailureRule.FailureLabel | g.py:124-130 | the failure column is always 0 or 1 |
| FailureRule.LabelIffSomeCondition | g.py:124-130 | the label is 1 if and only if at least one of the five strict threshold tests fails |
| FailureRule.AnyConditionAloneTriggers | g.py:124-130 | any single failing test makes the label 1, whatever the other fields hold |
| FailureRule.ThresholdsAreStrict | g.py:125-129 | readings exactly on the thresholds (95, 11.8, 70, 30, 65) are not failures, for every RPM |
| FailureRule.RpmNeverAffectsLabel | g.py:124-130 | changing only the RPM never changes the label |
| FailureRule.LabelFleet | g.py:124-130 | the fleet's failure column has one 0/1 entry per record, 1 exactly where that record fails some test |
| Health.Score | g.py:182-183 | a parameter score is always 90 or 50 |
| Health.ScoreInclusive | g.py:182-183 | the score is 90 exactly when lo <= v <= hi, both endpoints scoring 90, and 50 exactly when v is below lo or above hi |
| Health.ParameterScore | g.py:185-192 | each parameter scores 90 exactly when its reading is within that parameter's fixed bounds, else 50 |
| Health.Scores | g.py:185-192 | the score table has six entries in table order, each 90 exactly when its parameter is in range and 50 exactly when it is not |
| Health.InRangeCount | g.py:185-194 | at most six parameters are in range |
| Health.SumOfTwoTierScores | g.py:194 | a sum of 90/50 scores equals 50 per score plus 40 per in-range score |
| Health.HealthByInRangeCount | g.py:194 | overall health is (300 + 40k) / 6 for k parameters in range, i.e. 50, 56, 63, 70, 76, 83 or 90 |
| Health.HealthBounds | g.py:182-194 | overall health always lies in [50, 90] |
| Health.HealthFullIffAllInRange | g.py:185-194 | overall health is 90 if and only if all six parameters are in range |
| Health.HealthLowestIffNoneInRange | g.py:185-194 | overall health is 50 if and only if no parameter is in range |
| Health.OneOutOfRangeGives83 | g.py:194 | five parameters in range and one out give 500 / 6 truncated to 83 |
| Health.FailureImpliesDegradedHealth | g.py:124-130 | a reading labelled as a failure has some parameter scoring 50 and overall health at most 83 |
| Health.DegradedHealthWithoutFailure | g.py:185-194 | the converse fails: a cold engine (65) or an RPM of 4500 scores 50 and health 83 without a failure label |
| Health.DefaultReadingIsHealthy | g.py:163-168 | the sliders' default reading is in range on all six parameters, has health 90 and is not a failure |
| Maintenance.Advice | g.py:204-207 | the Vehicle page warns that maintenance is required exactly when prob > 0.7, and reports normal operation exactly when prob <= 0.7 |
| Maintenance.Schedule | g.py:215-220 | Scheduling books service (Hyderabad Service Hub, in 3 days) exactly when the stored probability exceeds 0.7, else reports no service required |
| Maintenance.ThresholdIsStrict | g.py:204 | a probability of exactly 0.7 is normal on the Vehicle page and needs no service on the Scheduling page |
| Maintenance.PagesAgree | g.py:204-220 | for the same probability the Vehicle warning and the Scheduling booking coincide |
| Maintenance.AdviceMonotone | g.py:204 | raising the probability never turns a maintenance warning back into a normal report |
| Session.Navigate | g.py:103-107 | after the navigation loop the page is the previous page or one of the button names |
| Session.NavigateNonePressed | g.py:105-107 | with no button pressed the page is unchanged |
| Session.NavigateLastPressed | g.py:105-107 | the page becomes the name of the last pressed button |
| Session.NavigateStaysInPages | g.py:103-107 | starting from one of the five names, navigation always ends on one of the five names |
| Session.LoginRule | g.py:84-91 | before login, a run logs in if and only if Login is pressed with non-empty username and password; otherwise page and stored probability are unchanged, and a press with an empty field shows the credentials error |
| Session.LoggedInRun | g.py:103-109 | once logged in, a run stays logged in, sets the page by the navigation bar, and overwrites the stored probability only when it lands on Vehicle |
| Session.StepPreservesConsistent | g.py:103-239 | each run keeps the page among the five names and the stored probability in [0, 1], and never shows a blank page |
| Session.ProbabilityChangesOnlyOnVehicle | g.py:179-180 | the stored probability changes only on a logged-in run that lands on Vehicle, and then to that run's probability |
| Session.SchedulingUsesStoredProbability | g.py:212-220 | a Scheduling run decides on the probability stored by an earlier run and does not change it |
| Session.RunPreservesConsistent | g.py:19-26 | after any sequence of runs from a consistent state, the page is one of the five names and the stored probability is in [0, 1] |
| Session.NoServiceUntilRiskyVehicleVisit | g.py:180 | while no run has stored a probability above 0.7 on the Vehicle page, the stored probability stays at or below 0.7 and Scheduling reports no service required |
| Session.NoServiceFromInitialUntilRiskyVisit | g.py:25-26 | from the initial state (probability 0.0), Scheduling reports no service until a Vehicle visit stores a value above 0.7, and the page is always one of the five names |
| Session.LoginVehicleSchedulingScenario | g.py:84-220 | logging in, opening Vehicle and then Scheduling shows that reading's scores and health and books service exactly as the Vehicle probability decides |
| Session.SessionState.constructor | g.py:19-26 | a new session is logged out, on the Dashboard, with stored probability 0.0 |
| Session.SessionState.NavigationBar | g.py:102-107 | the button loop updates only the page, to the value the navigation rule gives |
| Session.SessionState.Rerun | g.py:74-220 | one run updates the three fields in place and shows the screen exactly as the run function does, keeping the session consistent |

## Left out

- Page rendering, CSS, the dashboard's figures, the bar chart and the security warning (g.py:10-14, 31-69, 75-82, 96-101, 146-152, 196-202, 225-239) are fixed presentation. The model reduces each page to a screen constructor.
- Synthetic fleet generation (g.py:114-122) draws from NumPy's random generator, which is foreign code. `FailureRule.LabelFleet` labels any given sequence of records instead.
- Training the random forest and `predict_proba` (g.py:135-141, 179) are foreign library numerics. The probability is an input in [0, 1], and nothing ties it to the reading.
- Memoisation by `st.cache_resource`, `st.rerun` and `st.stop` are framework control flow. A successful login ends the run with `LoginAccepted`, and the rerun is the next call of `Step`. `st.stop` is the end of the login branch.
- Floating-point semantics of the comparisons are replaced by exact reals. This is exact here because only comparisons with literal constants occur.
- Rejecting a non-positive fleet size, an empty or single-class training set, or a malformed input row is not modelled. The code performs none of these checks.
- The dashboard runs on a single thread with one user per session, so there is no concurrency to model.
