/**
The chaos activation engine: one activation record per fault type, an
auto-disable timer per non-sticky activation, remediation actions that clear
fixed sets of faults, and campaigns whose steps sleep before they activate.

`World` is the whole engine as a value and every operation has a function on
worlds that says what the operation does. `Engine` is the engine as the program
has it, with fields updated in place; each of its methods is tied to the
function of the same operation. `ChaosRuns` proves what every run keeps.

Times and durations are integer nanoseconds, probabilities exact reals.
*/
module Chaos {
  import opened Common

  const MAX_DURATION: int := 15 * MINUTE
  const MAX_CAMPAIGN_STEPS: nat := 32
  const DEFAULT_STEP_SECONDS: int := 60

  /** The zero time a disabled record carries; every clock reading is later. */
  const ZERO_TIME: int := 0

  datatype ChaosType =
    | CPUStress | MemoryLeak | ErrorInjection | LatencyInjection | LogStorm
    | DBSlow | QueueBacklog | PodCrash | NovelLog | ErrorBudget | LatencyTail
    | Unregistered(name: string)

  const REGISTERED: set<ChaosType> := {
    CPUStress, MemoryLeak, ErrorInjection, LatencyInjection, LogStorm,
    DBSlow, QueueBacklog, PodCrash, NovelLog, ErrorBudget, LatencyTail
  }

  datatype Onset = Unset | Step | Ramp | SlowLeak | Flap | Unrecognized(text: string)

  datatype State = State(
    enabled: bool,
    intensity: real,
    duration: int,
    startedAt: int,
    onset: Onset,
    rampSeconds: real,
    flapPeriodSeconds: real,
    sticky: bool,
    scopePercent: real
  )

  const IDLE: State := State(false, 0.0, 0, ZERO_TIME, Unset, 0.0, 0.0, false, 0.0)

  datatype Spec = Spec(
    kind: ChaosType,
    intensity: real,
    duration: int,
    onset: Onset,
    rampSeconds: real,
    flapPeriodSeconds: real,
    sticky: bool,
    scopePercent: real
  )

  /** A pending auto-disable. `activation` says which activation armed it; the
      engine never reads it, the theorems do. */
  datatype Timer = Timer(kind: ChaosType, due: int, startedAt: int, activation: nat)

  datatype CampaignStep = CampaignStep(
    kind: ChaosType, intensity: real, durationSeconds: real, startAfterSeconds: real)

  datatype CampaignRequest = CampaignRequest(id: string, dryRun: bool, steps: seq<CampaignStep>)

  datatype CampaignState = CampaignState(
    id: string, startedAt: int, dryRun: bool, stepCount: nat, running: bool)

  datatype CampaignError =
    | NoSteps
    | TooManySteps(count: nat)
    | InvalidType(index: nat, kind: ChaosType)

  /** A campaign step whose goroutine is still asleep. */
  datatype Sleeper = Sleeper(due: int, step: CampaignStep)

  /** The goroutine that marks a campaign as finished. */
  datatype Ender = Ender(due: int, campaignID: string)

  datatype World = World(
    states: map<ChaosType, State>,
    activations: map<ChaosType, nat>,
    timers: set<Timer>,
    capacity: real,
    campaign: Option<CampaignState>,
    sleepers: multiset<Sleeper>,
    enders: multiset<Ender>,
    now: int
  )

  datatype Action = Restart | ResetPool | ClearBacklog

  function OpsClears(a: Action): seq<ChaosType> {
    match a
    case Restart =>
      [CPUStress, MemoryLeak, ErrorInjection, LatencyInjection, LogStorm, NovelLog, ErrorBudget, LatencyTail]
    case ResetPool => [DBSlow]
    case ClearBacklog => [QueueBacklog]
  }

  // ---------- normalisation ----------

  function NormalizeIntensity(v: real): (r: real)
    ensures 0.0 <= r <= 1.0
    ensures 0.0 <= v <= 1.0 ==> r == v
    ensures v > 0.0 ==> r > 0.0
    ensures v <= 0.0 ==> r == 0.0
    ensures 1.0 < v <= 100.0 ==> r * 100.0 == v
    ensures v >= 100.0 ==> r == 1.0
  {
    var scaled := if v > 1.0 then v / 100.0 else v;
    if scaled < 0.0 then 0.0 else if scaled > 1.0 then 1.0 else scaled
  }

  function NormalizeDuration(d: int): (r: int)
    ensures 0 < r <= MAX_DURATION
    ensures 0 < d <= 15 * MINUTE <==> r == d
    ensures d > 0 ==> r <= d
    ensures d > 15 * MINUTE ==> r == 15 * MINUTE
    ensures d <= 0 ==> r == 60 * SECOND
  {
    if d <= 0 then DEFAULT_STEP_SECONDS * SECOND
    else if d > MAX_DURATION then MAX_DURATION
    else d
  }

  /** The record an accepted activation writes at time `now`. */
  function Activation(spec: Spec, now: int): State {
    State(
      true,
      NormalizeIntensity(spec.intensity),
      if spec.sticky then spec.duration else NormalizeDuration(spec.duration),
      now,
      if spec.onset == Unset then Step else spec.onset,
      if spec.rampSeconds <= 0.0 then 120.0 else spec.rampSeconds,
      if spec.flapPeriodSeconds <= 0.0 then 60.0 else spec.flapPeriodSeconds,
      spec.sticky,
      if spec.scopePercent <= 0.0 || spec.scopePercent > 1.0 then 1.0 else spec.scopePercent)
  }

  /** What disabling leaves: the shape fields, stickiness included, survive. */
  function Cleared(s: State): State {
    s.(enabled := false, intensity := 0.0, duration := 0, startedAt := ZERO_TIME)
  }

  // ---------- reading ----------

  predicate LiveAt(s: State, now: int) {
    s.enabled && (s.sticky || s.duration <= 0 || now - s.startedAt <= s.duration)
  }

  predicate IsActive(w: World, ct: ChaosType) {
    ct in w.states && LiveAt(w.states[ct], w.now)
  }

  /** The fault types reported as active: the enabled ones, expired or not. */
  function ActiveTypes(w: World): set<ChaosType> {
    set ct | ct in w.states && w.states[ct].enabled
  }

  // ---------- what each operation does ----------

  function AfterEnable(w: World, spec: Spec): World {
    if spec.kind !in w.states || spec.kind !in w.activations then w
    else
      var s := Activation(spec, w.now);
      var n := w.activations[spec.kind] + 1;
      w.(states := w.states[spec.kind := s],
         activations := w.activations[spec.kind := n],
         timers := if s.sticky then w.timers
                   else w.timers + {Timer(spec.kind, w.now + s.duration, w.now, n)})
  }

  function AfterDisable(w: World, ct: ChaosType): World {
    if ct !in w.states then w
    else w.(states := w.states[ct := Cleared(w.states[ct])])
  }

  /** A timer wakes, is gone, and disables its type when the activation it
      sees carries the start time the timer was armed with. */
  predicate StillCurrent(w: World, t: Timer) {
    t.kind in w.states && w.states[t.kind].enabled && w.states[t.kind].startedAt == t.startedAt
  }

  function AfterFire(w: World, t: Timer): World {
    var w' := w.(timers := w.timers - {t});
    if StillCurrent(w, t) then AfterDisable(w', t.kind) else w'
  }

  function AfterOps(w: World, a: Action): World {
    w.(states := map ct | ct in w.states ::
         if ct in OpsClears(a) && IsActive(w, ct) then Cleared(w.states[ct]) else w.states[ct],
       capacity := if a.Restart? then 1.0 else w.capacity)
  }

  /** The scale endpoint refuses fewer than one replica. */
  function AfterScale(w: World, replicas: real): World {
    if replicas < 1.0 then w else w.(capacity := replicas)
  }

  function AfterKillSwitch(w: World): World {
    w.(states := map ct | ct in w.states :: Cleared(w.states[ct]),
       campaign := if w.campaign.Some? then Some(w.campaign.value.(running := false)) else None)
  }

  // ---------- campaigns ----------

  function Nanos(seconds: real): int {
    if seconds >= 0.0 then (seconds * 1_000_000_000.0).Floor else -(-seconds * 1_000_000_000.0).Floor
  }

  function NormalizeStep(s: CampaignStep): CampaignStep {
    s.(durationSeconds := if s.durationSeconds <= 0.0 then DEFAULT_STEP_SECONDS as real else s.durationSeconds,
       intensity := NormalizeIntensity(s.intensity),
       startAfterSeconds := if s.startAfterSeconds < 0.0 then 0.0 else s.startAfterSeconds)
  }

  function NormalizeSteps(steps: seq<CampaignStep>): (r: seq<CampaignStep>)
    ensures |r| == |steps|
    ensures forall i :: 0 <= i < |r| ==> r[i] == NormalizeStep(steps[i])
  {
    seq(|steps|, i requires 0 <= i < |steps| => NormalizeStep(steps[i]))
  }

  /** The greatest start + duration of the steps, or 0 for no step. */
  function MaxSeconds(steps: seq<CampaignStep>): (m: real)
    ensures m >= 0.0
    ensures forall i :: 0 <= i < |steps| ==> steps[i].startAfterSeconds + steps[i].durationSeconds <= m
    ensures m == 0.0 || exists i :: 0 <= i < |steps| && steps[i].startAfterSeconds + steps[i].durationSeconds == m
  {
    if steps == [] then 0.0
    else
      var last := |steps| - 1;
      var m := MaxSeconds(steps[..last]);
      var c := steps[last].startAfterSeconds + steps[last].durationSeconds;
      if c > m then c else m
  }

  function CampaignEndDuration(steps: seq<CampaignStep>): int {
    var m := MaxSeconds(steps);
    Nanos(if m <= 0.0 then DEFAULT_STEP_SECONDS as real else m) + SECOND
  }

  function StepSpec(s: CampaignStep): Spec {
    Spec(s.kind, s.intensity, Nanos(s.durationSeconds), Step, 0.0, 0.0, false, 0.0)
  }

  function CampaignVerdict(w: World, req: CampaignRequest): (r: Option<CampaignError>)
    ensures r == None <==>
            1 <= |req.steps| <= MAX_CAMPAIGN_STEPS &&
            forall i :: 0 <= i < |req.steps| ==> req.steps[i].kind in w.states
  {
    if |req.steps| == 0 then Some(NoSteps)
    else if |req.steps| > MAX_CAMPAIGN_STEPS then Some(TooManySteps(|req.steps|))
    else FirstInvalid(w, req.steps, 0)
  }

  function FirstInvalid(w: World, steps: seq<CampaignStep>, from: nat): (r: Option<CampaignError>)
    requires from <= |steps|
    ensures r == None <==> forall i :: from <= i < |steps| ==> steps[i].kind in w.states
    ensures r.Some? ==>
            r.value.InvalidType? && from <= r.value.index < |steps| &&
            r.value.kind == steps[r.value.index].kind && r.value.kind !in w.states &&
            forall i :: from <= i < r.value.index ==> steps[i].kind in w.states
    decreases |steps| - from
  {
    if from == |steps| then None
    else if steps[from].kind !in w.states then Some(InvalidType(from, steps[from].kind))
    else FirstInvalid(w, steps, from + 1)
  }

  function SleeperFor(now: int, s: CampaignStep): Sleeper {
    Sleeper(now + Nanos(s.startAfterSeconds), s)
  }

  function Sleepers(now: int, steps: seq<CampaignStep>): multiset<Sleeper> {
    multiset(seq(|steps|, i requires 0 <= i < |steps| => SleeperFor(now, steps[i])))
  }

  /** `generatedID` stands for the clock-derived name of an unnamed campaign. */
  function AfterStartCampaign(w: World, req: CampaignRequest, generatedID: string): World {
    if CampaignVerdict(w, req).Some? then w
    else
      var id := if req.id == "" then generatedID else req.id;
      var steps := NormalizeSteps(req.steps);
      var w' := w.(campaign := Some(CampaignState(id, w.now, req.dryRun, |steps|, !req.dryRun)));
      if req.dryRun then w'
      else w'.(sleepers := w.sleepers + Sleepers(w.now, steps),
               enders := w.enders + multiset{Ender(w.now + CampaignEndDuration(steps), id)})
  }

  function AfterWake(w: World, sl: Sleeper): World {
    AfterEnable(w.(sleepers := w.sleepers - multiset{sl}), StepSpec(sl.step))
  }

  function AfterEnd(w: World, e: Ender): World {
    w.(enders := w.enders - multiset{e},
       campaign := if w.campaign.Some? && w.campaign.value.id == e.campaignID
                   then Some(w.campaign.value.(running := false))
                   else w.campaign)
  }

  // ---------- the engine, updated in place ----------

  class Engine {
    var states: map<ChaosType, State>
    var activations: map<ChaosType, nat>
    var timers: set<Timer>
    var capacity: real
    var campaign: Option<CampaignState>
    var sleepers: multiset<Sleeper>
    var enders: multiset<Ender>

    ghost function At(now: int): World
      reads this
    {
      World(states, activations, timers, capacity, campaign, sleepers, enders, now)
    }

    constructor ()
      ensures forall now :: At(now) == InitialWorld(now)
    {
      states := map ct | ct in REGISTERED :: IDLE;
      activations := map ct | ct in REGISTERED :: 0;
      timers, capacity, campaign := {}, 1.0, None;
      sleepers, enders := multiset{}, multiset{};
    }

    method EnableSpec(spec: Spec, now: int)
      requires states.Keys == activations.Keys
      modifies this
      ensures At(now) == AfterEnable(old(At(now)), spec)
    {
      var spec := Completed(spec, now);
      if spec.kind !in states { return; }
      states := states[spec.kind :=
        State(true, spec.intensity, spec.duration, now, spec.onset, spec.rampSeconds,
              spec.flapPeriodSeconds, spec.sticky, spec.scopePercent)];
      activations := activations[spec.kind := activations[spec.kind] + 1];
      if !spec.sticky {
        timers := timers + {Timer(spec.kind, now + spec.duration, states[spec.kind].startedAt, activations[spec.kind])};
      }
    }

    /** Normalises intensity and duration and fills in the shape's defaults. */
    static method Completed(given: Spec, ghost now: int) returns (spec: Spec)
      ensures spec.kind == given.kind && spec.sticky == given.sticky
      ensures Activation(given, now)
           == State(true, spec.intensity, spec.duration, now, spec.onset, spec.rampSeconds,
                    spec.flapPeriodSeconds, spec.sticky, spec.scopePercent)
    {
      spec := given;
      spec := spec.(intensity := NormalizeIntensity(spec.intensity));
      if !spec.sticky {
        spec := spec.(duration := NormalizeDuration(spec.duration));
      }
      if spec.onset == Unset { spec := spec.(onset := Step); }
      if spec.rampSeconds <= 0.0 { spec := spec.(rampSeconds := 120.0); }
      if spec.flapPeriodSeconds <= 0.0 { spec := spec.(flapPeriodSeconds := 60.0); }
      if spec.scopePercent <= 0.0 || spec.scopePercent > 1.0 { spec := spec.(scopePercent := 1.0); }
    }

    method Disable(ct: ChaosType)
      modifies `states
      ensures forall now :: At(now) == AfterDisable(old(At(now)), ct)
    {
      if ct !in states { return; }
      var s := states[ct];
      s := s.(enabled := false);
      s := s.(intensity := 0.0);
      s := s.(duration := 0);
      s := s.(startedAt := ZERO_TIME);
      states := states[ct := s];
    }

    method FireTimer(t: Timer, now: int)
      modifies this
      ensures At(now) == AfterFire(old(At(now)), t)
    {
      timers := timers - {t};
      if t.kind in states && states[t.kind].enabled && states[t.kind].startedAt == t.startedAt {
        Disable(t.kind);
      }
    }

    method CheckActive(ct: ChaosType, now: int) returns (active: bool)
      ensures active == IsActive(At(now), ct)
    {
      if ct !in states { return false; }
      var s := states[ct];
      if !s.enabled { return false; }
      if !s.sticky && s.duration > 0 && now - s.startedAt > s.duration { return false; }
      return true;
    }

    /** The handler behind the three remediation endpoints. */
    method Remediate(a: Action, now: int) returns (cleared: seq<ChaosType>)
      modifies this
      ensures At(now) == AfterOps(old(At(now)), a)
      ensures forall ct :: ct in cleared <==> ct in OpsClears(a) && old(IsActive(At(now), ct))
    {
      OpsClearsDistinct(a);
      cleared := DisableActive(OpsClears(a), now);
      if a == Restart { SetCapacity(1.0); }
    }

    method DisableActive(kinds: seq<ChaosType>, now: int) returns (cleared: seq<ChaosType>)
      requires forall i, j :: 0 <= i < j < |kinds| ==> kinds[i] != kinds[j]
      modifies `states
      ensures states == map ct | ct in old(states) ::
        if ct in kinds && old(IsActive(At(now), ct)) then Cleared(old(states)[ct]) else old(states)[ct]
      ensures forall ct :: ct in cleared <==> ct in kinds && old(IsActive(At(now), ct))
    {
      cleared := [];
      ghost var w := At(now);
      for i := 0 to |kinds|
        invariant states.Keys == w.states.Keys
        invariant forall ct :: ct in states ==>
          states[ct] == if ct in kinds[..i] && IsActive(w, ct) then Cleared(w.states[ct]) else w.states[ct]
        invariant forall ct :: ct in cleared <==> ct in kinds[..i] && IsActive(w, ct)
      {
        assert kinds[..i + 1] == kinds[..i] + [kinds[i]];
        var active := CheckActive(kinds[i], now);
        if active {
          Disable(kinds[i]);
          cleared := cleared + [kinds[i]];
        }
      }
      assert kinds[..|kinds|] == kinds;
    }

    method SetCapacity(replicas: real)
      modifies `capacity
      ensures capacity == if replicas < 1.0 then 1.0 else replicas
    {
      var r := replicas;
      if r < 1.0 { r := 1.0; }
      capacity := r;
    }

    method Scale(replicas: real, now: int) returns (ok: bool)
      modifies `capacity
      ensures ok == (replicas >= 1.0)
      ensures At(now) == AfterScale(old(At(now)), replicas)
    {
      if replicas < 1.0 { return false; }
      SetCapacity(replicas);
      return true;
    }

    /** The kill-switch visits the types in no particular order. */
    method DisableAll(now: int)
      modifies `states, `campaign
      ensures At(now) == AfterKillSwitch(old(At(now)))
    {
      ghost var w := At(now);
      var todo := states.Keys;
      while todo != {}
        invariant todo <= w.states.Keys == states.Keys
        invariant At(now) == w.(states := states)
        invariant forall ct :: ct in states ==>
          states[ct] == if ct in todo then w.states[ct] else Cleared(w.states[ct])
        decreases todo
      {
        var ct :| ct in todo;
        Disable(ct);
        todo := todo - {ct};
      }
      if campaign.Some? {
        campaign := Some(campaign.value.(running := false));
      }
    }

    method StartCampaign(req: CampaignRequest, generatedID: string, now: int)
      returns (error: Option<CampaignError>)
      modifies this
      ensures error == CampaignVerdict(old(At(now)), req)
      ensures At(now) == AfterStartCampaign(old(At(now)), req, generatedID)
    {
      var id := req.id;
      if id == "" { id := generatedID; }
      var steps;
      error, steps := Accept(req, now);
      if error.Some? { return; }

      campaign := Some(CampaignState(id, now, req.dryRun, |steps|, !req.dryRun));
      if req.dryRun { return None; }

      Launch(steps, id, now);
      return None;
    }

    /** One goroutine per step, and one that ends the campaign. */
    method Launch(steps: seq<CampaignStep>, id: string, now: int)
      modifies `sleepers, `enders
      ensures sleepers == old(sleepers) + Sleepers(now, steps)
      ensures enders == old(enders) + multiset{Ender(now + CampaignEndDuration(steps), id)}
    {
      var asleep := PutToSleep(steps, now);
      sleepers := sleepers + asleep;
      var endAfter := EndAfter(steps);
      enders := enders + multiset{Ender(now + endAfter, id)};
    }

    method Accept(req: CampaignRequest, ghost now: int)
      returns (error: Option<CampaignError>, steps: seq<CampaignStep>)
      ensures error == CampaignVerdict(At(now), req)
      ensures error == None ==> steps == NormalizeSteps(req.steps)
    {
      if |req.steps| == 0 { return Some(NoSteps), []; }
      if |req.steps| > MAX_CAMPAIGN_STEPS { return Some(TooManySteps(|req.steps|)), []; }
      error, steps := AcceptSteps(req.steps, now);
    }

    /** Validates and normalises the steps one by one; the first unregistered
        type rejects the campaign. */
    method AcceptSteps(given: seq<CampaignStep>, ghost now: int)
      returns (error: Option<CampaignError>, steps: seq<CampaignStep>)
      ensures error == FirstInvalid(At(now), given, 0)
      ensures error == None ==> steps == NormalizeSteps(given)
    {
      steps := given;
      for i := 0 to |given|
        invariant |steps| == |given|
        invariant forall j :: i <= j < |given| ==> steps[j] == given[j]
        invariant forall j :: 0 <= j < i ==> steps[j] == NormalizeStep(given[j])
        invariant FirstInvalid(At(now), given, 0) == FirstInvalid(At(now), given, i)
      {
        var step := steps[i];
        if step.kind !in states { return Some(InvalidType(i, step.kind)), steps; }
        if step.durationSeconds <= 0.0 { step := step.(durationSeconds := DEFAULT_STEP_SECONDS as real); }
        step := step.(intensity := NormalizeIntensity(step.intensity));
        if step.startAfterSeconds < 0.0 { step := step.(startAfterSeconds := 0.0); }
        steps := steps[i := step];
      }
      error := None;
    }

    static method PutToSleep(steps: seq<CampaignStep>, now: int) returns (asleep: multiset<Sleeper>)
      ensures asleep == Sleepers(now, steps)
    {
      var list: seq<Sleeper> := [];
      for i := 0 to |steps|
        invariant |list| == i
        invariant forall j :: 0 <= j < i ==> list[j] == SleeperFor(now, steps[j])
      {
        list := list + [SleeperFor(now, steps[i])];
      }
      assert list == seq(|steps|, i requires 0 <= i < |steps| => SleeperFor(now, steps[i]));
      asleep := multiset(list);
    }

    static method EndAfter(steps: seq<CampaignStep>) returns (d: int)
      ensures d == CampaignEndDuration(steps)
    {
      var maxSeconds := 0.0;
      for i := 0 to |steps|
        invariant maxSeconds == MaxSeconds(steps[..i])
      {
        assert steps[..i + 1][..i] == steps[..i];
        var candidate := steps[i].startAfterSeconds + steps[i].durationSeconds;
        if candidate > maxSeconds { maxSeconds := candidate; }
      }
      assert steps[..|steps|] == steps;
      if maxSeconds <= 0.0 { maxSeconds := DEFAULT_STEP_SECONDS as real; }
      d := Nanos(maxSeconds) + SECOND;
    }

    method WakeStep(sl: Sleeper, now: int)
      requires states.Keys == activations.Keys
      modifies this
      ensures At(now) == AfterWake(old(At(now)), sl)
    {
      sleepers := sleepers - multiset{sl};
      EnableSpec(StepSpec(sl.step), now);
    }

    method EndCampaign(e: Ender, now: int)
      modifies `enders, `campaign
      ensures At(now) == AfterEnd(old(At(now)), e)
    {
      enders := enders - multiset{e};
      if campaign.Some? && campaign.value.id == e.campaignID {
        campaign := Some(campaign.value.(running := false));
      }
    }
  }

  function InitialWorld(now: int): World {
    World(map ct | ct in REGISTERED :: IDLE, map ct | ct in REGISTERED :: 0,
          {}, 1.0, None, multiset{}, multiset{}, now)
  }

  lemma OpsClearsDistinct(a: Action)
    ensures forall i, j :: 0 <= i < j < |OpsClears(a)| ==> OpsClears(a)[i] != OpsClears(a)[j]
  {
  }
}
