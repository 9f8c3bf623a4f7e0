/** Scenario runs of the batch dashboard: a coordinator and its goroutines
    drive the phase of a run and the status of each agent. */
module Dashboard {
  import opened Common

  datatype Phase = DeployingAgents | WaitingForAgents | RunningAgents | Done | RunFailed

  /** A status is a string; the named ones are those the dashboard itself writes. */
  datatype Status = Pending | Deploying | Ready | Working | Completed | Failed | Other(state: string)

  /** The status a remote state is stored as. */
  function Shown(state: string): Status {
    if state == "" then Completed
    else if state == "pending" then Pending
    else if state == "deploying" then Deploying
    else if state == "ready" then Ready
    else if state == "working" then Working
    else if state == "completed" then Completed
    else if state == "failed" then Failed
    else Other(state)
  }

  /** Where the coordinator of a run stands, and at which agent. */
  datatype Coordinator =
    | Marking(i: nat)
    | Creating(i: nat)
    | StartingWaits(i: nat)
    | StartingTasks(i: nat)
    | Finished

  datatype Worker = Idle | Polling | Locating | Sending

  /** `replies` are the states remote agents answered with. */
  datatype Run = Run(
    name: string, phase: Phase, agents: seq<Status>, coordinator: Coordinator, workers: seq<Worker>,
    replies: map<nat, string>)

  /** `orphans` are the runs whose registration a cleanup removed. */
  datatype Sys = Sys(scenarios: map<string, nat>, states: map<string, nat>, runs: seq<Run>, orphans: set<nat>)

  /** `ok` and `state` are what the cluster or the remote agent answered. */
  datatype Action =
    | HandleRun(name: string)
    | HandleCleanup(name: string)
    | Coordinate(r: nat, ok: bool)
    | Work(r: nat, i: nat, ok: bool, state: string)

  predicate InProgress(run: Run) { run.phase != Done && run.phase != RunFailed }

  function NewRun(name: string, n: nat): Run {
    Run(name, DeployingAgents, seq(n, _ => Pending), Marking(0), seq(n, _ => Idle), map[])
  }

  predicate AllIdle(run: Run) { forall j :: 0 <= j < |run.workers| ==> run.workers[j] == Idle }

  /** Waiting for a group of goroutines blocks the coordinator. */
  predicate CanCoordinate(run: Run) {
    match run.coordinator
    case StartingWaits(i) => i < |run.agents| || AllIdle(run)
    case StartingTasks(i) => i < |run.agents| || AllIdle(run)
    case Finished => false
    case _ => true
  }

  function SetStatus(run: Run, i: nat, status: Status): Run
    requires i < |run.agents|
  {
    run.(agents := run.agents[i := status])
  }

  function SetWorker(run: Run, i: nat, worker: Worker): Run
    requires i < |run.workers|
  {
    run.(workers := run.workers[i := worker])
  }

  /** The coordinator's next step. */
  function Coordinated(run: Run, ok: bool): Run
    requires |run.workers| == |run.agents| && CanCoordinate(run)
  {
    var n := |run.agents|;
    match run.coordinator
    case Marking(i) =>
      if i < n then SetStatus(run, i, Deploying).(coordinator := Creating(i))
      else run.(phase := WaitingForAgents, coordinator := StartingWaits(0))
    case Creating(i) =>
      (if ok || i >= n then run else SetStatus(run, i, Failed)).(coordinator := Marking(i + 1))
    case StartingWaits(i) =>
      if i < n then
        (if run.agents[i] == Failed then run else SetWorker(run, i, Polling)).(coordinator := StartingWaits(i + 1))
      else run.(phase := RunningAgents, coordinator := StartingTasks(0))
    case StartingTasks(i) =>
      if i < n then
        (if run.agents[i] != Ready then run else SetWorker(run, i, Locating)).(coordinator := StartingTasks(i + 1))
      else run.(phase := if Failed in run.agents then RunFailed else Done, coordinator := Finished)
    case Finished => run
  }

  /** The next step of the goroutine of agent `i`. */
  function Worked(run: Run, i: nat, ok: bool, state: string): Run
    requires |run.workers| == |run.agents| && i < |run.agents| && run.workers[i] != Idle
  {
    if !ok then SetWorker(SetStatus(run, i, Failed), i, Idle)
    else
      match run.workers[i]
      case Polling => SetWorker(SetStatus(run, i, Ready), i, Idle)
      case Locating => SetWorker(SetStatus(run, i, Working), i, Sending)
      case Sending => SetWorker(SetStatus(run, i, Shown(state)), i, Idle).(replies := run.replies[i := state])
      case Idle => run
  }

  predicate Enabled(s: Sys, a: Action) {
    match a
    case HandleRun(_) => true
    case HandleCleanup(_) => true
    case Coordinate(r, _) => r < |s.runs| && |s.runs[r].workers| == |s.runs[r].agents| && CanCoordinate(s.runs[r])
    case Work(r, i, _, _) =>
      r < |s.runs| && |s.runs[r].workers| == |s.runs[r].agents|
      && i < |s.runs[r].agents| && s.runs[r].workers[i] != Idle
  }

  /** A scenario may start when it is known, has agents, and no run of it is
      registered and in progress. */
  predicate MayStart(s: Sys, name: string) {
    && name in s.scenarios && s.scenarios[name] > 0
    && !(name in s.states && s.states[name] < |s.runs| && InProgress(s.runs[s.states[name]]))
  }

  function Next(s: Sys, a: Action): Sys
    requires Enabled(s, a)
  {
    match a
    case HandleRun(name) =>
      if MayStart(s, name) then
        s.(states := s.states[name := |s.runs|], runs := s.runs + [NewRun(name, s.scenarios[name])])
      else s
    case HandleCleanup(name) =>
      if name in s.scenarios && name in s.states then
        s.(states := s.states - {name}, orphans := s.orphans + {s.states[name]})
      else s
    case Coordinate(r, ok) => s.(runs := s.runs[r := Coordinated(s.runs[r], ok)])
    case Work(r, i, ok, state) => s.(runs := s.runs[r := Worked(s.runs[r], i, ok, state)])
  }

  function Init(scenarios: map<string, nat>): Sys { Sys(scenarios, map[], [], {}) }

  ghost predicate IsRun(tr: seq<Sys>, acts: seq<Action>) {
    && |tr| == |acts| + 1
    && tr[0] == Init(tr[0].scenarios)
    && forall k :: 0 <= k < |acts| ==> Enabled(tr[k], acts[k]) && tr[k + 1] == Next(tr[k], acts[k])
  }

  // ----- one run

  /** Settled by the dashboard's own failure or by the remote agent's reply. */
  predicate Settled(run: Run, j: nat)
    requires j < |run.agents|
  {
    if j in run.replies then run.agents[j] == Shown(run.replies[j]) else run.agents[j] == Failed
  }

  /** What agent `j` may look like for each place of the coordinator. */
  predicate AgentInv(run: Run, j: nat)
    requires j < |run.agents| == |run.workers|
  {
    var status, worker := run.agents[j], run.workers[j];
    match run.coordinator
    case Marking(i) =>
      worker == Idle && j !in run.replies
      && (if j < i then status == Deploying || status == Failed else status == Pending)
    case Creating(i) =>
      worker == Idle && j !in run.replies
      && (if j < i then status == Deploying || status == Failed
          else if j == i then status == Deploying
          else status == Pending)
    case StartingWaits(i) =>
      && j !in run.replies
      && (match worker
          case Idle => if j < i then status == Ready || status == Failed else status == Deploying || status == Failed
          case Polling => j < i && status == Deploying
          case _ => false)
    case StartingTasks(i) =>
      (match worker
       case Idle => if j < i then Settled(run, j) else j !in run.replies && (status == Ready || status == Failed)
       case Locating => j < i && j !in run.replies && status == Ready
       case Sending => j < i && j !in run.replies && status == Working
       case Polling => false)
    case Finished => worker == Idle && Settled(run, j)
  }

  predicate PhaseInv(run: Run) {
    match run.coordinator
    case Marking(i) => i <= |run.agents| && run.phase == DeployingAgents
    case Creating(i) => i < |run.agents| && run.phase == DeployingAgents
    case StartingWaits(i) => i <= |run.agents| && run.phase == WaitingForAgents
    case StartingTasks(i) => i <= |run.agents| && run.phase == RunningAgents
    case Finished => run.phase == if Failed in run.agents then RunFailed else Done
  }

  ghost predicate RunInv(run: Run) {
    && |run.workers| == |run.agents|
    && PhaseInv(run)
    && (forall j: nat :: j < |run.agents| ==> AgentInv(run, j))
    && (forall j :: j in run.replies ==> j < |run.agents|)
  }

  /** The moves of the phase. */
  predicate PhaseMoves(p: Phase, q: Phase) {
    || p == q
    || (p == DeployingAgents && q == WaitingForAgents)
    || (p == WaitingForAgents && q == RunningAgents)
    || (p == RunningAgents && (q == Done || q == RunFailed))
  }

  /** What one step does to a run that others can observe: the phase only moves
      forward, and a failed agent stays failed. */
  ghost predicate Advances(before: Run, after: Run) {
    && PhaseMoves(before.phase, after.phase)
    && after.name == before.name
    && |after.agents| == |before.agents|
    && forall j :: 0 <= j < |before.agents| && before.agents[j] == Failed ==> after.agents[j] == Failed
  }

  lemma CoordinateKeeps(run: Run, ok: bool)
    requires RunInv(run) && CanCoordinate(run)
    ensures RunInv(Coordinated(run, ok)) && Advances(run, Coordinated(run, ok))
  {
    var after := Coordinated(run, ok);
    forall j: nat | j < |run.agents| ensures AgentInv(after, j) {
      assert AgentInv(run, j);
    }
    if run.coordinator.Marking? && run.coordinator.i < |run.agents| {
      assert AgentInv(run, run.coordinator.i);
    }
  }

  lemma WorkKeeps(run: Run, i: nat, ok: bool, state: string)
    requires RunInv(run) && i < |run.agents| && run.workers[i] != Idle
    ensures RunInv(Worked(run, i, ok, state)) && Advances(run, Worked(run, i, ok, state))
  {
    var after := Worked(run, i, ok, state);
    assert AgentInv(run, i);
    forall j: nat | j < |run.agents| ensures AgentInv(after, j) {
      assert AgentInv(run, j);
    }
  }

  lemma NewRunInv(name: string, n: nat)
    ensures RunInv(NewRun(name, n))
  {}

  // ----- a run always ends

  function Weight(w: Worker): nat {
    match w
    case Idle => 0
    case Polling => 1
    case Locating => 2
    case Sending => 1
  }

  function Weights(workers: seq<Worker>): nat {
    if workers == [] then 0 else Weights(workers[..|workers| - 1]) + Weight(workers[|workers| - 1])
  }

  /** The steps a run has before it, goroutines that may still be started included. */
  function StepsLeft(run: Run): int {
    var n := |run.agents|;
    Weights(run.workers) +
    match run.coordinator
    case Marking(i) => 2 * (n - i) + 5 * n + 3
    case Creating(i) => 2 * (n - i) + 5 * n + 2
    case StartingWaits(i) => 2 * (n - i) + 3 * n + 2
    case StartingTasks(i) => 3 * (n - i) + 1
    case Finished => 0
  }

  lemma {:induction false} WeightsUpdate(workers: seq<Worker>, i: nat, w: Worker)
    requires i < |workers|
    ensures Weights(workers[i := w]) == Weights(workers) - Weight(workers[i]) + Weight(w)
  {
    var last := |workers| - 1;
    if i == last {
      assert workers[i := w][..last] == workers[..last];
    } else {
      assert workers[i := w][..last] == workers[..last][i := w];
      WeightsUpdate(workers[..last], i, w);
    }
  }

  lemma StepsAreLeft(run: Run)
    requires RunInv(run)
    ensures StepsLeft(run) >= 0
  {}

  /** Every step of the coordinator uses one up. */
  lemma CoordinateSpends(run: Run, ok: bool)
    requires RunInv(run) && CanCoordinate(run)
    ensures StepsLeft(Coordinated(run, ok)) < StepsLeft(run)
  {
    if run.coordinator.StartingWaits? && run.coordinator.i < |run.agents| {
      assert AgentInv(run, run.coordinator.i);
      WeightsUpdate(run.workers, run.coordinator.i, Polling);
    }
    if run.coordinator.StartingTasks? && run.coordinator.i < |run.agents| {
      assert AgentInv(run, run.coordinator.i);
      WeightsUpdate(run.workers, run.coordinator.i, Locating);
    }
  }

  /** So does every step of a goroutine. */
  lemma WorkSpends(run: Run, i: nat, ok: bool, state: string)
    requires RunInv(run) && i < |run.agents| && run.workers[i] != Idle
    ensures StepsLeft(Worked(run, i, ok, state)) < StepsLeft(run)
  {
    WeightsUpdate(run.workers, i, Worked(run, i, ok, state).workers[i]);
  }

  /** No run in progress is stuck. */
  lemma NeverStuck(run: Run)
    requires RunInv(run) && InProgress(run)
    ensures CanCoordinate(run) || exists i: nat :: i < |run.agents| && run.workers[i] != Idle
  {
    if AllIdle(run) {
      assert run.coordinator.Finished? ==> !InProgress(run);
    }
  }

  // ----- the server

  /** A run in progress is registered under its name unless a cleanup removed it. */
  ghost predicate Registered(s: Sys) {
    && (forall name :: name in s.states ==> s.states[name] < |s.runs| && s.runs[s.states[name]].name == name)
    && (forall r: nat :: r < |s.runs| && InProgress(s.runs[r]) && r !in s.orphans ==>
          s.runs[r].name in s.states && s.states[s.runs[r].name] == r)
  }

  ghost predicate Inv(s: Sys) {
    Registered(s) && forall r: nat :: r < |s.runs| ==> RunInv(s.runs[r])
  }

  /** A step of one run: the others and the registrations stay. */
  lemma RunStepKeeps(s: Sys, r: nat, after: Run)
    requires Inv(s) && r < |s.runs| && RunInv(after) && Advances(s.runs[r], after)
    ensures Inv(s.(runs := s.runs[r := after]))
  {
    var t := s.(runs := s.runs[r := after]);
    assert InProgress(after) ==> InProgress(s.runs[r]);
    assert forall q: nat :: q < |s.runs| && q != r ==> t.runs[q] == s.runs[q];
  }

  lemma StartKeeps(s: Sys, name: string)
    requires Inv(s) && MayStart(s, name)
    ensures Inv(Next(s, HandleRun(name)))
  {
    NewRunInv(name, s.scenarios[name]);
  }

  lemma StepKeeps(s: Sys, a: Action)
    requires Inv(s) && Enabled(s, a)
    ensures Inv(Next(s, a)) && |s.runs| <= |Next(s, a).runs|
    ensures forall r: nat :: r < |s.runs| ==> Advances(s.runs[r], Next(s, a).runs[r])
  {
    match a {
      case HandleRun(name) =>
        if MayStart(s, name) {
          StartKeeps(s, name);
        }
      case HandleCleanup(_) =>
      case Coordinate(r, ok) =>
        CoordinateKeeps(s.runs[r], ok);
        RunStepKeeps(s, r, Coordinated(s.runs[r], ok));
      case Work(r, i, ok, state) =>
        WorkKeeps(s.runs[r], i, ok, state);
        RunStepKeeps(s, r, Worked(s.runs[r], i, ok, state));
    }
  }

  lemma {:induction false} InvThroughout(tr: seq<Sys>, acts: seq<Action>, k: nat)
    requires IsRun(tr, acts) && k < |tr|
    ensures Inv(tr[k])
  {
    if k > 0 {
      InvThroughout(tr, acts, k - 1);
      StepKeeps(tr[k - 1], acts[k - 1]);
    }
  }

  // ----- what becomes of an agent

  /** At step `n` something goes wrong for agent `j` of run `r`: it cannot be
      created, does not get ready, is not found, does not answer, or answers that
      it failed. */
  ghost predicate BreaksAt(tr: seq<Sys>, acts: seq<Action>, n: nat, r: nat, j: nat) {
    && n < |acts| && n < |tr| && r < |tr[n].runs| && j < |tr[n].runs[r].workers|
    && var (run, a) := (tr[n].runs[r], acts[n]);
       || (a == Coordinate(r, false) && run.coordinator == Creating(j))
       || (a.Work? && a.r == r && a.i == j && (!a.ok || (run.workers[j] == Sending && a.state == "failed")))
  }

  /** At step `n` the remote agent `j` of run `r` answers. */
  ghost predicate RepliesAt(tr: seq<Sys>, acts: seq<Action>, n: nat, r: nat, j: nat, state: string) {
    && n < |acts| && n < |tr| && r < |tr[n].runs| && j < |tr[n].runs[r].workers|
    && acts[n] == Work(r, j, true, state) && tr[n].runs[r].workers[j] == Sending
  }

  ghost predicate Broke(tr: seq<Sys>, acts: seq<Action>, k: nat, r: nat, j: nat) {
    exists n: nat :: n < k && BreaksAt(tr, acts, n, r, j)
  }

  ghost predicate Replied(tr: seq<Sys>, acts: seq<Action>, k: nat, r: nat, j: nat, state: string) {
    exists n: nat :: n < k && RepliesAt(tr, acts, n, r, j, state)
  }

  lemma OneMoreStep(tr: seq<Sys>, acts: seq<Action>, k: nat, r: nat, j: nat)
    ensures Broke(tr, acts, k + 1, r, j) <==> Broke(tr, acts, k, r, j) || BreaksAt(tr, acts, k, r, j)
  {}

  lemma OneMoreReply(tr: seq<Sys>, acts: seq<Action>, k: nat, r: nat, j: nat, state: string)
    ensures Replied(tr, acts, k + 1, r, j, state) <==>
              Replied(tr, acts, k, r, j, state) || RepliesAt(tr, acts, k, r, j, state)
  {}

  lemma {:induction false} RunsStay(tr: seq<Sys>, acts: seq<Action>, n: nat, k: nat)
    requires IsRun(tr, acts) && n <= k < |tr|
    ensures |tr[n].runs| <= |tr[k].runs|
  {
    if n < k {
      RunsStay(tr, acts, n, k - 1);
    }
  }

  lemma NotYetStarted(tr: seq<Sys>, acts: seq<Action>, k: nat, r: nat, j: nat)
    requires IsRun(tr, acts) && k < |tr| && |tr[k].runs| <= r
    ensures !Broke(tr, acts, k, r, j) && forall state :: !Replied(tr, acts, k, r, j, state)
  {
    forall n: nat | n < k ensures |tr[n].runs| <= r {
      RunsStay(tr, acts, n, k);
    }
  }

  /** What one step of a run does to one of its agents. */
  lemma FailureStep(tr: seq<Sys>, acts: seq<Action>, n: nat, r: nat, j: nat)
    requires n < |acts| && n + 1 < |tr| && Inv(tr[n]) && Enabled(tr[n], acts[n]) && tr[n + 1] == Next(tr[n], acts[n])
    requires r < |tr[n].runs| && j < |tr[n].runs[r].agents|
    ensures r < |tr[n + 1].runs| && j < |tr[n + 1].runs[r].agents|
    ensures tr[n + 1].runs[r].agents[j] == Failed <==>
              tr[n].runs[r].agents[j] == Failed || BreaksAt(tr, acts, n, r, j)
  {
    assert RunInv(tr[n].runs[r]) && AgentInv(tr[n].runs[r], j);
  }

  lemma ReplyStep(tr: seq<Sys>, acts: seq<Action>, n: nat, r: nat, j: nat, state: string)
    requires n < |acts| && n + 1 < |tr| && Inv(tr[n]) && Enabled(tr[n], acts[n]) && tr[n + 1] == Next(tr[n], acts[n])
    requires r < |tr[n].runs| && j < |tr[n].runs[r].agents|
    ensures r < |tr[n + 1].runs|
    ensures var (before, after) := (tr[n].runs[r].replies, tr[n + 1].runs[r].replies);
            j in after && after[j] == state <==>
              (j in before && before[j] == state) || RepliesAt(tr, acts, n, r, j, state)
  {
    assert RunInv(tr[n].runs[r]) && AgentInv(tr[n].runs[r], j);
  }

  lemma JustStarted(tr: seq<Sys>, acts: seq<Action>, k: nat, r: nat, j: nat)
    requires IsRun(tr, acts) && 0 < k < |tr| && |tr[k - 1].runs| <= r < |tr[k].runs| && j < |tr[k].runs[r].agents|
    ensures tr[k].runs[r].agents[j] == Pending && tr[k].runs[r].replies == map[]
    ensures !Broke(tr, acts, k, r, j) && forall state :: !Replied(tr, acts, k, r, j, state)
  {
    NotYetStarted(tr, acts, k - 1, r, j);
    OneMoreStep(tr, acts, k - 1, r, j);
    forall state ensures !Replied(tr, acts, k, r, j, state) {
      OneMoreReply(tr, acts, k - 1, r, j, state);
    }
  }

  lemma AgentsStay(tr: seq<Sys>, acts: seq<Action>, n: nat, r: nat)
    requires IsRun(tr, acts) && n + 1 < |tr| && r < |tr[n].runs|
    ensures r < |tr[n + 1].runs| && |tr[n + 1].runs[r].agents| == |tr[n].runs[r].agents|
    ensures Inv(tr[n]) && Enabled(tr[n], acts[n]) && tr[n + 1] == Next(tr[n], acts[n])
  {
    InvThroughout(tr, acts, n);
    StepKeeps(tr[n], acts[n]);
  }

  /** In every history an agent is failed exactly when something has gone wrong for it. */
  lemma {:induction false} FailedExactly(tr: seq<Sys>, acts: seq<Action>, k: nat, r: nat, j: nat)
    requires IsRun(tr, acts) && k < |tr| && r < |tr[k].runs| && j < |tr[k].runs[r].agents|
    ensures tr[k].runs[r].agents[j] == Failed <==> Broke(tr, acts, k, r, j)
  {
    if |tr[k - 1].runs| <= r {
      JustStarted(tr, acts, k, r, j);
    } else {
      AgentsStay(tr, acts, k - 1, r);
      FailedExactly(tr, acts, k - 1, r, j);
      FailureStep(tr, acts, k - 1, r, j);
      OneMoreStep(tr, acts, k - 1, r, j);
    }
  }

  /** And its reply is what its remote agent has answered. */
  lemma {:induction false} ReplyIsAnswer(tr: seq<Sys>, acts: seq<Action>, k: nat, r: nat, j: nat, state: string)
    requires IsRun(tr, acts) && k < |tr| && r < |tr[k].runs| && j < |tr[k].runs[r].agents|
    ensures var replies := tr[k].runs[r].replies;
            j in replies && replies[j] == state <==> Replied(tr, acts, k, r, j, state)
  {
    if |tr[k - 1].runs| <= r {
      JustStarted(tr, acts, k, r, j);
    } else {
      AgentsStay(tr, acts, k - 1, r);
      ReplyIsAnswer(tr, acts, k - 1, r, j, state);
      ReplyStep(tr, acts, k - 1, r, j, state);
      OneMoreReply(tr, acts, k - 1, r, j, state);
    }
  }

  // ----- what every history shows

  /** Along any history the phase of a run only moves deploying, waiting, running,
      done-or-failed, and an agent marked failed stays failed. */
  lemma EveryStepAdvances(tr: seq<Sys>, acts: seq<Action>, k: nat, r: nat)
    requires IsRun(tr, acts) && k < |acts| && r < |tr[k].runs|
    ensures r < |tr[k + 1].runs| && Advances(tr[k].runs[r], tr[k + 1].runs[r])
  {
    InvThroughout(tr, acts, k);
    StepKeeps(tr[k], acts[k]);
  }

  /** In every history a run in progress can go on. */
  lemma EveryRunGoesOn(tr: seq<Sys>, acts: seq<Action>, k: nat, r: nat) returns (a: Action)
    requires IsRun(tr, acts) && k < |tr| && r < |tr[k].runs| && InProgress(tr[k].runs[r])
    ensures Enabled(tr[k], a) && (a.Coordinate? || a.Work?) && a.r == r
  {
    InvThroughout(tr, acts, k);
    var run := tr[k].runs[r];
    NeverStuck(run);
    a := Coordinate(r, true);
    if !CanCoordinate(run) {
      var i: nat :| i < |run.agents| && run.workers[i] != Idle;
      a := Work(r, i, true, "");
    }
  }

  /** And it comes to an end: each of its steps uses up one of finitely many, and
      no other step adds to them. */
  lemma EveryRunEnds(tr: seq<Sys>, acts: seq<Action>, k: nat, r: nat)
    requires IsRun(tr, acts) && k < |acts| && r < |tr[k].runs|
    ensures r < |tr[k + 1].runs| && 0 <= StepsLeft(tr[k + 1].runs[r]) <= StepsLeft(tr[k].runs[r])
    ensures (acts[k].Coordinate? || acts[k].Work?) && acts[k].r == r ==>
              StepsLeft(tr[k + 1].runs[r]) < StepsLeft(tr[k].runs[r])
  {
    InvThroughout(tr, acts, k);
    InvThroughout(tr, acts, k + 1);
    EveryStepAdvances(tr, acts, k, r);
    StepsAreLeft(tr[k + 1].runs[r]);
    match acts[k] {
      case Coordinate(q, ok) => CoordinateSpends(tr[k].runs[q], ok);
      case Work(q, i, ok, state) => WorkSpends(tr[k].runs[q], i, ok, state);
      case _ =>
    }
  }

  /** A finished run: its phase is failed exactly when some agent is. An agent is
      left pending, deploying, ready or working exactly when the remote agent
      itself replied with that word. */
  lemma FinalPhase(tr: seq<Sys>, acts: seq<Action>, k: nat, r: nat, j: nat)
    requires IsRun(tr, acts) && k < |tr| && r < |tr[k].runs| && !InProgress(tr[k].runs[r])
    requires j < |tr[k].runs[r].agents|
    ensures var run := tr[k].runs[r];
            && (run.phase == RunFailed <==> Failed in run.agents)
            && (run.agents[j] in {Pending, Deploying, Ready, Working} <==>
                  j in run.replies && run.replies[j] in {"pending", "deploying", "ready", "working"})
            && (run.agents[j] == Failed <==> j !in run.replies || run.replies[j] == "failed")
            && (run.agents[j] == Completed <==> j in run.replies && run.replies[j] in {"", "completed"})
  {
    InvThroughout(tr, acts, k);
    var run := tr[k].runs[r];
    assert PhaseInv(run) && AgentInv(run, j);
    if j in run.replies {
      ShownBack(run.replies[j]);
    }
  }

  lemma ShownBack(state: string)
    ensures Shown(state) in {Pending, Deploying, Ready, Working} <==>
              state in {"pending", "deploying", "ready", "working"}
    ensures Shown(state) == Failed <==> state == "failed"
  {
    assert state in {"pending", "deploying", "ready", "working"} <==>
      state == "pending" || state == "deploying" || state == "ready" || state == "working";
  }

  ghost predicate Reachable(s: Sys) { exists tr, acts :: IsRun(tr, acts) && tr[|acts|] == s }

  lemma ReachNext(s: Sys, a: Action)
    requires Reachable(s) && Enabled(s, a)
    ensures Reachable(Next(s, a))
  {
    var tr, acts :| IsRun(tr, acts) && tr[|acts|] == s;
    var tr', acts' := tr + [Next(s, a)], acts + [a];
    assert forall k :: 0 <= k < |tr| ==> tr'[k] == tr[k];
    assert IsRun(tr', acts') && tr'[|acts'|] == Next(s, a);
  }

  /** One run of one agent: the system around it does not change. */
  function Alone(name: string, run: Run): Sys { Sys(map[name := 1], map[name := 0], [run], {}) }

  lemma AloneCoordinates(name: string, run: Run)
    requires Reachable(Alone(name, run)) && |run.workers| == |run.agents| && CanCoordinate(run)
    ensures Reachable(Alone(name, Coordinated(run, true)))
  {
    ReachNext(Alone(name, run), Coordinate(0, true));
    assert [run][0 := Coordinated(run, true)] == [Coordinated(run, true)];
  }

  lemma AloneWorks(name: string, run: Run, state: string)
    requires Reachable(Alone(name, run)) && |run.workers| == |run.agents| == 1 && run.workers[0] != Idle
    ensures Reachable(Alone(name, Worked(run, 0, true, state)))
  {
    ReachNext(Alone(name, run), Work(0, 0, true, state));
    assert [run][0 := Worked(run, 0, true, state)] == [Worked(run, 0, true, state)];
  }

  /** The run of one agent, by its five moving parts. */
  function OneAgent(name: string, phase: Phase, status: Status, coordinator: Coordinator, worker: Worker): Run {
    Run(name, phase, [status], coordinator, [worker], map[])
  }

  lemma AloneStarts(name: string)
    ensures Reachable(Alone(name, OneAgent(name, DeployingAgents, Pending, Marking(0), Idle)))
  {
    var s0 := Init(map[name := 1]);
    var tr, acts: seq<Action> := [s0], [];
    assert IsRun(tr, acts) && tr[|acts|] == s0;
    ReachNext(s0, HandleRun(name));
    assert seq(1, _ => Pending) == [Pending] && seq(1, _ => Idle) == [Idle];
    assert Next(s0, HandleRun(name)) == Alone(name, OneAgent(name, DeployingAgents, Pending, Marking(0), Idle));
  }

  lemma OneAgentCreated(name: string)
    ensures Reachable(Alone(name, OneAgent(name, WaitingForAgents, Deploying, StartingWaits(0), Idle)))
  {
    var r := OneAgent(name, DeployingAgents, Pending, Marking(0), Idle);
    AloneStarts(name);
    AloneCoordinates(name, r);
    assert Coordinated(r, true) == OneAgent(name, DeployingAgents, Deploying, Creating(0), Idle);
    r := OneAgent(name, DeployingAgents, Deploying, Creating(0), Idle);
    AloneCoordinates(name, r);
    r := OneAgent(name, DeployingAgents, Deploying, Marking(1), Idle);
    AloneCoordinates(name, r);
  }

  lemma OneAgentDeployed(name: string)
    ensures Reachable(Alone(name, OneAgent(name, RunningAgents, Ready, StartingTasks(0), Idle)))
  {
    var r := OneAgent(name, WaitingForAgents, Deploying, StartingWaits(0), Idle);
    OneAgentCreated(name);
    AloneCoordinates(name, r);
    assert Coordinated(r, true) == OneAgent(name, WaitingForAgents, Deploying, StartingWaits(1), Polling);
    r := OneAgent(name, WaitingForAgents, Deploying, StartingWaits(1), Polling);
    AloneWorks(name, r, "");
    assert Worked(r, 0, true, "") == OneAgent(name, WaitingForAgents, Ready, StartingWaits(1), Idle);
    r := OneAgent(name, WaitingForAgents, Ready, StartingWaits(1), Idle);
    AloneCoordinates(name, r);
  }

  /** The final phase does not mean that every agent has moved on: a remote agent
      that answers "pending" leaves a run that is done and shows it as pending. */
  lemma DoneWithPendingAgent(name: string) returns (run: Run)
    ensures Reachable(Alone(name, run)) && run.phase == Done && run.agents == [Pending]
  {
    var r := OneAgent(name, RunningAgents, Ready, StartingTasks(0), Idle);
    OneAgentDeployed(name);
    AloneCoordinates(name, r);
    assert Coordinated(r, true) == OneAgent(name, RunningAgents, Ready, StartingTasks(1), Locating);
    r := OneAgent(name, RunningAgents, Ready, StartingTasks(1), Locating);
    AloneWorks(name, r, "");
    assert Worked(r, 0, true, "") == OneAgent(name, RunningAgents, Working, StartingTasks(1), Sending);
    r := OneAgent(name, RunningAgents, Working, StartingTasks(1), Sending);
    AloneWorks(name, r, "pending");
    r := Worked(r, 0, true, "pending");
    assert r.agents == [Pending] && r.workers == [Idle];
    AloneCoordinates(name, r);
    run := Coordinated(r, true);
  }

  /** handleRun never replaces a registered run that is still in progress. */
  lemma RunIsNotReplaced(s: Sys, a: Action, name: string)
    requires Inv(s) && Enabled(s, a) && name in s.states && InProgress(s.runs[s.states[name]])
    requires a != HandleCleanup(name)
    ensures name in Next(s, a).states && Next(s, a).states[name] == s.states[name]
  {}

  /** So two runs of one scenario are in progress together only after a cleanup
      in the middle of the earlier one. */
  lemma OneRunInProgress(tr: seq<Sys>, acts: seq<Action>, k: nat, q: nat, r: nat)
    requires IsRun(tr, acts) && k < |tr| && q < r < |tr[k].runs|
    requires tr[k].runs[q].name == tr[k].runs[r].name
    requires InProgress(tr[k].runs[q]) && InProgress(tr[k].runs[r])
    ensures q in tr[k].orphans || r in tr[k].orphans
  {
    InvThroughout(tr, acts, k);
  }

  /** And a cleanup does allow it. */
  lemma CleanupAllowsTwo(name: string) returns (tr: seq<Sys>, acts: seq<Action>)
    ensures IsRun(tr, acts)
    ensures var s := tr[|tr| - 1];
            |s.runs| == 2 && s.runs[0].name == s.runs[1].name && InProgress(s.runs[0]) && InProgress(s.runs[1])
  {
    acts := [HandleRun(name), HandleCleanup(name), HandleRun(name)];
    var s0 := Init(map[name := 1]);
    var s1 := Next(s0, acts[0]);
    var s2 := Next(s1, acts[1]);
    tr := [s0, s1, s2, Next(s2, acts[2])];
  }

  // ----- the handlers on the shared map

  class Runtime {
    var phase: Phase
    var agents: seq<Status>

    constructor (n: nat)
      ensures phase == DeployingAgents && agents == seq(n, _ => Pending)
    {
      phase := DeployingAgents;
      agents := seq(n, _ => Pending);
    }
  }

  datatype HttpReply = Started | NotFound | BadRequest | Conflict | Cleaned

  lemma RunGrows(tr: seq<Sys>, acts: seq<Action>, a: Action)
    requires IsRun(tr, acts) && Enabled(tr[|acts|], a)
    ensures IsRun(tr + [Next(tr[|acts|], a)], acts + [a])
  {
    var tr', acts' := tr + [Next(tr[|acts|], a)], acts + [a];
    forall k | 0 <= k < |acts'| ensures Enabled(tr'[k], acts'[k]) && tr'[k + 1] == Next(tr'[k], acts'[k]) {
      assert k < |acts| ==> tr'[k] == tr[k] && tr'[k + 1] == tr[k + 1] && acts'[k] == acts[k];
    }
  }

  /** The map holds, under each registered name, the runtime of its run. */
  ghost predicate Registers(states: map<string, Runtime>, runtimes: seq<Runtime>, s: Sys) {
    && |runtimes| == |s.runs| && states.Keys == s.states.Keys
    && (forall i, j :: 0 <= i < j < |runtimes| ==> runtimes[i] != runtimes[j])
    && (forall name :: name in states ==> s.states[name] < |runtimes| && states[name] == runtimes[s.states[name]])
  }

  lemma StartRegisters(states: map<string, Runtime>, runtimes: seq<Runtime>, s: Sys, name: string, rt: Runtime)
    requires Registers(states, runtimes, s) && MayStart(s, name) && rt !in runtimes
    ensures Registers(states[name := rt], runtimes + [rt], Next(s, Action.HandleRun(name)))
  {}

  lemma CleanupRegisters(states: map<string, Runtime>, runtimes: seq<Runtime>, s: Sys, name: string)
    requires Registers(states, runtimes, s) && name in s.scenarios
    ensures Registers(states - {name}, runtimes, Next(s, Action.HandleCleanup(name)))
    ensures Next(s, Action.HandleCleanup(name)).runs == s.runs
    ensures Next(s, Action.HandleCleanup(name)).scenarios == s.scenarios
  {}

  class Server {
    const scenarios: map<string, nat>
    var states: map<string, Runtime>

    /** Every run ever started, and the history that led here. */
    ghost var runtimes: seq<Runtime>
    ghost var history: seq<Sys>
    ghost var actions: seq<Action>

    ghost function Now(): Sys
      reads this
      requires history != []
    {
      history[|history| - 1]
    }

    /** What the fields show is the state the history has come to. */
    ghost predicate Valid()
      reads this, runtimes
    {
      IsRun(history, actions) && Now().scenarios == scenarios && Registers(states, runtimes, Now()) && Shows(Now())
    }

    ghost predicate Shows(s: Sys)
      reads this, runtimes
    {
      && |runtimes| == |s.runs|
      && forall r :: 0 <= r < |runtimes| ==>
           runtimes[r].phase == s.runs[r].phase && runtimes[r].agents == s.runs[r].agents
    }

    predicate Busy(name: string)
      reads this, states.Values
    {
      name in states && states[name].phase != Done && states[name].phase != RunFailed
    }

    constructor (scenarios: map<string, nat>)
      ensures Valid() && history == [Init(scenarios)]
      ensures this.scenarios == scenarios && states == map[]
    {
      this.scenarios := scenarios;
      states, runtimes := map[], [];
      history, actions := [Init(scenarios)], [];
    }

    method Refusal(name: string) returns (reply: Option<HttpReply>)
      requires Valid()
      ensures reply == None <==> MayStart(Now(), name)
      ensures reply == Some(NotFound) <==> name !in scenarios
      ensures reply == Some(BadRequest) <==> name in scenarios && scenarios[name] == 0
      ensures reply == Some(Conflict) <==> name in scenarios && scenarios[name] > 0 && Busy(name)
      ensures reply.Some? ==> reply.value in {NotFound, BadRequest, Conflict}
    {
      if name !in scenarios {
        return Some(NotFound);
      }
      if scenarios[name] == 0 {
        return Some(BadRequest);
      }
      if Busy(name) {
        return Some(Conflict);
      }
      reply := None;
    }

    /** A start puts a fresh run under the name alone; nothing else changes the map. */
    method HandleRun(name: string) returns (reply: HttpReply)
      requires Valid()
      modifies this
      ensures Valid() && history == old(history) + [Next(old(Now()), Action.HandleRun(name))]
      ensures reply == Started <==> MayStart(old(Now()), name)
      ensures reply == NotFound <==> name !in scenarios
      ensures reply == BadRequest <==> name in scenarios && scenarios[name] == 0
      ensures reply == Conflict <==> name in scenarios && scenarios[name] > 0 && old(Busy(name))
      ensures reply != Cleaned && (reply != Started ==> states == old(states) && runtimes == old(runtimes))
      ensures reply == Started ==>
                && name in states && fresh(states[name]) && states == old(states)[name := states[name]]
                && states[name].phase == DeployingAgents && states[name].agents == seq(scenarios[name], _ => Pending)
    {
      var refusal := Refusal(name);
      if refusal.Some? {
        RunGrows(history, actions, Action.HandleRun(name));
        history, actions := history + [Now()], actions + [Action.HandleRun(name)];
        return refusal.value;
      }
      Start(name);
      reply := Started;
    }

    method Start(name: string)
      requires Valid() && MayStart(Now(), name)
      modifies this
      ensures Valid() && history == old(history) + [Next(old(Now()), Action.HandleRun(name))]
      ensures name in states && fresh(states[name]) && states == old(states)[name := states[name]]
      ensures states[name].phase == DeployingAgents && states[name].agents == seq(scenarios[name], _ => Pending)
    {
      ghost var s := Now();
      RunGrows(history, actions, Action.HandleRun(name));
      var rt := new Runtime(scenarios[name]);
      StartRegisters(states, runtimes, s, name, rt);
      history, actions := history + [Next(s, Action.HandleRun(name))], actions + [Action.HandleRun(name)];
      states, runtimes := states[name := rt], runtimes + [rt];
    }

    method HandleCleanup(name: string) returns (reply: HttpReply)
      requires Valid()
      modifies this
      ensures Valid() && history == old(history) + [Next(old(Now()), Action.HandleCleanup(name))]
      ensures runtimes == old(runtimes)
      ensures if name in scenarios then reply == Cleaned && states == old(states) - {name}
              else reply == NotFound && states == old(states)
    {
      ghost var s := Now();
      RunGrows(history, actions, Action.HandleCleanup(name));
      history, actions := history + [Next(s, Action.HandleCleanup(name))], actions + [Action.HandleCleanup(name)];
      if name !in scenarios {
        return NotFound;
      }
      CleanupRegisters(states, runtimes, s, name);
      states := states - {name};
      reply := Cleaned;
    }

    /** What a step of a run, `a`, writes to its runtime under the lock. */
    method Write(rt: Runtime, phase: Phase, agents: seq<Status>, ghost a: Action)
      requires Valid() && Enabled(Now(), a) && (a.Coordinate? || a.Work?) && rt == runtimes[a.r]
      requires phase == Next(Now(), a).runs[a.r].phase && agents == Next(Now(), a).runs[a.r].agents
      modifies this`history, this`actions, rt
      ensures Valid() && history == old(history) + [Next(old(Now()), a)]
    {
      RunGrows(history, actions, a);
      history, actions := history + [Next(Now(), a)], actions + [a];
      rt.phase, rt.agents := phase, agents;
    }
  }

  /** So what holds in every history holds of the server: a finished run that it
      shows is failed exactly when one of its agents is. */
  lemma ShownWhenFinished(server: Server, name: string)
    requires server.Valid() && name in server.states && !server.Busy(name) && server.states[name].agents != []
    ensures server.states[name].phase == RunFailed <==> Failed in server.states[name].agents
  {
    FinalPhase(server.history, server.actions, |server.actions|, server.Now().states[name], 0);
  }
}
