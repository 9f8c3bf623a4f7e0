/** Every interleaving of message executions with the session reaper. Each
    store call is one atomic step; model calls and event consumers are free. */
module ExecutorRuns {
  import opened Common
  import opened Sessions

  datatype Event = Submitted | Working | Failed | Artifact(text: string) | Completed

  /** `at` and `seen` are lengths of the log: when the session was opened and
      when the snapshot was taken. */
  datatype Phase =
    | Submitting
    | Announcing
    | Deciding
    | Opening
    | Opened(at: nat)
    | Processing(snapshot: seq<Message>, at: nat, seen: nat)
    | Saving(result: string)
    | Delivering(result: string)
    | Completing
    | Failing
    | Ended

  datatype Exec = Exec(key: string, isNew: bool, text: string, phase: Phase, events: seq<Event>)

  /** What happens to sessions: one is created, or a reap deletes some, each
      with the time it had been idle. */
  datatype LogEntry = Created(key: string) | Reap(idle: map<string, int>)

  datatype Config = Config(hasProcessor: bool, hasSessions: bool, prompt: string, ttl: int)

  datatype Sys = Sys(now: nat, store: Store, execs: map<nat, Exec>, log: seq<LogEntry>)

  /** `more` is whether the consumer of events goes on; `outcome` is what the
      message processor returned. */
  datatype Action =
    | Tick(now: nat)
    | ReapIdle
    | Begin(i: nat, key: string, isNew: bool, text: string)
    | Advance(i: nat, more: bool, outcome: Option<string>)

  function Init(now: nat): Sys { Sys(now, map[], map[], []) }

  predicate Stateful(c: Config, key: string) { c.hasSessions && key != "" }

  predicate Enabled(s: Sys, a: Action) {
    match a
    case Tick(now) => s.now <= now
    case ReapIdle => true
    case Begin(i, _, _, _) => i !in s.execs
    case Advance(i, _, _) => i in s.execs && !s.execs[i].phase.Ended?
  }

  function IdleSessions(c: Config, s: Sys): map<string, int> {
    map id | id in s.store && Expired(s.store[id], s.now, c.ttl) :: s.now - s.store[id].lastActive
  }

  function Emit(e: Exec, event: Event, next: Phase, more: bool): Exec {
    e.(events := e.events + [event], phase := if more then next else Ended)
  }

  /** The execution after its next step; store effects are in `Next`. */
  function Moved(c: Config, s: Sys, e: Exec, more: bool, outcome: Option<string>): Exec
    requires !e.phase.Ended?
  {
    match e.phase
    case Submitting => Emit(e, Submitted, Announcing, more)
    case Announcing => Emit(e, Working, Deciding, more)
    case Deciding =>
      e.(phase := if !c.hasProcessor then Failing
                  else if Stateful(c, e.key) then Opening
                  else Processing([Plain("system", c.prompt), Plain("user", e.text)], |s.log|, |s.log|))
    case Opening => e.(phase := Opened(|s.log| + (if e.key in s.store then 0 else 1)))
    case Opened(at) =>
      e.(phase := Processing(Transcript(Extended(s.store, e.key, Plain("user", e.text), s.now), e.key), at, |s.log|))
    case Processing(_, _, _) =>
      e.(phase := if outcome == None then Failing
                  else if Stateful(c, e.key) then Saving(outcome.value) else Delivering(outcome.value))
    case Saving(result) => e.(phase := Delivering(result))
    case Delivering(result) => Emit(e, Artifact(result), Completing, more)
    case Completing => Emit(e, Completed, Ended, more)
    case Failing => Emit(e, Failed, Ended, more)
  }

  function Next(c: Config, s: Sys, a: Action): Sys
    requires Enabled(s, a)
  {
    match a
    case Tick(now) => s.(now := now)
    case ReapIdle => s.(store := Reaped(s.store, s.now, c.ttl), log := s.log + [Reap(IdleSessions(c, s))])
    case Begin(i, key, isNew, text) =>
      s.(execs := s.execs[i := Exec(key, isNew, text, if isNew then Submitting else Announcing, [])])
    case Advance(i, more, outcome) =>
      var e := s.execs[i];
      Sys(s.now, StoreAfter(c, s.store, e, s.now), s.execs[i := Moved(c, s, e, more, outcome)], LogAfter(s, e))
  }

  /** The store call an execution's next step makes, if any. */
  function StoreAfter(c: Config, st: Store, e: Exec, now: nat): Store {
    match e.phase
    case Opening => Sessions.Opened(st, e.key, c.prompt, now)
    case Opened(_) => Extended(st, e.key, Plain("user", e.text), now)
    case Saving(result) => Extended(st, e.key, Plain("assistant", result), now)
    case _ => st
  }

  function LogAfter(s: Sys, e: Exec): seq<LogEntry> {
    if e.phase.Opening? && e.key !in s.store then s.log + [Created(e.key)] else s.log
  }

  /** States and the actions between them, from any state on. */
  ghost predicate IsTrace(c: Config, tr: seq<Sys>, acts: seq<Action>) {
    && |tr| == |acts| + 1
    && forall k :: 0 <= k < |acts| ==> Enabled(tr[k], acts[k]) && tr[k + 1] == Next(c, tr[k], acts[k])
  }

  ghost predicate IsRun(c: Config, tr: seq<Sys>, acts: seq<Action>) {
    IsTrace(c, tr, acts) && tr[0] == Init(tr[0].now)
  }

  // ----- sessions and the log

  /** Whether the log says the session exists. */
  predicate Alive(log: seq<LogEntry>, key: string) {
    log != [] &&
    match log[|log| - 1]
    case Created(k) => k == key || Alive(log[..|log| - 1], key)
    case Reap(idle) => key !in idle && Alive(log[..|log| - 1], key)
  }

  predicate Reaps(e: LogEntry, key: string) { e.Reap? && key in e.idle }

  /** A session that was alive and is not any more was reaped in between. */
  lemma {:induction false} DeathIsAReap(log: seq<LogEntry>, at: nat, key: string) returns (k: nat)
    requires at <= |log| && Alive(log[..at], key) && !Alive(log, key)
    ensures at <= k < |log| && Reaps(log[k], key)
    decreases |log|
  {
    assert log[..|log|] == log && at < |log|;
    if Reaps(log[|log| - 1], key) {
      k := |log| - 1;
    } else {
      var front := log[..|log| - 1];
      assert front[..at] == log[..at];
      k := DeathIsAReap(front, at, key);
    }
  }

  ghost predicate StoreIsAlive(s: Sys) { forall key :: key in s.store <==> Alive(s.log, key) }

  ghost predicate ReapedWereIdle(c: Config, log: seq<LogEntry>) {
    forall k, key :: 0 <= k < |log| && Reaps(log[k], key) ==> log[k].idle[key] > c.ttl
  }

  ghost predicate StoreFollowsLog(c: Config, s: Sys) { StoreIsAlive(s) && ReapedWereIdle(c, s.log) }

  /** An open session existed when it was opened. A snapshot was taken from the
      session as it was then: empty exactly when the session was gone, and
      otherwise ending with the caller's own message. */
  ghost predicate ExecFits(c: Config, log: seq<LogEntry>, e: Exec) {
    && (e.phase.Opening? || e.phase.Opened? || e.phase.Saving? ==> Stateful(c, e.key))
    && (e.phase.Opening? || e.phase.Opened? || e.phase.Processing? || e.phase.Saving? ==> c.hasProcessor)
    && (e.phase.Opened? ==> e.phase.at <= |log| && Alive(log[..e.phase.at], e.key))
    && (e.phase.Processing? ==> SnapshotIsOwn(c, log, e))
  }

  ghost predicate AllExecsFit(c: Config, s: Sys) { forall i :: i in s.execs ==> ExecFits(c, s.log, s.execs[i]) }

  ghost predicate SnapshotIsOwn(c: Config, log: seq<LogEntry>, e: Exec)
    requires e.phase.Processing?
  {
    var Processing(snapshot, at, seen) := e.phase;
    && (snapshot != [] ==> snapshot[|snapshot| - 1] == Plain("user", e.text))
    && (snapshot != [] ==> snapshot[0] == Plain("system", c.prompt))
    && (Stateful(c, e.key) ==>
          && at <= seen <= |log| && Alive(log[..at], e.key)
          && (snapshot == [] <==> !Alive(log[..seen], e.key)))
    && (!Stateful(c, e.key) ==> snapshot != [])
  }

  ghost predicate StartsWithPrompt(c: Config, s: Sys) {
    forall key :: key in s.store ==>
      s.store[key].messages != [] && s.store[key].messages[0] == Plain("system", c.prompt)
  }

  // ----- events

  /** The artifact has gone out, and completion perhaps too. */
  ghost predicate Delivered(e: Exec, head: seq<Event>, text: string) {
    || e.events == head + [Working, Artifact(text)]
    || e.events == head + [Working, Artifact(text), Completed]
  }

  /** The events an execution has produced, by phase. */
  ghost predicate EventsFit(e: Exec) {
    var head := if e.isNew then [Submitted] else [];
    match e.phase
    case Submitting => e.isNew && e.events == []
    case Announcing => e.events == head
    case Completing => exists text :: e.events == head + [Working, Artifact(text)]
    case Ended =>
      || (e.events == [Submitted] && e.isNew)
      || e.events == head + [Working]
      || e.events == head + [Working, Failed]
      || exists text :: Delivered(e, head, text)
    case _ => e.events == head + [Working]
  }

  ghost predicate AllEventsFit(s: Sys) { forall i :: i in s.execs ==> EventsFit(s.execs[i]) }

  lemma MovedEventsFit(c: Config, s: Sys, e: Exec, more: bool, outcome: Option<string>)
    requires !e.phase.Ended? && EventsFit(e)
    ensures EventsFit(Moved(c, s, e, more, outcome))
  {
    var head := if e.isNew then [Submitted] else [];
    var m := Moved(c, s, e, more, outcome);
    match e.phase {
      case Announcing => assert m.events == head + [Working];
      case Delivering(text) => assert m.events == head + [Working, Artifact(text)];
      case Completing =>
        var text :| e.events == head + [Working, Artifact(text)];
        assert m.events == head + [Working, Artifact(text), Completed];
      case Failing => assert m.events == head + [Working, Failed];
      case _ =>
    }
  }

  // ----- the invariant

  ghost predicate Inv(c: Config, s: Sys) {
    StoreFollowsLog(c, s) && AllExecsFit(c, s) && StartsWithPrompt(c, s) && AllEventsFit(s)
  }

  lemma StepKeepsPrompt(c: Config, s: Sys, a: Action)
    requires StartsWithPrompt(c, s) && Enabled(s, a)
    ensures StartsWithPrompt(c, Next(c, s, a))
  {}

  lemma StepKeepsStore(c: Config, s: Sys, a: Action)
    requires Inv(c, s) && Enabled(s, a)
    ensures StoreFollowsLog(c, Next(c, s, a)) && StartsWithPrompt(c, Next(c, s, a)) && s.log <= Next(c, s, a).log
  {
    StepKeepsPrompt(c, s, a);
    StepKeepsLog(c, s, a);
  }

  lemma StepKeepsLog(c: Config, s: Sys, a: Action)
    requires StoreFollowsLog(c, s) && Enabled(s, a)
    ensures StoreFollowsLog(c, Next(c, s, a)) && s.log <= Next(c, s, a).log
  {
    StepKeepsAlive(c, s, a);
    StepReapsIdle(c, s, a);
  }

  lemma StepKeepsAlive(c: Config, s: Sys, a: Action)
    requires StoreIsAlive(s) && Enabled(s, a)
    ensures StoreIsAlive(Next(c, s, a)) && s.log <= Next(c, s, a).log
  {
    var t := Next(c, s, a);
    if t.log != s.log {
      assert t.log[..|t.log| - 1] == s.log;
    }
  }

  lemma StepReapsIdle(c: Config, s: Sys, a: Action)
    requires ReapedWereIdle(c, s.log) && Enabled(s, a)
    ensures ReapedWereIdle(c, Next(c, s, a).log)
  {
    var log := Next(c, s, a).log;
    forall k, key | 0 <= k < |log| && Reaps(log[k], key) ensures log[k].idle[key] > c.ttl {
      assert k < |s.log| ==> log[k] == s.log[k];
    }
  }

  lemma ExecFitsLongerLog(c: Config, log: seq<LogEntry>, longer: seq<LogEntry>, e: Exec)
    requires ExecFits(c, log, e) && log <= longer
    ensures ExecFits(c, longer, e)
  {
    if e.phase.Opened? || (e.phase.Processing? && Stateful(c, e.key)) {
      assert longer[..e.phase.at] == log[..e.phase.at];
    }
    if e.phase.Processing? && Stateful(c, e.key) {
      assert longer[..e.phase.seen] == log[..e.phase.seen];
    }
  }

  lemma OpenedExecFits(c: Config, s: Sys, i: nat, more: bool, outcome: Option<string>)
    requires Inv(c, s) && Enabled(s, Advance(i, more, outcome)) && s.execs[i].phase.Opening?
    ensures ExecFits(c, Next(c, s, Advance(i, more, outcome)).log, Moved(c, s, s.execs[i], more, outcome))
  {
    var t := Next(c, s, Advance(i, more, outcome));
    assert ExecFits(c, s.log, s.execs[i]);
    StepKeepsStore(c, s, Advance(i, more, outcome));
    assert t.log[..|t.log|] == t.log;
  }

  lemma AskedExecFits(c: Config, s: Sys, i: nat, more: bool, outcome: Option<string>)
    requires Inv(c, s) && Enabled(s, Advance(i, more, outcome)) && s.execs[i].phase.Opened?
    ensures ExecFits(c, Next(c, s, Advance(i, more, outcome)).log, Moved(c, s, s.execs[i], more, outcome))
  {
    assert ExecFits(c, s.log, s.execs[i]);
    assert s.log[..|s.log|] == s.log;
  }

  lemma MovedExecFits(c: Config, s: Sys, i: nat, more: bool, outcome: Option<string>)
    requires Inv(c, s) && Enabled(s, Advance(i, more, outcome))
    ensures ExecFits(c, Next(c, s, Advance(i, more, outcome)).log, Moved(c, s, s.execs[i], more, outcome))
  {
    assert ExecFits(c, s.log, s.execs[i]);
    if s.execs[i].phase.Opening? {
      OpenedExecFits(c, s, i, more, outcome);
    } else if s.execs[i].phase.Opened? {
      AskedExecFits(c, s, i, more, outcome);
    }
  }

  lemma StepKeepsExecs(c: Config, s: Sys, a: Action)
    requires Inv(c, s) && Enabled(s, a)
    ensures AllExecsFit(c, Next(c, s, a))
  {
    var t := Next(c, s, a);
    StepKeepsStore(c, s, a);
    forall i | i in t.execs ensures ExecFits(c, t.log, t.execs[i]) {
      if a.Advance? && a.i == i {
        MovedExecFits(c, s, i, a.more, a.outcome);
      } else if i in s.execs && !(a.Begin? && a.i == i) {
        ExecFitsLongerLog(c, s.log, t.log, s.execs[i]);
      }
    }
  }

  lemma StepKeepsInv(c: Config, s: Sys, a: Action)
    requires Inv(c, s) && Enabled(s, a)
    ensures Inv(c, Next(c, s, a))
  {
    StepKeepsStore(c, s, a);
    StepKeepsExecs(c, s, a);
    if a.Advance? {
      MovedEventsFit(c, s, s.execs[a.i], a.more, a.outcome);
    }
  }

  lemma {:induction false} InvThroughout(c: Config, tr: seq<Sys>, acts: seq<Action>, k: nat)
    requires IsRun(c, tr, acts) && k < |tr|
    ensures Inv(c, tr[k])
  {
    if k > 0 {
      InvThroughout(c, tr, acts, k - 1);
      StepKeepsInv(c, tr[k - 1], acts[k - 1]);
    }
  }

  // ----- turns: no answer without a question

  function Count(ms: seq<Message>, role: string): nat {
    if ms == [] then 0 else Count(ms[..|ms| - 1], role) + (if ms[|ms| - 1].role == role then 1 else 0)
  }

  ghost predicate Balanced(ms: seq<Message>) {
    forall n :: 0 <= n <= |ms| ==> Count(ms[..n], "assistant") <= Count(ms[..n], "user")
  }

  predicate Answering(c: Config, e: Exec, key: string) {
    Stateful(c, key) && e.key == key && (e.phase.Processing? || e.phase.Saving?)
  }

  /** The executions that have asked in this session and not yet answered. */
  ghost function Pending(c: Config, s: Sys, key: string): set<nat> {
    set i | i in s.execs && Answering(c, s.execs[i], key)
  }

  ghost predicate TurnsFit(c: Config, s: Sys, key: string) { TurnsHold(s.store, Pending(c, s, key), key) }

  /** The execution has opened this session and not yet saved its answer. */
  predicate Busy(c: Config, e: Exec, key: string) {
    Stateful(c, key) && e.key == key && (e.phase.Opened? || e.phase.Processing? || e.phase.Saving?)
  }

  /** A reap now would delete the session under a busy execution. */
  ghost predicate Catches(c: Config, s: Sys, key: string) {
    && key in s.store && Expired(s.store[key], s.now, c.ttl)
    && exists i :: i in s.execs && Busy(c, s.execs[i], key)
  }

  /** No reap along the way catches a busy execution of the session. */
  ghost predicate Spared(c: Config, tr: seq<Sys>, acts: seq<Action>, key: string) {
    forall k :: 0 <= k < |acts| && k < |tr| && acts[k].ReapIdle? ==> !Catches(c, tr[k], key)
  }

  /** Every execution that has opened the session finds it there. */
  ghost predicate OpenedIsThere(c: Config, s: Sys, key: string) {
    forall i :: i in s.execs && s.execs[i].key == key && s.execs[i].phase.Opened? ==> key in s.store
  }

  ghost predicate Orderly(c: Config, s: Sys, key: string) {
    Inv(c, s) && TurnsFit(c, s, key) && OpenedIsThere(c, s, key)
  }

  lemma CountAppend(ms: seq<Message>, m: Message)
    ensures Count(ms + [m], "assistant") == Count(ms, "assistant") + (if m.role == "assistant" then 1 else 0)
    ensures Count(ms + [m], "user") == Count(ms, "user") + (if m.role == "user" then 1 else 0)
    ensures Balanced(ms) && Count(ms + [m], "assistant") <= Count(ms + [m], "user") ==> Balanced(ms + [m])
  {
    assert (ms + [m])[..|ms|] == ms;
    forall n | 0 <= n <= |ms| + 1
      ensures Balanced(ms) && Count(ms + [m], "assistant") <= Count(ms + [m], "user") ==>
                Count((ms + [m])[..n], "assistant") <= Count((ms + [m])[..n], "user")
    {
      if n <= |ms| {
        assert (ms + [m])[..n] == ms[..n];
      } else {
        assert (ms + [m])[..n] == ms + [m];
      }
    }
  }

  lemma PendingMoves(c: Config, s: Sys, a: Action, key: string)
    requires Enabled(s, a)
    ensures var t := Next(c, s, a);
            Pending(c, t, key) ==
            if a.Advance? && Answering(c, t.execs[a.i], key) then Pending(c, s, key) + {a.i}
            else if a.Advance? then Pending(c, s, key) - {a.i}
            else Pending(c, s, key)
  {}

  ghost predicate TurnsHold(st: Store, pending: set<nat>, key: string) {
    if key in st then
      var ms := st[key].messages;
      Balanced(ms) && Count(ms, "assistant") + |pending| <= Count(ms, "user")
    else pending == {}
  }

  /** The effect of one message on the turns of its session. */
  lemma MessageKeepsTurns(st: Store, id: string, m: Message, now: nat, pending: set<nat>, after: set<nat>)
    requires TurnsHold(st, pending, id) && id in st
    requires m.role == "user" || m.role == "assistant"
    requires m.role == "user" ==> |after| == |pending| + 1
    requires m.role == "assistant" ==> |after| + 1 == |pending|
    ensures TurnsHold(Extended(st, id, m, now), after, id)
  {
    CountAppend(st[id].messages, m);
  }

  lemma FirstMessage(m: Message)
    requires m.role != "user" && m.role != "assistant"
    ensures Balanced([m]) && Count([m], "assistant") == 0 && Count([m], "user") == 0
  {
    assert Balanced([]);
    CountAppend([], m);
    assert [] + [m] == [m];
  }

  lemma OpeningKeepsTurns(st: Store, id: string, prompt: string, now: nat, pending: set<nat>)
    requires TurnsHold(st, pending, id)
    ensures TurnsHold(Sessions.Opened(st, id, prompt, now), pending, id)
  {
    if id !in st {
      FirstMessage(Plain("system", prompt));
    }
  }

  /** A reap that catches nobody leaves nobody waiting for an answer. */
  lemma ReapKeepsTurns(c: Config, s: Sys, key: string)
    requires Orderly(c, s, key) && !Catches(c, s, key)
    ensures TurnsFit(c, Next(c, s, ReapIdle), key) && OpenedIsThere(c, Next(c, s, ReapIdle), key)
  {
    var t := Next(c, s, ReapIdle);
    assert Pending(c, t, key) == Pending(c, s, key);
    if key in s.store && key !in t.store {
      forall i | i in s.execs ensures !Busy(c, s.execs[i], key) {}
      forall i | i in s.execs && s.execs[i].key == key ensures !s.execs[i].phase.Opened? {
        assert ExecFits(c, s.log, s.execs[i]);
      }
      assert Pending(c, s, key) == {};
    }
  }

  lemma StepKeepsTurns(c: Config, s: Sys, a: Action, key: string)
    requires Orderly(c, s, key) && Enabled(s, a) && (a.ReapIdle? ==> !Catches(c, s, key))
    ensures TurnsFit(c, Next(c, s, a), key)
  {
    match a {
      case ReapIdle => ReapKeepsTurns(c, s, key);
      case Advance(i, _, _) =>
        if s.execs[i].key == key {
          OwnStepKeepsTurns(c, s, a, key);
        } else {
          OtherStepKeepsTurns(c, s, a, key);
        }
      case _ =>
        PendingMoves(c, s, a, key);
    }
  }

  lemma StepKeepsOpened(c: Config, s: Sys, a: Action, key: string)
    requires Orderly(c, s, key) && Enabled(s, a) && (a.ReapIdle? ==> !Catches(c, s, key))
    ensures OpenedIsThere(c, Next(c, s, a), key)
  {
    if a.ReapIdle? {
      ReapKeepsTurns(c, s, key);
    }
  }

  lemma StepKeepsOrder(c: Config, s: Sys, a: Action, key: string)
    requires Orderly(c, s, key) && Enabled(s, a) && (a.ReapIdle? ==> !Catches(c, s, key))
    ensures Orderly(c, Next(c, s, a), key)
  {
    StepKeepsInv(c, s, a);
    StepKeepsTurns(c, s, a, key);
    StepKeepsOpened(c, s, a, key);
  }

  lemma OtherStepKeepsTurns(c: Config, s: Sys, a: Action, key: string)
    requires Enabled(s, a) && a.Advance? && s.execs[a.i].key != key && TurnsFit(c, s, key)
    ensures TurnsFit(c, Next(c, s, a), key)
  {
    var t := Next(c, s, a);
    PendingMoves(c, s, a, key);
    assert a.i !in Pending(c, s, key);
    assert Pending(c, t, key) == Pending(c, s, key);
    StoreElsewhere(c, s.store, s.execs[a.i], s.now, key);
    SameTurns(s.store, t.store, Pending(c, s, key), key);
  }

  lemma StoreElsewhere(c: Config, st: Store, e: Exec, now: nat, key: string)
    requires e.key != key
    ensures var after := StoreAfter(c, st, e, now);
            (key in after <==> key in st) && (key in st ==> after[key] == st[key])
  {}

  lemma SameTurns(st: Store, after: Store, pending: set<nat>, key: string)
    requires TurnsHold(st, pending, key) && (key in after <==> key in st) && (key in st ==> after[key] == st[key])
    ensures TurnsHold(after, pending, key)
  {}

  lemma OwnStepKeepsTurns(c: Config, s: Sys, a: Action, key: string)
    requires Orderly(c, s, key) && Enabled(s, a) && a.Advance? && s.execs[a.i].key == key
    ensures TurnsFit(c, Next(c, s, a), key)
  {
    var e := s.execs[a.i];
    assert ExecFits(c, s.log, e);
    if e.phase.Opening? {
      OpeningStepKeepsTurns(c, s, a, key);
    } else if e.phase.Opened? {
      AskingStepKeepsTurns(c, s, a, key);
    } else if e.phase.Saving? {
      AnsweringStepKeepsTurns(c, s, a, key);
    } else {
      QuietStepKeepsTurns(c, s, a, key);
    }
  }

  lemma OpeningStepKeepsTurns(c: Config, s: Sys, a: Action, key: string)
    requires Enabled(s, a) && a.Advance? && s.execs[a.i].key == key && TurnsFit(c, s, key)
    requires s.execs[a.i].phase.Opening?
    ensures TurnsFit(c, Next(c, s, a), key)
  {
    PendingMoves(c, s, a, key);
    assert a.i !in Pending(c, s, key);
    assert Pending(c, Next(c, s, a), key) == Pending(c, s, key);
    OpeningKeepsTurns(s.store, key, c.prompt, s.now, Pending(c, s, key));
  }

  lemma AskingStepKeepsTurns(c: Config, s: Sys, a: Action, key: string)
    requires Enabled(s, a) && a.Advance? && s.execs[a.i].key == key && TurnsFit(c, s, key)
    requires s.execs[a.i].phase.Opened? && Stateful(c, key) && key in s.store
    ensures TurnsFit(c, Next(c, s, a), key)
  {
    PendingMoves(c, s, a, key);
    var before, after := Pending(c, s, key), Pending(c, Next(c, s, a), key);
    assert a.i !in before && after == before + {a.i};
    MessageKeepsTurns(s.store, key, Plain("user", s.execs[a.i].text), s.now, before, after);
  }

  lemma AnsweringStepKeepsTurns(c: Config, s: Sys, a: Action, key: string)
    requires Enabled(s, a) && a.Advance? && s.execs[a.i].key == key && TurnsFit(c, s, key)
    requires s.execs[a.i].phase.Saving? && Stateful(c, key)
    ensures TurnsFit(c, Next(c, s, a), key)
  {
    PendingMoves(c, s, a, key);
    var before, after := Pending(c, s, key), Pending(c, Next(c, s, a), key);
    assert a.i in before && after == before - {a.i};
    MessageKeepsTurns(s.store, key, Plain("assistant", s.execs[a.i].phase.result), s.now, before, after);
  }

  lemma QuietStepKeepsTurns(c: Config, s: Sys, a: Action, key: string)
    requires Enabled(s, a) && a.Advance? && TurnsFit(c, s, key)
    requires var p := s.execs[a.i].phase; !p.Opening? && !p.Opened? && !p.Saving?
    ensures TurnsFit(c, Next(c, s, a), key)
  {
    var t, before := Next(c, s, a), Pending(c, s, key);
    PendingMoves(c, s, a, key);
    assert t.store == s.store;
    assert Pending(c, t, key) <= before by {
      if Answering(c, t.execs[a.i], key) {
        assert a.i in before;
      }
    }
    assert before == Pending(c, t, key) + (before - Pending(c, t, key));
  }

  /** Order is kept along every trace whose reaps spare the session. */
  lemma {:induction false} OrderThroughout(c: Config, tr: seq<Sys>, acts: seq<Action>, key: string, k: nat)
    requires IsTrace(c, tr, acts) && Orderly(c, tr[0], key) && Spared(c, tr, acts, key) && k < |tr|
    ensures Orderly(c, tr[k], key)
  {
    if k > 0 {
      OrderThroughout(c, tr, acts, key, k - 1);
      StepKeepsOrder(c, tr[k - 1], acts[k - 1], key);
    }
  }

  lemma OrderAtStart(c: Config, now: nat, key: string)
    ensures Orderly(c, Init(now), key)
  {
    assert Pending(c, Init(now), key) == {};
  }

  // ----- what follows for every run

  /** The conversation handed to the processor ends with the caller's own
      message, unless a reap of its session, idle longer than the ttl, fell
      between opening it and appending to it; then it is empty. */
  lemma SnapshotEndsWithOwnMessage(c: Config, tr: seq<Sys>, acts: seq<Action>, k: nat, i: nat)
    requires IsRun(c, tr, acts) && k < |tr| && i in tr[k].execs && tr[k].execs[i].phase.Processing?
    ensures var (e, log) := (tr[k].execs[i], tr[k].log);
            && (e.phase.snapshot == [] || e.phase.snapshot[|e.phase.snapshot| - 1] == Plain("user", e.text))
            && (e.phase.snapshot == [] ==>
                  e.phase.at <= e.phase.seen <= |log| &&
                  exists n :: e.phase.at <= n < e.phase.seen && Reaps(log[n], e.key) && log[n].idle[e.key] > c.ttl)
  {
    InvThroughout(c, tr, acts, k);
    var e, log := tr[k].execs[i], tr[k].log;
    assert SnapshotIsOwn(c, log, e);
    if e.phase.snapshot == [] {
      var before := log[..e.phase.seen];
      assert before[..e.phase.at] == log[..e.phase.at];
      var n := DeathIsAReap(before, e.phase.at, e.key);
      assert Reaps(log[n], e.key);
    }
  }

  /** A transcript starts with the system prompt, and as long as no reap has
      caught a busy execution no prefix of it holds more answers than questions. */
  lemma TranscriptIsBalanced(c: Config, tr: seq<Sys>, acts: seq<Action>, k: nat, key: string)
    requires IsRun(c, tr, acts) && k < |tr| && key in tr[k].store
    ensures tr[k].store[key].messages != [] && tr[k].store[key].messages[0] == Plain("system", c.prompt)
    ensures Spared(c, tr[..k + 1], acts[..k], key) ==> Balanced(tr[k].store[key].messages)
  {
    InvThroughout(c, tr, acts, k);
    if Spared(c, tr[..k + 1], acts[..k], key) {
      OrderAtStart(c, tr[0].now, key);
      OrderThroughout(c, tr[..k + 1], acts[..k], key, k);
    }
  }

  /** An execution that is over has sent one of the allowed event sequences,
      or a prefix of one when its consumer stopped early. */
  lemma EventsFollowProtocol(c: Config, tr: seq<Sys>, acts: seq<Action>, k: nat, i: nat)
    requires IsRun(c, tr, acts) && k < |tr| && i in tr[k].execs
    ensures var e := tr[k].execs[i];
            var head := if e.isNew then [Submitted] else [];
            || e.events <= head + [Working, Failed]
            || exists text :: e.events <= head + [Working, Artifact(text), Completed]
  {
    InvThroughout(c, tr, acts, k);
    var e := tr[k].execs[i];
    var head := if e.isNew then [Submitted] else [];
    assert EventsFit(e);
    if exists text :: Delivered(e, head, text) {
      var text :| Delivered(e, head, text);
      assert e.events <= head + [Working, Artifact(text), Completed];
    }
  }

  /** The consumer of an execution's events has gone on at every step so far. */
  ghost predicate WentOn(acts: seq<Action>, k: nat, i: nat) {
    forall n :: 0 <= n < k && n < |acts| && acts[n].Advance? && acts[n].i == i ==> acts[n].more
  }

  /** The whole protocol. */
  ghost predicate SentAll(e: Exec) {
    var head := if e.isNew then [Submitted] else [];
    e.events == head + [Working, Failed] || exists text :: e.events == head + [Working, Artifact(text), Completed]
  }

  lemma MovedSendsAll(c: Config, s: Sys, e: Exec, outcome: Option<string>)
    requires !e.phase.Ended? && EventsFit(e)
    ensures Moved(c, s, e, true, outcome).phase.Ended? ==> SentAll(Moved(c, s, e, true, outcome))
  {
    var head := if e.isNew then [Submitted] else [];
    var m := Moved(c, s, e, true, outcome);
    if e.phase.Completing? {
      var text :| e.events == head + [Working, Artifact(text)];
      assert m.events == head + [Working, Artifact(text), Completed];
    }
    if e.phase.Failing? {
      assert m.events == head + [Working, Failed];
    }
  }

  /** An execution that has ended, its consumer never having stopped, has sent
      Failed, or its artifact and Completed, and nothing is missing before. */
  lemma {:induction false} EndedHasSentAll(c: Config, tr: seq<Sys>, acts: seq<Action>, k: nat, i: nat)
    requires IsRun(c, tr, acts) && k < |tr| && i in tr[k].execs && tr[k].execs[i].phase.Ended?
    requires WentOn(acts, k, i)
    ensures SentAll(tr[k].execs[i])
  {
    if k > 0 {
      var s, a := tr[k - 1], acts[k - 1];
      InvThroughout(c, tr, acts, k - 1);
      if a.Advance? && a.i == i {
        MovedSendsAll(c, s, s.execs[i], a.outcome);
      } else if i in s.execs {
        EndedHasSentAll(c, tr, acts, k - 1, i);
      }
    }
  }

  // ----- what an execution is given, delivers and saves

  /** At step `n` the processor returned to execution `i`. */
  ghost predicate GotAt(tr: seq<Sys>, acts: seq<Action>, n: nat, i: nat, outcome: Option<string>) {
    && n < |acts| && n < |tr| && acts[n].Advance? && acts[n].i == i && acts[n].outcome == outcome
    && i in tr[n].execs && tr[n].execs[i].phase.Processing?
  }

  /** The steps of execution `i` from `a` on and before `b` leave the store alone. */
  ghost predicate Quiet(tr: seq<Sys>, acts: seq<Action>, i: nat, a: nat, b: nat) {
    forall m :: a <= m < b && m < |acts| && m + 1 < |tr| && acts[m].Advance? && acts[m].i == i ==>
      tr[m + 1].store == tr[m].store
  }

  /** Step `m`, of execution `i`, adds this message to the session, if it is there. */
  ghost predicate AddsAt(tr: seq<Sys>, acts: seq<Action>, m: nat, i: nat, key: string, msg: Message) {
    && m < |acts| && m + 1 < |tr| && acts[m].Advance? && acts[m].i == i
    && var (before, after) := (tr[m].store, tr[m + 1].store);
       if key !in before then after == before
       else
         && after.Keys == before.Keys && (forall k :: k in before && k != key ==> after[k] == before[k])
         && after[key] == SessionView(before[key].messages + [msg], before[key].createdAt, tr[m].now)
  }

  predicate Past(p: Phase, result: string) { p == Delivering(result) || p.Completing? || p.Ended? }

  /** What a returned outcome leads to: nothing more to save without a result, and
      one answer with it, before the artifact. */
  ghost predicate Stored(c: Config, tr: seq<Sys>, acts: seq<Action>, n: nat, i: nat, outcome: Option<string>, k: nat)
    requires k < |tr| && i in tr[k].execs
  {
    var e := tr[k].execs[i];
    match outcome
    case None => (e.phase.Failing? || e.phase.Ended?) && Quiet(tr, acts, i, n, k)
    case Some(r) =>
      || (!Stateful(c, e.key) && Past(e.phase, r) && Quiet(tr, acts, i, n, k))
      || (Stateful(c, e.key) && e.phase == Saving(r) && Quiet(tr, acts, i, n, k))
      || (Stateful(c, e.key) && Past(e.phase, r)
          && SavedOnce(tr, acts, n, i, e.key, r, k))
  }

  /** One step of the execution has saved this answer, and no other has written. */
  ghost predicate SavedOnce(tr: seq<Sys>, acts: seq<Action>, n: nat, i: nat, key: string, r: string, k: nat) {
    exists m: nat :: n < m < k && AddsAt(tr, acts, m, i, key, Plain("assistant", r))
                     && Quiet(tr, acts, i, n, m) && Quiet(tr, acts, i, m + 1, k)
  }

  lemma SavedLonger(tr: seq<Sys>, acts: seq<Action>, n: nat, i: nat, key: string, r: string, k: nat)
    requires SavedOnce(tr, acts, n, i, key, r, k) && k < |acts| && k + 1 < |tr|
    requires acts[k].Advance? && acts[k].i == i ==> tr[k + 1].store == tr[k].store
    ensures SavedOnce(tr, acts, n, i, key, r, k + 1)
  {
    var m: nat :| n < m < k && AddsAt(tr, acts, m, i, key, Plain("assistant", r))
      && Quiet(tr, acts, i, n, m) && Quiet(tr, acts, i, m + 1, k);
    QuietLonger(tr, acts, i, m + 1, k);
  }

  /** The events hold this outcome's artifact or failure and no other. */
  ghost predicate Told(e: Exec, outcome: Option<string>) {
    && (forall t :: Artifact(t) in e.events ==> outcome == Some(t))
    && (Failed in e.events ==> outcome == None)
  }

  lemma QuietLonger(tr: seq<Sys>, acts: seq<Action>, i: nat, a: nat, k: nat)
    requires Quiet(tr, acts, i, a, k) && k < |acts| && k + 1 < |tr|
    requires acts[k].Advance? && acts[k].i == i ==> tr[k + 1].store == tr[k].store
    ensures Quiet(tr, acts, i, a, k + 1)
  {}

  lemma ReturnStores(c: Config, tr: seq<Sys>, acts: seq<Action>, n: nat, i: nat, outcome: Option<string>)
    requires IsRun(c, tr, acts) && GotAt(tr, acts, n, i, outcome)
    ensures i in tr[n + 1].execs && Stored(c, tr, acts, n, i, outcome, n + 1) && Told(tr[n + 1].execs[i], outcome)
  {
    InvThroughout(c, tr, acts, n);
    assert EventsFit(tr[n].execs[i]);
    assert Quiet(tr, acts, i, n, n);
    QuietLonger(tr, acts, i, n, n);
  }

  lemma MovedTells(c: Config, s: Sys, e: Exec, more: bool, outcome: Option<string>, got: Option<string>)
    requires !e.phase.Ended? && Told(e, got)
    requires match got case None => e.phase.Failing? case Some(r) => e.phase == Saving(r) || Past(e.phase, r)
    ensures Told(Moved(c, s, e, more, outcome), got)
  {}

  lemma SaveStores(c: Config, s: Sys, a: Action, r: string)
    requires Enabled(s, a) && a.Advance? && s.execs[a.i].phase == Saving(r)
    ensures var (t, key) := (Next(c, s, a), s.execs[a.i].key);
            AddsAt([s, t], [a], 0, a.i, key, Plain("assistant", r)) && Past(t.execs[a.i].phase, r)
            && t.execs[a.i].key == key
  {}

  lemma OwnStepStores(c: Config, tr: seq<Sys>, acts: seq<Action>, n: nat, i: nat, outcome: Option<string>, k: nat)
    requires IsTrace(c, tr, acts) && n < k < |acts| && acts[k].Advance? && acts[k].i == i
    requires i in tr[k].execs && Stored(c, tr, acts, n, i, outcome, k)
    ensures Stored(c, tr, acts, n, i, outcome, k + 1)
  {
    var e := tr[k].execs[i];
    if e.phase.Saving? {
      SaveStores(c, tr[k], acts[k], e.phase.result);
      var (before, after) := (tr[k].store, tr[k + 1].store);
      assert AddsAt([tr[k], tr[k + 1]], [acts[k]], 0, i, e.key, Plain("assistant", e.phase.result));
      assert AddsAt(tr, acts, k, i, e.key, Plain("assistant", e.phase.result));
      assert Quiet(tr, acts, i, k + 1, k + 1);
    } else {
      assert tr[k + 1].store == tr[k].store;
      StaysStored(c, tr, acts, n, i, outcome, k);
    }
  }

  lemma StaysStored(c: Config, tr: seq<Sys>, acts: seq<Action>, n: nat, i: nat, outcome: Option<string>, k: nat)
    requires IsTrace(c, tr, acts) && n < k < |acts| && i in tr[k].execs && Stored(c, tr, acts, n, i, outcome, k)
    requires acts[k].Advance? && acts[k].i == i ==> !tr[k].execs[i].phase.Saving? && tr[k + 1].store == tr[k].store
    ensures i in tr[k + 1].execs && Stored(c, tr, acts, n, i, outcome, k + 1)
  {
    var e := tr[k].execs[i];
    if Quiet(tr, acts, i, n, k) {
      QuietLonger(tr, acts, i, n, k);
    }
    if outcome.Some? && SavedOnce(tr, acts, n, i, e.key, outcome.value, k) {
      SavedLonger(tr, acts, n, i, e.key, outcome.value, k);
    }
    StaysInPhase(c, tr, acts, i, k);
  }

  /** Where an execution stands after a step that does not save. */
  lemma StaysInPhase(c: Config, tr: seq<Sys>, acts: seq<Action>, i: nat, k: nat)
    requires IsTrace(c, tr, acts) && k < |acts| && i in tr[k].execs
    requires acts[k].Advance? && acts[k].i == i ==> !tr[k].execs[i].phase.Saving?
    ensures i in tr[k + 1].execs && tr[k + 1].execs[i].key == tr[k].execs[i].key
    ensures var (p, q) := (tr[k].execs[i].phase, tr[k + 1].execs[i].phase);
            && (p.Failing? || p.Ended? ==> q.Failing? || q.Ended?)
            && (p.Saving? ==> q == p)
            && (forall r :: Past(p, r) ==> Past(q, r))
  {}

  lemma OneStepOn(c: Config, tr: seq<Sys>, acts: seq<Action>, n: nat, i: nat, outcome: Option<string>, k: nat)
    requires IsTrace(c, tr, acts) && n < k < |acts|
    requires i in tr[k].execs && Stored(c, tr, acts, n, i, outcome, k) && Told(tr[k].execs[i], outcome)
    ensures i in tr[k + 1].execs && Stored(c, tr, acts, n, i, outcome, k + 1) && Told(tr[k + 1].execs[i], outcome)
  {
    var s, a := tr[k], acts[k];
    if a.Advance? && a.i == i {
      MovedTells(c, s, s.execs[i], a.more, a.outcome, outcome);
      OwnStepStores(c, tr, acts, n, i, outcome, k);
    } else {
      StaysStored(c, tr, acts, n, i, outcome, k);
    }
  }

  /** What follows once the processor has returned: with a result, exactly one
      message, the assistant's with that result, goes to the session, if it is
      still there, and any artifact holds that result; without one, nothing is
      saved and there is no artifact. */
  lemma {:induction false} ResultIsSavedAndSent(c: Config, tr: seq<Sys>, acts: seq<Action>, n: nat, i: nat,
      outcome: Option<string>, k: nat)
    requires IsRun(c, tr, acts) && GotAt(tr, acts, n, i, outcome) && n < k < |tr|
    ensures i in tr[k].execs && Stored(c, tr, acts, n, i, outcome, k) && Told(tr[k].execs[i], outcome)
  {
    if k == n + 1 {
      ReturnStores(c, tr, acts, n, i, outcome);
    } else {
      ResultIsSavedAndSent(c, tr, acts, n, i, outcome, k - 1);
      OneStepOn(c, tr, acts, n, i, outcome, k - 1);
    }
  }

  /** So the processor returns to an execution at most once. */
  lemma OneOutcome(c: Config, tr: seq<Sys>, acts: seq<Action>, n: nat, m: nat, i: nat, a: Option<string>,
      b: Option<string>)
    requires IsRun(c, tr, acts) && GotAt(tr, acts, n, i, a) && GotAt(tr, acts, m, i, b)
    ensures n == m && a == b
  {
    if n < m {
      ResultIsSavedAndSent(c, tr, acts, n, i, a, m);
    } else if m < n {
      ResultIsSavedAndSent(c, tr, acts, m, i, b, n);
    }
  }

  ghost predicate Returned(tr: seq<Sys>, acts: seq<Action>, k: nat, i: nat, result: string) {
    exists n: nat :: n < k && GotAt(tr, acts, n, i, Some(result))
  }

  lemma ReturnedLater(tr: seq<Sys>, acts: seq<Action>, k: nat, i: nat, result: string)
    requires Returned(tr, acts, k, i, result)
    ensures Returned(tr, acts, k + 1, i, result)
  {
    var n: nat :| n < k && GotAt(tr, acts, n, i, Some(result));
  }

  ghost predicate FromProcessor(tr: seq<Sys>, acts: seq<Action>, k: nat, i: nat, e: Exec) {
    && (e.phase.Saving? || e.phase.Delivering? ==> Returned(tr, acts, k, i, e.phase.result))
    && forall t :: Artifact(t) in e.events ==> Returned(tr, acts, k, i, t)
  }

  /** Every artifact, and every answer about to be saved, is a result the processor
      has returned to this execution. */
  lemma {:induction false} ArtifactIsAResult(c: Config, tr: seq<Sys>, acts: seq<Action>, k: nat, i: nat)
    requires IsRun(c, tr, acts) && k < |tr| && i in tr[k].execs
    ensures FromProcessor(tr, acts, k, i, tr[k].execs[i])
  {
    if k > 0 {
      var s, a := tr[k - 1], acts[k - 1];
      if i in s.execs {
        ArtifactIsAResult(c, tr, acts, k - 1, i);
        ResultCarriesOn(c, tr, acts, k - 1, i);
      }
    }
  }

  lemma ResultCarriesOn(c: Config, tr: seq<Sys>, acts: seq<Action>, k: nat, i: nat)
    requires IsTrace(c, tr, acts) && k < |acts| && i in tr[k].execs && FromProcessor(tr, acts, k, i, tr[k].execs[i])
    ensures i in tr[k + 1].execs && FromProcessor(tr, acts, k + 1, i, tr[k + 1].execs[i])
  {
    var s, a, e := tr[k], acts[k], tr[k].execs[i];
    forall t | Returned(tr, acts, k, i, t) ensures Returned(tr, acts, k + 1, i, t) {
      ReturnedLater(tr, acts, k, i, t);
    }
    if a.Advance? && a.i == i && e.phase.Processing? && a.outcome.Some? {
      assert GotAt(tr, acts, k, i, Some(a.outcome.value));
      assert Returned(tr, acts, k + 1, i, a.outcome.value);
    }
  }

  /** A finished execution whose consumer went on has sent exactly what its
      processor's outcome calls for. */
  lemma EndedTellsOutcome(c: Config, tr: seq<Sys>, acts: seq<Action>, n: nat, i: nat, outcome: Option<string>, k: nat)
    requires IsRun(c, tr, acts) && GotAt(tr, acts, n, i, outcome) && n < k < |tr|
    requires WentOn(acts, k, i) && i in tr[k].execs && tr[k].execs[i].phase.Ended?
    ensures var e := tr[k].execs[i];
            e.events == (if e.isNew then [Submitted] else []) + [Working]
                        + (if outcome.Some? then [Artifact(outcome.value), Completed] else [Failed])
  {
    ResultIsSavedAndSent(c, tr, acts, n, i, outcome, k);
    EndedHasSentAll(c, tr, acts, k, i);
    var e := tr[k].execs[i];
    var head := if e.isNew then [Submitted] else [];
    if e.events == head + [Working, Failed] {
      assert e.events[|e.events| - 1] == Failed;
      assert head + [Working, Failed] == head + [Working] + [Failed];
    } else {
      var text :| e.events == head + [Working, Artifact(text), Completed];
      assert e.events[|e.events| - 2] == Artifact(text);
      assert head + [Working, Artifact(text), Completed] == head + [Working] + [Artifact(text), Completed];
    }
  }

  /** An event whose consumer does not go on is the last. */
  lemma StopEnds(c: Config, tr: seq<Sys>, acts: seq<Action>, m: nat, k: nat, i: nat)
    requires IsRun(c, tr, acts) && m < k < |tr| && acts[m].Advance? && acts[m].i == i && !acts[m].more
    requires tr[m + 1].execs[i].events != tr[m].execs[i].events
    ensures i in tr[k].execs && tr[k].execs[i] == tr[m + 1].execs[i] && tr[k].execs[i].phase.Ended?
  {
    if k > m + 1 {
      StopEnds(c, tr, acts, m, k - 1, i);
    }
  }

  /** An execution keeps the session key, the text and the newness it began with. */
  lemma {:induction false} ExecIsAsBegun(c: Config, tr: seq<Sys>, acts: seq<Action>, k: nat, i: nat) returns (n: nat)
    requires IsRun(c, tr, acts) && k < |tr| && i in tr[k].execs
    ensures var e := tr[k].execs[i]; n < k && acts[n] == Begin(i, e.key, e.isNew, e.text)
  {
    var s, a := tr[k - 1], acts[k - 1];
    n := k - 1;
    if i in s.execs {
      n := ExecIsAsBegun(c, tr, acts, k - 1, i);
    }
  }

  /** The step that took the snapshot an execution is processing. */
  ghost predicate TookAt(c: Config, tr: seq<Sys>, acts: seq<Action>, m: nat, i: nat, e: Exec)
    requires e.phase.Processing?
  {
    && m < |acts| && m + 1 < |tr| && acts[m].Advance? && acts[m].i == i
    && if Stateful(c, e.key) then
         && AddsAt(tr, acts, m, i, e.key, Plain("user", e.text))
         && e.phase.snapshot == if e.key in tr[m + 1].store then tr[m + 1].store[e.key].messages else []
       else
         && tr[m + 1].store == tr[m].store
         && e.phase.snapshot == [Plain("system", c.prompt), Plain("user", e.text)]
  }

  /** What the processor is given: the whole session with the user's message, which
      the execution has just added to it; the prompt and that message without
      sessions; nothing when the session is gone. */
  lemma {:induction false} SnapshotIsTaken(c: Config, tr: seq<Sys>, acts: seq<Action>, k: nat, i: nat) returns (m: nat)
    requires IsRun(c, tr, acts) && k < |tr| && i in tr[k].execs && tr[k].execs[i].phase.Processing?
    ensures m < k && TookAt(c, tr, acts, m, i, tr[k].execs[i])
  {
    var s, a := tr[k - 1], acts[k - 1];
    if a.Advance? && a.i == i {
      m := k - 1;
      SnapshotStep(c, tr, acts, m);
    } else {
      m := SnapshotIsTaken(c, tr, acts, k - 1, i);
    }
  }

  lemma SnapshotStep(c: Config, tr: seq<Sys>, acts: seq<Action>, m: nat)
    requires IsRun(c, tr, acts) && m < |acts| && acts[m].Advance? && acts[m].i in tr[m + 1].execs
    requires tr[m + 1].execs[acts[m].i].phase.Processing?
    ensures TookAt(c, tr, acts, m, acts[m].i, tr[m + 1].execs[acts[m].i])
  {
    InvThroughout(c, tr, acts, m);
    assert ExecFits(c, tr[m].log, tr[m].execs[acts[m].i]);
  }

  /** Every message that comes to a session is put there by one of its executions:
      the user's text it began with, or the result its processor returned. */
  lemma MessageHasAuthor(c: Config, tr: seq<Sys>, acts: seq<Action>, m: nat, key: string) returns (msg: Message)
    requires IsRun(c, tr, acts) && m < |acts| && key in tr[m].store && key in tr[m + 1].store
    requires tr[m + 1].store[key] != tr[m].store[key]
    ensures acts[m].Advance? && acts[m].i in tr[m].execs && tr[m].execs[acts[m].i].key == key
    ensures AddsAt(tr, acts, m, acts[m].i, key, msg)
    ensures msg == Plain("user", tr[m].execs[acts[m].i].text)
            || exists r :: Returned(tr, acts, m, acts[m].i, r) && msg == Plain("assistant", r)
  {
    var i := acts[m].i;
    var e := tr[m].execs[i];
    ArtifactIsAResult(c, tr, acts, m, i);
    msg := if e.phase.Saving? then Plain("assistant", e.phase.result) else Plain("user", e.text);
  }

  // ----- a reap that catches a busy execution can leave an answer without its question

  /** `t` is reached from `s` by steps whose reaps spare the session. */
  ghost predicate Leads(c: Config, s: Sys, t: Sys, key: string) {
    exists tr, acts :: IsTrace(c, tr, acts) && Spared(c, tr, acts, key) && tr[0] == s && tr[|acts|] == t
  }

  lemma LeadsToItself(c: Config, s: Sys, key: string)
    ensures Leads(c, s, s, key)
  {
    var tr, acts: seq<Action> := [s], [];
    assert IsTrace(c, tr, acts) && Spared(c, tr, acts, key) && tr[|acts|] == s;
  }

  lemma TraceGrows(c: Config, tr: seq<Sys>, acts: seq<Action>, a: Action, u: Sys)
    requires IsTrace(c, tr, acts) && Enabled(tr[|acts|], a) && u == Next(c, tr[|acts|], a)
    ensures IsTrace(c, tr + [u], acts + [a])
  {
    var tr', acts' := tr + [u], acts + [a];
    forall k | 0 <= k < |acts'| ensures Enabled(tr'[k], acts'[k]) && tr'[k + 1] == Next(c, tr'[k], acts'[k]) {
      assert k < |acts| ==> tr'[k] == tr[k] && tr'[k + 1] == tr[k + 1] && acts'[k] == acts[k];
    }
  }

  lemma SparedGrows(c: Config, tr: seq<Sys>, acts: seq<Action>, a: Action, u: Sys, key: string)
    requires Spared(c, tr, acts, key) && |tr| == |acts| + 1 && !a.ReapIdle?
    ensures Spared(c, tr + [u], acts + [a], key)
  {
    var tr', acts' := tr + [u], acts + [a];
    forall k | 0 <= k < |acts'| && acts'[k].ReapIdle? ensures !Catches(c, tr'[k], key) {
      assert acts'[k] == acts[k] && tr'[k] == tr[k];
    }
  }

  lemma LeadsOn(c: Config, s: Sys, t: Sys, a: Action, key: string)
    requires Leads(c, s, t, key) && Enabled(t, a) && !a.ReapIdle?
    ensures Leads(c, s, Next(c, t, a), key)
  {
    var tr, acts :| IsTrace(c, tr, acts) && Spared(c, tr, acts, key) && tr[0] == s && tr[|acts|] == t;
    TraceGrows(c, tr, acts, a, Next(c, t, a));
    SparedGrows(c, tr, acts, a, Next(c, t, a), key);
    assert (tr + [Next(c, t, a)])[|acts| + 1] == Next(c, t, a);
  }

  /** The session opened anew by one more execution. */
  lemma Reopen(c: Config, s: Sys, t: Sys, key: string, n: nat) returns (u: Sys)
    requires Leads(c, s, t, key) && n !in t.execs && c.hasProcessor && Stateful(c, key) && key !in t.store
    ensures Leads(c, s, u, key) && u.store == Sessions.Opened(t.store, key, c.prompt, t.now)
    ensures u.now == t.now && n in u.execs && Busy(c, u.execs[n], key)
    ensures forall i :: i in t.execs ==> i in u.execs && u.execs[i] == t.execs[i]
  {
    var step := Advance(n, true, None);
    LeadsOn(c, s, t, Begin(n, key, false, "p"), key);
    var s1 := Next(c, t, Begin(n, key, false, "p"));
    LeadsOn(c, s, s1, step, key);
    var s2 := Next(c, s1, step);
    assert s2.execs[n].phase == Deciding;
    LeadsOn(c, s, s2, step, key);
    var s3 := Next(c, s2, step);
    assert s3.execs[n].phase == Opening;
    LeadsOn(c, s, s3, step, key);
    u := Next(c, s3, step);
  }

  /** A busy execution goes on to save its answer while the session is missing. */
  lemma CarryOn(c: Config, s: Sys, t: Sys, key: string, i: nat) returns (u: Sys)
    requires Leads(c, s, t, key) && i in t.execs && Busy(c, t.execs[i], key) && key !in t.store
    ensures Leads(c, s, u, key) && key !in u.store
    ensures i in u.execs && u.execs[i].key == key && u.execs[i].phase.Saving?
  {
    u := t;
    if u.execs[i].phase.Opened? {
      LeadsOn(c, s, u, Advance(i, true, None), key);
      u := Next(c, u, Advance(i, true, None));
      assert u.execs[i].phase.Processing?;
    }
    if u.execs[i].phase.Processing? {
      LeadsOn(c, s, u, Advance(i, true, Some("r")), key);
      u := Next(c, u, Advance(i, true, Some("r")));
    }
  }

  lemma AnswerWithoutQuestion(prompt: string, answer: string)
    ensures !Balanced([Plain("system", prompt), Plain("assistant", answer)])
  {
    var ms := [Plain("system", prompt), Plain("assistant", answer)];
    FirstMessage(Plain("system", prompt));
    CountAppend([Plain("system", prompt)], Plain("assistant", answer));
    assert ms == [Plain("system", prompt)] + [Plain("assistant", answer)];
    assert ms[..2] == ms;
  }

  /** A busy execution whose session is missing can answer into an empty one:
      another execution reopens the session before it saves. */
  lemma LateAnswer(c: Config, s: Sys, key: string, i: nat) returns (t: Sys)
    requires Inv(c, s) && i in s.execs && Busy(c, s.execs[i], key) && key !in s.store
    ensures Leads(c, s, t, key) && key in t.store
    ensures exists r :: t.store[key].messages == [Plain("system", c.prompt), Plain("assistant", r)]
    ensures !Balanced(t.store[key].messages)
  {
    assert ExecFits(c, s.log, s.execs[i]);
    LeadsToItself(c, s, key);
    var u := CarryOn(c, s, s, key, i);
    var n := FreshId(u.execs.Keys);
    var v := Reopen(c, s, u, key, n);
    LeadsOn(c, s, v, Advance(i, true, None), key);
    t := Next(c, v, Advance(i, true, None));
    assert t.store[key].messages == [Plain("system", c.prompt), Plain("assistant", v.execs[i].phase.result)];
    AnswerWithoutQuestion(c.prompt, v.execs[i].phase.result);
  }

  /** Whenever a reap catches a busy execution, the run can go on, with no further
      reap, to a transcript that holds an answer and no question. */
  lemma CaughtBreaksBalance(c: Config, s: Sys, key: string) returns (t: Sys)
    requires Inv(c, s) && Catches(c, s, key)
    ensures Leads(c, Next(c, s, ReapIdle), t, key) && key in t.store
    ensures exists r :: t.store[key].messages == [Plain("system", c.prompt), Plain("assistant", r)]
    ensures !Balanced(t.store[key].messages)
  {
    var i :| i in s.execs && Busy(c, s.execs[i], key);
    StepKeepsInv(c, s, ReapIdle);
    t := LateAnswer(c, Next(c, s, ReapIdle), key, i);
  }

  lemma {:induction false} FreshId(ids: set<nat>) returns (n: nat)
    ensures n !in ids && forall i :: i in ids ==> i < n
    decreases |ids|
  {
    if ids == {} {
      n := 0;
    } else {
      var i :| i in ids;
      var m := FreshId(ids - {i});
      assert forall j :: j in ids ==> j == i || j in ids - {i};
      n := if m > i then m else i + 1;
    }
  }

  /** Whatever steps follow that spare the session, its transcript is balanced. */
  ghost predicate Safe(c: Config, s: Sys, key: string) {
    forall t :: Leads(c, s, t, key) && key in t.store ==> Balanced(t.store[key].messages)
  }

  /** One execution that has its result saves it. */
  lemma SaveOne(c: Config, s: Sys, t: Sys, key: string, i: nat) returns (u: Sys)
    requires Leads(c, s, t, key) && key in t.store && i in Pending(c, t, key) && t.execs[i].phase.Saving?
    ensures Leads(c, s, u, key) && key in u.store && Pending(c, u, key) == Pending(c, t, key) - {i}
    ensures exists r :: u.store[key].messages == t.store[key].messages + [Plain("assistant", r)]
  {
    var step, m := Advance(i, true, None), Plain("assistant", t.execs[i].phase.result);
    LeadsOn(c, s, t, step, key);
    PendingMoves(c, t, step, key);
    u := Next(c, t, step);
    assert u.store == Extended(t.store, key, m, t.now);
  }

  /** One execution that has asked gets its result. */
  lemma ProcessOne(c: Config, s: Sys, t: Sys, key: string, i: nat) returns (u: Sys)
    requires Leads(c, s, t, key) && i in Pending(c, t, key) && t.execs[i].phase.Processing?
    ensures Leads(c, s, u, key) && u.store == t.store && Pending(c, u, key) == Pending(c, t, key)
    ensures i in u.execs && u.execs[i].phase.Saving?
  {
    var step := Advance(i, true, Some("r"));
    LeadsOn(c, s, t, step, key);
    PendingMoves(c, t, step, key);
    u := Next(c, t, step);
  }

  lemma AnswerOne(c: Config, s: Sys, t: Sys, key: string, i: nat) returns (u: Sys)
    requires Leads(c, s, t, key) && key in t.store && i in Pending(c, t, key)
    ensures Leads(c, s, u, key) && key in u.store && Pending(c, u, key) == Pending(c, t, key) - {i}
    ensures exists r :: u.store[key].messages == t.store[key].messages + [Plain("assistant", r)]
  {
    var v := t;
    if t.execs[i].phase.Processing? {
      v := ProcessOne(c, s, t, key, i);
    }
    u := SaveOne(c, s, v, key, i);
  }

  /** With fewer questions than answers given and still to come, all that are to
      come can be given. */
  lemma {:induction false} AnswerAll(c: Config, s: Sys, t: Sys, key: string) returns (u: Sys)
    requires Leads(c, s, t, key) && key in t.store
    requires var ms := t.store[key].messages; Count(ms, "assistant") + |Pending(c, t, key)| > Count(ms, "user")
    ensures Leads(c, s, u, key) && key in u.store && !Balanced(u.store[key].messages)
    decreases |Pending(c, t, key)|
  {
    if Pending(c, t, key) == {} {
      u := t;
      assert u.store[key].messages[..|u.store[key].messages|] == u.store[key].messages;
    } else {
      var i :| i in Pending(c, t, key);
      var v := AnswerOne(c, s, t, key, i);
      var r :| v.store[key].messages == t.store[key].messages + [Plain("assistant", r)];
      CountAppend(t.store[key].messages, Plain("assistant", r));
      u := AnswerAll(c, s, v, key);
    }
  }

  lemma DisorderIsUnsafe(c: Config, s: Sys, key: string) returns (t: Sys)
    requires Inv(c, s) && !(TurnsFit(c, s, key) && OpenedIsThere(c, s, key))
    ensures Leads(c, s, t, key) && key in t.store && !Balanced(t.store[key].messages)
  {
    LeadsToItself(c, s, key);
    if key in s.store {
      if Balanced(s.store[key].messages) {
        t := AnswerAll(c, s, s, key);
      } else {
        t := s;
      }
    } else {
      var i := BusyWithout(c, s, key);
      t := LateAnswer(c, s, key, i);
    }
  }

  lemma BusyWithout(c: Config, s: Sys, key: string) returns (i: nat)
    requires Inv(c, s) && !(TurnsFit(c, s, key) && OpenedIsThere(c, s, key)) && key !in s.store
    ensures i in s.execs && Busy(c, s.execs[i], key)
  {
    if Pending(c, s, key) != {} {
      i :| i in Pending(c, s, key);
    } else {
      i :| i in s.execs && s.execs[i].key == key && s.execs[i].phase.Opened?;
      assert ExecFits(c, s.log, s.execs[i]);
    }
  }

  lemma OrderIsSafe(c: Config, s: Sys, key: string)
    requires Orderly(c, s, key)
    ensures Safe(c, s, key)
  {
    forall t | Leads(c, s, t, key) ensures Orderly(c, t, key) {
      var tr, acts :| IsTrace(c, tr, acts) && Spared(c, tr, acts, key) && tr[0] == s && tr[|acts|] == t;
      OrderThroughout(c, tr, acts, key, |acts|);
    }
  }

  /** Exactly when balance is safe, in any state of any run and whatever was
      caught before: the questions outnumber the answers by the executions still
      to answer, and who has opened the session finds it there. */
  lemma SafeExactly(c: Config, s: Sys, key: string)
    requires Inv(c, s)
    ensures Safe(c, s, key) <==> TurnsFit(c, s, key) && OpenedIsThere(c, s, key)
  {
    if TurnsFit(c, s, key) && OpenedIsThere(c, s, key) {
      OrderIsSafe(c, s, key);
    } else {
      var t := DisorderIsUnsafe(c, s, key);
    }
  }

  /** After a run that has spared the session so far, a reap is safe if and only
      if it catches no busy execution. */
  lemma ReapSparesBalance(c: Config, tr: seq<Sys>, acts: seq<Action>, key: string)
    requires IsRun(c, tr, acts) && Spared(c, tr, acts, key)
    ensures var s := tr[|acts|]; !Catches(c, s, key) <==> Safe(c, Next(c, s, ReapIdle), key)
  {
    var s := tr[|acts|];
    OrderAtStart(c, tr[0].now, key);
    OrderThroughout(c, tr, acts, key, |acts|);
    if Catches(c, s, key) {
      var t := CaughtBreaksBalance(c, s, key);
    } else {
      StepKeepsOrder(c, s, ReapIdle, key);
      OrderIsSafe(c, Next(c, s, ReapIdle), key);
    }
  }

  // ----- and such a reap happens

  /** A run that has spared the session so far and whose next reap would catch the
      execution that opened it: for every ttl, when the message takes longer. */
  lemma CatchIsReachable(c: Config, key: string, later: nat) returns (tr: seq<Sys>, acts: seq<Action>)
    requires c.hasProcessor && Stateful(c, key) && later > c.ttl
    ensures IsRun(c, tr, acts) && Spared(c, tr, acts, key) && Catches(c, tr[|acts|], key)
  {
    var s := Init(0);
    LeadsToItself(c, s, key);
    var u := Reopen(c, s, s, key, 0);
    LeadsOn(c, s, u, Tick(later), key);
    var t := Next(c, u, Tick(later));
    assert Catches(c, t, key);
    tr, acts :| IsTrace(c, tr, acts) && Spared(c, tr, acts, key) && tr[0] == s && tr[|acts|] == t;
  }

  lemma TracesJoin(c: Config, tr: seq<Sys>, acts: seq<Action>, a: Action, tr': seq<Sys>, acts': seq<Action>)
    requires IsTrace(c, tr, acts) && IsTrace(c, tr', acts')
    requires Enabled(tr[|acts|], a) && tr'[0] == Next(c, tr[|acts|], a)
    ensures IsTrace(c, tr + tr', acts + [a] + acts')
  {
    var all, steps, n := tr + tr', acts + [a] + acts', |tr|;
    forall k | 0 <= k < |steps| ensures Enabled(all[k], steps[k]) && all[k + 1] == Next(c, all[k], steps[k]) {
      if k < |acts| {
        assert all[k] == tr[k] && all[k + 1] == tr[k + 1] && steps[k] == acts[k];
      } else if k > |acts| {
        assert all[k] == tr'[k - n] && all[k + 1] == tr'[k - n + 1] && steps[k] == acts'[k - n];
      }
    }
  }

  /** So the promise fails: for every configuration with sessions and a processor
      and every key there is a run, from the empty store, that ends with an answer
      and no question. */
  lemma ReapBreaksBalance(c: Config, key: string) returns (tr: seq<Sys>, acts: seq<Action>)
    requires c.hasProcessor && Stateful(c, key)
    ensures IsRun(c, tr, acts) && key in tr[|acts|].store
    ensures exists r :: tr[|acts|].store[key].messages == [Plain("system", c.prompt), Plain("assistant", r)]
    ensures !Balanced(tr[|acts|].store[key].messages)
  {
    tr, acts := CatchIsReachable(c, key, Max(c.ttl, 0) + 1);
    var s := tr[|acts|];
    InvThroughout(c, tr, acts, |acts|);
    var t := CaughtBreaksBalance(c, s, key);
    var tr', acts' :| IsTrace(c, tr', acts') && Spared(c, tr', acts', key)
      && tr'[0] == Next(c, s, ReapIdle) && tr'[|acts'|] == t;
    TracesJoin(c, tr, acts, ReapIdle, tr', acts');
    tr, acts := tr + tr', acts + [ReapIdle] + acts';
  }
}
