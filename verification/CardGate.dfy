/** The gate in front of every peer call: a memo of verified cards and a group
    that collapses concurrent first calls into one card fetch. */
module CardGate {

  /** The memo. Only successes are ever written. */
  class CardMemo {
    var cardVerified: map<string, bool>

    ghost function Verified(): set<string>
      reads this
    {
      set name | name in cardVerified && cardVerified[name]
    }

    constructor ()
      ensures Verified() == {}
    {
      cardVerified := map[];
    }

    method CardOK(name: string) returns (ok: bool)
      ensures ok <==> name in Verified()
    {
      ok := name in cardVerified && cardVerified[name];
    }

    method MarkCardOK(name: string)
      modifies this
      ensures Verified() == old(Verified()) + {name}
    {
      cardVerified := cardVerified[name := true];
    }
  }

  /** Where a call stands. A flight of the group is named by the call leading it. */
  datatype Stage =
    | Checking
    | Joining
    | Waiting(leader: nat)
    | Leading
    | Fetching
    | Marking
    | Closing(ok: bool)
    | Cleared
    | Invoked
    | Refused

  /** `entered` is the length of the log when the call arrived. */
  datatype Call = Call(peer: string, entered: nat, stage: Stage)

  datatype Event =
    | FetchStart(peer: string)
    | FetchOk(peer: string)
    | FetchFail(peer: string)
    | FlightFailed(peer: string)
    | Invoke(peer: string)

  datatype Sys = Sys(
    verified: set<string>, flights: map<string, nat>, results: map<nat, bool>, calls: map<nat, Call>,
    log: seq<Event>)

  /** `ok` is what a fetch and its verification come to. */
  datatype Action = Arrive(i: nat, peer: string) | Advance(i: nat, ok: bool)

  const INIT := Sys({}, map[], map[], map[], [])

  predicate Enabled(s: Sys, a: Action) {
    match a
    case Arrive(i, _) => i !in s.calls
    case Advance(i, _) =>
      i in s.calls && !s.calls[i].stage.Invoked? && !s.calls[i].stage.Refused?
      && (s.calls[i].stage.Waiting? ==> s.calls[i].stage.leader in s.results)
  }

  /** The stage after a call's next step. */
  function Moved(keyed: set<string>, s: Sys, c: Call, ok: bool): Stage
    requires c.stage.Waiting? ==> c.stage.leader in s.results
  {
    match c.stage
    case Checking => if c.peer in keyed && c.peer !in s.verified then Joining else Cleared
    case Joining => if c.peer in s.flights then Waiting(s.flights[c.peer]) else Leading
    case Waiting(leader) => if s.results[leader] then Cleared else Refused
    case Leading => if c.peer in s.verified then Closing(true) else Fetching
    case Fetching => if ok then Marking else Closing(false)
    case Marking => Closing(true)
    case Closing(won) => if won then Cleared else Refused
    case Cleared => Invoked
    case Invoked => Invoked
    case Refused => Refused
  }

  function Logged(s: Sys, c: Call, ok: bool): seq<Event> {
    match c.stage
    case Leading => if c.peer in s.verified then [] else [FetchStart(c.peer)]
    case Fetching => [if ok then FetchOk(c.peer) else FetchFail(c.peer)]
    case Closing(won) => if won then [] else [FlightFailed(c.peer)]
    case Cleared => [Invoke(c.peer)]
    case _ => []
  }

  function Next(keyed: set<string>, s: Sys, a: Action): Sys
    requires Enabled(s, a)
  {
    match a
    case Arrive(i, peer) => s.(calls := s.calls[i := Call(peer, |s.log|, Checking)])
    case Advance(i, ok) =>
      var c := s.calls[i];
      Sys(if c.stage.Marking? then s.verified + {c.peer} else s.verified,
          if c.stage.Joining? && c.peer !in s.flights then s.flights[c.peer := i]
          else if c.stage.Closing? then s.flights - {c.peer}
          else s.flights,
          if c.stage.Closing? then s.results[i := c.stage.ok] else s.results,
          s.calls[i := c.(stage := Moved(keyed, s, c, ok))],
          s.log + Logged(s, c, ok))
  }

  ghost predicate IsRun(keyed: set<string>, tr: seq<Sys>, acts: seq<Action>) {
    && |tr| == |acts| + 1
    && tr[0] == INIT
    && forall k :: 0 <= k < |acts| ==> Enabled(tr[k], acts[k]) && tr[k + 1] == Next(keyed, tr[k], acts[k])
  }

  // ----- the invariant

  predicate HoldsFlight(stage: Stage) {
    stage.Leading? || stage.Fetching? || stage.Marking? || stage.Closing?
  }

  ghost predicate At(s: Sys, peer: string, stage: Stage) {
    peer in s.flights && s.flights[peer] in s.calls && s.calls[s.flights[peer]].stage == stage
  }

  ghost predicate LeadersFly(s: Sys) {
    forall i :: i in s.calls && HoldsFlight(s.calls[i].stage) ==>
      s.calls[i].peer in s.flights && s.flights[s.calls[i].peer] == i
  }

  ghost predicate FlightsAreLed(s: Sys) {
    forall p :: p in s.flights ==>
      s.flights[p] in s.calls && s.calls[s.flights[p]].peer == p && HoldsFlight(s.calls[s.flights[p]].stage)
  }

  ghost predicate DecidedHaveLanded(s: Sys) {
    forall l :: l in s.results ==>
      l in s.calls && (s.calls[l].stage.Cleared? || s.calls[l].stage.Invoked? || s.calls[l].stage.Refused?)
  }

  /** A peer's open flight is led by exactly one call. */
  ghost predicate Flights(s: Sys) { LeadersFly(s) && FlightsAreLed(s) && DecidedHaveLanded(s) }

  /** No lost wake-up: the flight waited for is open or decided. */
  ghost predicate Awaits(s: Sys, c: Call)
    requires c.stage.Waiting?
  {
    var l := c.stage.leader;
    l in s.calls && s.calls[l].peer == c.peer && (l in s.results || (c.peer in s.flights && s.flights[c.peer] == l))
  }

  ghost predicate NoLostWaiter(s: Sys) {
    forall i :: i in s.calls && s.calls[i].stage.Waiting? ==> Awaits(s, s.calls[i])
  }

  /** An event strictly between two positions of the log. */
  ghost predicate Between(log: seq<Event>, i: int, j: int, e: Event) {
    exists k :: i < k < j && 0 <= k < |log| && log[k] == e
  }

  ghost predicate Happened(log: seq<Event>, e: Event) { Between(log, -1, |log|, e) }

  ghost predicate Vouched(keyed: set<string>, s: Sys, c: Call) { c.peer in keyed ==> c.peer in s.verified }

  /** A flight for this peer failed while the call was there. */
  ghost predicate FailedMeanwhile(s: Sys, c: Call) {
    Between(s.log, c.entered - 1, |s.log|, FlightFailed(c.peer))
  }

  /** Clearance rests on a remembered success, refusal on a flight that failed
      during the call. */
  ghost predicate CallEvidence(keyed: set<string>, s: Sys, c: Call) {
    && c.entered <= |s.log|
    && (c.stage == Closing(true) ==> c.peer in s.verified)
    && (c.stage.Cleared? || c.stage.Invoked? ==> Vouched(keyed, s, c))
    && (c.stage.Refused? ==> FailedMeanwhile(s, c))
    && (c.stage.Waiting? && c.stage.leader in s.results ==>
          if s.results[c.stage.leader] then c.peer in s.verified else FailedMeanwhile(s, c))
  }

  /** A success is in the log exactly when it is remembered or about to be. */
  ghost predicate Evidence(keyed: set<string>, s: Sys) {
    && (forall p :: Happened(s.log, FetchOk(p)) <==> p in s.verified || At(s, p, Marking))
    && (forall i :: i in s.calls ==> CallEvidence(keyed, s, s.calls[i]))
  }

  /** What the log of a run looks like. */
  ghost predicate Orderly(keyed: set<string>, log: seq<Event>) {
    && (forall i :: 0 <= i < |log| && log[i].Invoke? && log[i].peer in keyed ==>
          Between(log, -1, i, FetchOk(log[i].peer)))
    && (forall i :: 0 <= i < |log| && log[i].FetchStart? ==> !Between(log, -1, i, FetchOk(log[i].peer)))
    && (forall i, j :: 0 <= i < j < |log| && log[i].FetchStart? && log[j] == log[i] ==>
          Between(log, i, j, FetchFail(log[i].peer)))
  }

  /** Every started fetch has ended or is the one in flight. */
  ghost predicate Ended(s: Sys) {
    forall i :: 0 <= i < |s.log| && s.log[i].FetchStart? ==> EndedAt(s, i)
  }

  ghost predicate EndedAt(s: Sys, i: nat)
    requires i < |s.log|
  {
    var p := s.log[i].peer;
    Between(s.log, i, |s.log|, FetchFail(p)) || Happened(s.log, FetchOk(p)) || At(s, p, Fetching)
  }

  ghost predicate Inv(keyed: set<string>, s: Sys) {
    Flights(s) && NoLostWaiter(s) && Evidence(keyed, s) && Orderly(keyed, s.log) && Ended(s)
  }

  // ----- every step keeps it

  lemma StepKeepsFlights(keyed: set<string>, s: Sys, a: Action)
    requires Flights(s) && Enabled(s, a)
    ensures Flights(Next(keyed, s, a))
  {
    StepKeepsLeaders(keyed, s, a);
    StepKeepsLed(keyed, s, a);
  }

  lemma StepKeepsLeaders(keyed: set<string>, s: Sys, a: Action)
    requires LeadersFly(s) && FlightsAreLed(s) && Enabled(s, a)
    ensures LeadersFly(Next(keyed, s, a))
  {}

  lemma StepKeepsLed(keyed: set<string>, s: Sys, a: Action)
    requires LeadersFly(s) && FlightsAreLed(s) && Enabled(s, a)
    ensures FlightsAreLed(Next(keyed, s, a))
  {
    if a.Advance? {
      var c := s.calls[a.i];
      assert HoldsFlight(c.stage) ==> c.peer in s.flights && s.flights[c.peer] == a.i;
    }
  }

  lemma StepKeepsWaiters(keyed: set<string>, s: Sys, a: Action, j: nat)
    requires Flights(s) && NoLostWaiter(s) && Enabled(s, a)
    requires j in Next(keyed, s, a).calls && Next(keyed, s, a).calls[j].stage.Waiting?
    ensures Awaits(Next(keyed, s, a), Next(keyed, s, a).calls[j])
  {
    if a.Advance? && j != a.i {
      assert Awaits(s, s.calls[j]);
      assert s.calls[a.i].stage.Closing? ==> s.flights[s.calls[a.i].peer] == a.i;
    }
  }

  /** Appending to the log keeps what lies between two of its positions. */
  lemma Appended(log: seq<Event>, more: seq<Event>, i: int, j: int, e: Event)
    ensures j <= |log| ==> (Between(log + more, i, j, e) <==> Between(log, i, j, e))
    ensures Between(log, i, |log|, e) ==> Between(log + more, i, |log + more|, e)
    ensures i < |log| && e in more ==> Between(log + more, i, |log + more|, e)
    ensures Between(log + more, i, |log + more|, e) ==> Between(log, i, |log|, e) || e in more
  {
    var all := log + more;
    forall k | 0 <= k < |log| ensures all[k] == log[k] {}
    forall k | |log| <= k < |all| ensures all[k] == more[k - |log|] {}
    if i < |log| && e in more {
      var k :| 0 <= k < |more| && more[k] == e;
      assert all[|log| + k] == e;
    }
  }

  lemma StepKeepsSuccesses(keyed: set<string>, s: Sys, a: Action, p: string)
    requires Inv(keyed, s) && Enabled(s, a)
    ensures var t := Next(keyed, s, a); Happened(t.log, FetchOk(p)) <==> p in t.verified || At(t, p, Marking)
  {
    if a.Advance? {
      var c := s.calls[a.i];
      Appended(s.log, Logged(s, c, a.ok), -1, |s.log|, FetchOk(p));
      assert c.stage.Marking? ==> At(s, c.peer, Marking);
    }
  }

  lemma StepKeepsOwnCall(keyed: set<string>, s: Sys, a: Action)
    requires Inv(keyed, s) && Enabled(s, a)
    ensures CallEvidence(keyed, Next(keyed, s, a), Next(keyed, s, a).calls[a.i])
  {
    if a.Advance? {
      var c := s.calls[a.i];
      var t := Next(keyed, s, a);
      Appended(s.log, Logged(s, c, a.ok), c.entered - 1, |s.log|, FlightFailed(c.peer));
      assert CallEvidence(keyed, s, c);
      assert c.stage == Closing(false) ==> FailedMeanwhile(t, t.calls[a.i]);
    }
  }

  lemma StepKeepsOtherCall(keyed: set<string>, s: Sys, a: Action, j: nat)
    requires Inv(keyed, s) && Enabled(s, a) && j in s.calls && j != a.i
    ensures CallEvidence(keyed, Next(keyed, s, a), s.calls[j])
  {
    if a.Advance? {
      var c, d := s.calls[a.i], s.calls[j];
      Appended(s.log, Logged(s, c, a.ok), d.entered - 1, |s.log|, FlightFailed(d.peer));
      assert CallEvidence(keyed, s, c) && CallEvidence(keyed, s, d);
      assert d.stage.Waiting? ==> Awaits(s, d);
    }
  }

  lemma StepKeepsOrder(keyed: set<string>, s: Sys, a: Action)
    requires Inv(keyed, s) && Enabled(s, a)
    ensures Orderly(keyed, Next(keyed, s, a).log)
  {
    if a.Advance? {
      var c := s.calls[a.i];
      var more := Logged(s, c, a.ok);
      var t := Next(keyed, s, a);
      forall i | 0 <= i < |t.log| && t.log[i].Invoke? && t.log[i].peer in keyed
        ensures Between(t.log, -1, i, FetchOk(t.log[i].peer))
      {
        Appended(s.log, more, -1, i, FetchOk(t.log[i].peer));
        assert CallEvidence(keyed, s, c);
      }
      forall i | 0 <= i < |t.log| && t.log[i].FetchStart? ensures !Between(t.log, -1, i, FetchOk(t.log[i].peer)) {
        Appended(s.log, more, -1, i, FetchOk(t.log[i].peer));
      }
      forall i, j | 0 <= i < j < |t.log| && t.log[i].FetchStart? && t.log[j] == t.log[i]
        ensures Between(t.log, i, j, FetchFail(t.log[i].peer))
      {
        Appended(s.log, more, i, j, FetchFail(t.log[i].peer));
      }
    }
  }

  lemma StepKeepsEnded(keyed: set<string>, s: Sys, a: Action)
    requires Inv(keyed, s) && Enabled(s, a)
    ensures Ended(Next(keyed, s, a))
  {
    if a.Advance? {
      var c := s.calls[a.i];
      var more := Logged(s, c, a.ok);
      var t := Next(keyed, s, a);
      forall i | 0 <= i < |t.log| && t.log[i].FetchStart? ensures EndedAt(t, i) {
        var p := t.log[i].peer;
        Appended(s.log, more, i, |s.log|, FetchFail(p));
        Appended(s.log, more, -1, |s.log|, FetchOk(p));
        assert i < |s.log| ==> EndedAt(s, i);
      }
    } else {
      assert forall i :: 0 <= i < |s.log| && s.log[i].FetchStart? ==> EndedAt(s, i);
    }
  }

  lemma {:induction false} InvThroughout(keyed: set<string>, tr: seq<Sys>, acts: seq<Action>, k: nat)
    requires IsRun(keyed, tr, acts) && k < |tr|
    ensures Inv(keyed, tr[k])
  {
    if k > 0 {
      InvThroughout(keyed, tr, acts, k - 1);
      StepKeepsFlights(keyed, tr[k - 1], acts[k - 1]);
      forall j | j in tr[k].calls && tr[k].calls[j].stage.Waiting? {
        StepKeepsWaiters(keyed, tr[k - 1], acts[k - 1], j);
      }
      forall p { StepKeepsSuccesses(keyed, tr[k - 1], acts[k - 1], p); }
      StepKeepsOwnCall(keyed, tr[k - 1], acts[k - 1]);
      forall j | j in tr[k].calls && j != acts[k - 1].i ensures CallEvidence(keyed, tr[k], tr[k].calls[j]) {
        StepKeepsOtherCall(keyed, tr[k - 1], acts[k - 1], j);
      }
      StepKeepsOrder(keyed, tr[k - 1], acts[k - 1]);
      StepKeepsEnded(keyed, tr[k - 1], acts[k - 1]);
    }
  }

  // ----- the gate

  /** In every run a keyed peer is invoked only after one of its cards verified,
      no fetch starts after that, and between two fetches of a peer the first failed. */
  lemma GatePrecedesInvoke(keyed: set<string>, tr: seq<Sys>, acts: seq<Action>, k: nat)
    requires IsRun(keyed, tr, acts) && k < |tr|
    ensures Orderly(keyed, tr[k].log)
  {
    InvThroughout(keyed, tr, acts, k);
  }

  /** At most one card fetch per peer is in flight. */
  lemma OneFetchPerPeer(keyed: set<string>, tr: seq<Sys>, acts: seq<Action>, k: nat, i: nat, j: nat)
    requires IsRun(keyed, tr, acts) && k < |tr|
    requires i in tr[k].calls && tr[k].calls[i].stage.Fetching?
    requires j in tr[k].calls && tr[k].calls[j].stage.Fetching? && tr[k].calls[j].peer == tr[k].calls[i].peer
    ensures i == j
  {
    InvThroughout(keyed, tr, acts, k);
  }

  /** Failures are never remembered: the memo holds verified peers only, and a
      refused call saw its peer's flight fail after it had arrived. */
  lemma OnlySuccessIsRemembered(keyed: set<string>, tr: seq<Sys>, acts: seq<Action>, k: nat)
    requires IsRun(keyed, tr, acts) && k < |tr|
    ensures forall p :: p in tr[k].verified ==> Happened(tr[k].log, FetchOk(p))
    ensures forall i :: i in tr[k].calls && tr[k].calls[i].stage.Refused? ==> FailedMeanwhile(tr[k], tr[k].calls[i])
  {
    InvThroughout(keyed, tr, acts, k);
    assert forall i :: i in tr[k].calls ==> CallEvidence(keyed, tr[k], tr[k].calls[i]);
  }

  /** A waiting call can go on, or the call leading its flight can. */
  lemma WaiterIsServed(keyed: set<string>, tr: seq<Sys>, acts: seq<Action>, k: nat, i: nat, ok: bool)
    requires IsRun(keyed, tr, acts) && k < |tr|
    requires i in tr[k].calls && tr[k].calls[i].stage.Waiting?
    ensures Enabled(tr[k], Advance(i, ok))
            || (Enabled(tr[k], Advance(tr[k].calls[i].stage.leader, ok))
                && HoldsFlight(tr[k].calls[tr[k].calls[i].stage.leader].stage))
  {
    InvThroughout(keyed, tr, acts, k);
    assert Awaits(tr[k], tr[k].calls[i]);
  }

  // ----- who is let through

  /** A fetch under way, or one that failed, is not of a peer whose card has verified. */
  ghost predicate Unverified(s: Sys) {
    forall i :: i in s.calls && (s.calls[i].stage.Fetching? || s.calls[i].stage == Closing(false)) ==>
      !Happened(s.log, FetchOk(s.calls[i].peer))
  }

  /** No flight fails once a card of its peer has verified. */
  ghost predicate NoLateFailure(log: seq<Event>) {
    forall j :: 0 <= j < |log| && log[j].FlightFailed? ==> !Between(log, -1, j, FetchOk(log[j].peer))
  }

  /** A waiter's flight was decided as its leader fared; only keyed peers are fetched. */
  ghost predicate Verdicts(keyed: set<string>, s: Sys) {
    && (forall l :: l in s.results && l in s.calls ==> (s.results[l] <==> !s.calls[l].stage.Refused?))
    && (forall j :: 0 <= j < |s.log| && s.log[j].FetchStart? ==> s.log[j].peer in keyed)
    && (forall i :: i in s.calls && !s.calls[i].stage.Checking? && s.calls[i].peer !in keyed ==>
          s.calls[i].stage.Cleared? || s.calls[i].stage.Invoked?)
  }

  lemma StepKeepsUnverified(keyed: set<string>, s: Sys, a: Action, j: nat)
    requires Inv(keyed, s) && Unverified(s) && Enabled(s, a)
    requires var t := Next(keyed, s, a);
             j in t.calls && (t.calls[j].stage.Fetching? || t.calls[j].stage == Closing(false))
    ensures !Happened(Next(keyed, s, a).log, FetchOk(Next(keyed, s, a).calls[j].peer))
  {
    if a.Advance? {
      var c, d := s.calls[a.i], Next(keyed, s, a).calls[j];
      Appended(s.log, Logged(s, c, a.ok), -1, |s.log|, FetchOk(d.peer));
      assert HoldsFlight(s.calls[j].stage) ==> s.flights[s.calls[j].peer] == j;
      assert HoldsFlight(c.stage) ==> s.flights[c.peer] == a.i;
    }
  }

  lemma StepKeepsNoLateFailure(keyed: set<string>, s: Sys, a: Action)
    requires Unverified(s) && NoLateFailure(s.log) && Enabled(s, a)
    ensures NoLateFailure(Next(keyed, s, a).log)
  {
    if a.Advance? {
      var more := Logged(s, s.calls[a.i], a.ok);
      var log := s.log + more;
      forall j | 0 <= j < |log| && log[j].FlightFailed? ensures !Between(log, -1, j, FetchOk(log[j].peer)) {
        Appended(s.log, more, -1, j, FetchOk(log[j].peer));
      }
    }
  }

  lemma StepKeepsVerdicts(keyed: set<string>, s: Sys, a: Action)
    requires Flights(s) && Verdicts(keyed, s) && Enabled(s, a)
    ensures Verdicts(keyed, Next(keyed, s, a))
  {}

  lemma {:induction false} VerdictsThroughout(keyed: set<string>, tr: seq<Sys>, acts: seq<Action>, k: nat)
    requires IsRun(keyed, tr, acts) && k < |tr|
    ensures Unverified(tr[k]) && NoLateFailure(tr[k].log) && Verdicts(keyed, tr[k])
  {
    if k > 0 {
      var s, a := tr[k - 1], acts[k - 1];
      VerdictsThroughout(keyed, tr, acts, k - 1);
      InvThroughout(keyed, tr, acts, k - 1);
      forall j | j in tr[k].calls && (tr[k].calls[j].stage.Fetching? || tr[k].calls[j].stage == Closing(false))
        ensures !Happened(tr[k].log, FetchOk(tr[k].calls[j].peer))
      {
        StepKeepsUnverified(keyed, s, a, j);
      }
      StepKeepsNoLateFailure(keyed, s, a);
      StepKeepsVerdicts(keyed, s, a);
    }
  }

  /** A call that arrives once a card of its peer has verified is never refused. */
  lemma VerifiedIsServed(keyed: set<string>, tr: seq<Sys>, acts: seq<Action>, k: nat, i: nat)
    requires IsRun(keyed, tr, acts) && k < |tr| && i in tr[k].calls
    requires Between(tr[k].log, -1, tr[k].calls[i].entered, FetchOk(tr[k].calls[i].peer))
    ensures !tr[k].calls[i].stage.Refused?
  {
    InvThroughout(keyed, tr, acts, k);
    VerdictsThroughout(keyed, tr, acts, k);
    var c, log := tr[k].calls[i], tr[k].log;
    assert CallEvidence(keyed, tr[k], c);
  }

  /** A call keeps its peer and the place in the log at which it arrived. */
  lemma {:induction false} CallHasArrived(keyed: set<string>, tr: seq<Sys>, acts: seq<Action>, k: nat, i: nat)
      returns (n: nat)
    requires IsRun(keyed, tr, acts) && k < |tr| && i in tr[k].calls
    ensures n < k && acts[n] == Arrive(i, tr[k].calls[i].peer) && tr[k].calls[i].entered == |tr[n].log|
  {
    n := k - 1;
    if i in tr[k - 1].calls {
      n := CallHasArrived(keyed, tr, acts, k - 1, i);
    }
  }

  /** A peer without a key is called without any check, and a waiter fares as the
      call that led its flight. */
  lemma WaiterFaresAsLeader(keyed: set<string>, tr: seq<Sys>, acts: seq<Action>, k: nat)
    requires IsRun(keyed, tr, acts) && k < |acts| && acts[k].Advance?
    ensures var c := tr[k].calls[acts[k].i];
            var after := tr[k + 1].calls[acts[k].i];
            && after.peer == c.peer && after.entered == c.entered
            && (c.stage.Checking? ==>
                  if c.peer in keyed && c.peer !in tr[k].verified then after.stage.Joining? else after.stage.Cleared?)
            && (c.stage.Waiting? ==>
                  c.stage.leader in tr[k].calls &&
                  if tr[k].calls[c.stage.leader].stage.Refused? then after.stage.Refused? else after.stage.Cleared?)
            && (c.stage.Cleared? ==> after.stage.Invoked? && tr[k + 1].log == tr[k].log + [Invoke(c.peer)])
    ensures forall j :: 0 <= j < |tr[k].log| && tr[k].log[j].FetchStart? ==> tr[k].log[j].peer in keyed
  {
    InvThroughout(keyed, tr, acts, k);
    VerdictsThroughout(keyed, tr, acts, k);
    var c := tr[k].calls[acts[k].i];
    assert c.stage.Waiting? ==> Awaits(tr[k], c);
  }
}
