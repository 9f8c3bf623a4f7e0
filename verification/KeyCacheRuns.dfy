/** Every interleaving of any number of cache callers. Each lock hold of
    `key` is one atomic step; the network call and the wait lie between steps. */
module KeyCacheRuns {
  import opened Common
  import opened KeyCache

  /** Why a caller got its answer: a lock hold read the state, its own fetch
      ended, or its wait was cancelled. */
  datatype Cause = ReadState | OwnFetch | Cancelled

  /** `seen` is the number of fetches that had completed when the answer was fixed. */
  datatype Caller =
    | Waiting(kid: Kid, done: nat, since: int)
    | Woken(kid: Kid)
    | Fetching(kid: Kid, done: nat, start: int)
    | Returned(kid: Kid, answer: Answer, cause: Cause, seen: nat)

  /** Signals are numbered as they are made. `completed` and `stamps` record
      the fetches that ended and the times written to `lastFetch`. */
  datatype Sys = Sys(
    now: int, cache: Cache<nat>, signals: nat, closed: set<nat>, callers: map<nat, Caller>,
    completed: seq<FetchOutcome>, stamps: seq<int>)

  datatype Action =
    | Tick(now: int)
    | Call(i: nat, kid: Kid)
    | Wake(i: nat)
    | Cancel(i: nat)
    | Reread(i: nat)
    | Finish(i: nat, outcome: FetchOutcome)

  function Init(now: int): Sys { Sys(now, Empty(), 0, {}, map[], [], []) }

  predicate Enabled(s: Sys, a: Action) {
    match a
    case Tick(now) => s.now <= now
    case Call(i, _) => i !in s.callers && (s.cache.refreshing ==> s.cache.refreshDone.Some?)
    case Wake(i) => i in s.callers && s.callers[i].Waiting? && s.callers[i].done in s.closed
    case Cancel(i) => i in s.callers && s.callers[i].Waiting?
    case Reread(i) => i in s.callers && s.callers[i].Woken?
    case Finish(i, _) => i in s.callers && s.callers[i].Fetching?
  }

  function Next(m: int, s: Sys, a: Action): Sys
    requires Enabled(s, a)
  {
    match a
    case Tick(now) => s.(now := now)
    case Call(i, kid) =>
      (match Decide(s.cache, kid, s.now, m)
       case Answered(answer) => s.(callers := s.callers[i := Returned(kid, answer, ReadState, |s.completed|)])
       case Wait(done) => s.(callers := s.callers[i := Waiting(kid, done, s.now)])
       case Refresh =>
         s.(cache := Begin(s.cache, s.now, s.signals), signals := s.signals + 1, stamps := s.stamps + [s.now],
            callers := s.callers[i := Fetching(kid, s.signals, s.now)]))
    case Wake(i) => s.(callers := s.callers[i := Woken(s.callers[i].kid)])
    case Cancel(i) =>
      s.(callers := s.callers[i := Returned(s.callers[i].kid, Unavailable, Cancelled, |s.completed|)])
    case Reread(i) =>
      var kid := s.callers[i].kid;
      s.(callers := s.callers[i := Returned(kid, Read(s.cache, kid), ReadState, |s.completed|)])
    case Finish(i, outcome) =>
      var f := s.callers[i];
      s.(cache := Complete(s.cache, outcome), closed := s.closed + {f.done}, completed := s.completed + [outcome],
         callers := s.callers[i := Returned(f.kid, OwnAnswer(outcome, f.kid), OwnFetch, |s.completed| + 1)])
  }

  /** A run: states and the actions between them, from the empty cache. */
  ghost predicate IsRun(m: int, tr: seq<Sys>, acts: seq<Action>) {
    && |tr| == |acts| + 1
    && tr[0] == Init(tr[0].now)
    && forall k :: 0 <= k < |acts| ==> Enabled(tr[k], acts[k]) && tr[k + 1] == Next(m, tr[k], acts[k])
  }

  // ----- what the completed fetches say

  /** The keys of the last fetch that succeeded. */
  function Published(completed: seq<FetchOutcome>): map<Kid, Key> {
    if completed == [] then map[]
    else
      var last := completed[|completed| - 1];
      if last.Fetched? then last.keys else Published(completed[..|completed| - 1])
  }

  predicate LastFailed(completed: seq<FetchOutcome>) {
    completed != [] && completed[|completed| - 1].FetchFailed?
  }

  /** Published keys come from a fetch that completed with success and was
      followed by failures only. */
  lemma {:induction false} PublishedFromAFetch(completed: seq<FetchOutcome>) returns (j: int)
    ensures -1 <= j < |completed|
    ensures forall k :: j < k < |completed| ==> completed[k].FetchFailed?
    ensures j >= 0 ==> completed[j].Fetched? && Published(completed) == completed[j].keys
    ensures j < 0 ==> Published(completed) == map[]
  {
    if completed == [] {
      j := -1;
    } else if completed[|completed| - 1].Fetched? {
      j := |completed| - 1;
    } else {
      j := PublishedFromAFetch(completed[..|completed| - 1]);
    }
  }

  // ----- the invariant

  ghost predicate InFlight(s: Sys, i: nat) { i in s.callers && s.callers[i].Fetching? }

  /** At most one refresh is in flight, and `refreshing` with an open
      `refreshDone` hold exactly while one is. */
  ghost predicate SingleFlight(s: Sys) {
    && (s.cache.refreshing <==> exists i :: InFlight(s, i))
    && (forall i, j :: InFlight(s, i) && InFlight(s, j) ==> i == j)
    && (forall i :: InFlight(s, i) ==>
          s.cache.refreshDone == Some(s.callers[i].done) && s.callers[i].start == s.cache.lastFetch)
    && (s.cache.refreshing <==> s.cache.refreshDone.Some?)
    && (s.cache.refreshing ==> s.cache.refreshDone.value < s.signals && s.cache.refreshDone.value !in s.closed)
    && (forall d :: d in s.closed ==> d < s.signals)
    && |s.stamps| == |s.completed| + (if s.cache.refreshing then 1 else 0)
  }

  /** No lost wake-up: a waiter holds a closed signal or the open one. */
  ghost predicate NoLostWaiter(s: Sys) {
    forall i :: i in s.callers && s.callers[i].Waiting? ==>
      s.callers[i].done in s.closed || s.cache.refreshDone == Some(s.callers[i].done)
  }

  ghost predicate ShowsOutcomes(cache: Cache<nat>, completed: seq<FetchOutcome>) {
    cache.keys == Published(completed) && cache.failed == LastFailed(completed)
  }

  ghost predicate ShowsStamps(cache: Cache<nat>, stamps: seq<int>, now: int) {
    && (cache.attempted <==> stamps != [])
    && (stamps != [] ==> cache.lastFetch == stamps[|stamps| - 1] <= now)
  }

  ghost predicate CacheFromHistory(s: Sys) {
    ShowsOutcomes(s.cache, s.completed) && ShowsStamps(s.cache, s.stamps, s.now)
  }

  ghost predicate Spaced(m: int, stamps: seq<int>) {
    forall k :: 0 <= k < |stamps| - 1 ==> stamps[k + 1] - stamps[k] >= m
  }

  /** The answer of a caller follows from the fetches completed when it was fixed. */
  ghost predicate Justified(completed: seq<FetchOutcome>, c: Caller)
    requires c.Returned? && c.seen <= |completed|
  {
    var past := completed[..c.seen];
    match c.cause
    case Cancelled => c.answer == Unavailable
    case OwnFetch =>
      c.seen > 0 &&
      (match completed[c.seen - 1]
       case FetchFailed => c.answer == Unavailable
       case Fetched(own) => c.answer == if c.kid in own then Found(own[c.kid]) else UnknownKid)
    case ReadState =>
      (match c.answer
       case Found(key) => c.kid in Published(past) && Published(past)[c.kid] == key
       case UnknownKid => c.kid !in Published(past) && !LastFailed(past)
       case Unavailable => c.kid !in Published(past) && LastFailed(past))
  }

  ghost predicate AllJustified(s: Sys) {
    forall i :: i in s.callers && s.callers[i].Returned? ==>
      s.callers[i].seen <= |s.completed| && Justified(s.completed, s.callers[i])
  }

  ghost predicate Inv(m: int, s: Sys) {
    SingleFlight(s) && NoLostWaiter(s) && CacheFromHistory(s) && Spaced(m, s.stamps) && AllJustified(s)
  }

  lemma StepKeepsFlight(m: int, s: Sys, a: Action)
    requires Inv(m, s) && Enabled(s, a)
    ensures SingleFlight(Next(m, s, a)) && NoLostWaiter(Next(m, s, a))
  {
    var t := Next(m, s, a);
    match a {
      case Call(i, kid) =>
        assert forall j :: j != i ==> (InFlight(t, j) <==> InFlight(s, j));
        if Decide(s.cache, kid, s.now, m).Refresh? {
          assert InFlight(t, i);
        }
      case Finish(i, _) =>
        assert InFlight(s, i) && !InFlight(t, i);
        assert forall j :: InFlight(t, j) ==> InFlight(s, j);
      case Tick(_) =>
        assert forall j :: InFlight(t, j) <==> InFlight(s, j);
      case _ =>
        assert forall j :: InFlight(t, j) <==> InFlight(s, j);
    }
  }

  lemma StepKeepsCache(m: int, s: Sys, a: Action)
    requires Inv(m, s) && Enabled(s, a)
    ensures CacheFromHistory(Next(m, s, a)) && Spaced(m, Next(m, s, a).stamps)
  {
    StepKeepsOutcomes(m, s, a);
    StepKeepsStamps(m, s, a);
    StepKeepsSpacing(m, s, a);
  }

  lemma FinishShows(cache: Cache<nat>, completed: seq<FetchOutcome>, outcome: FetchOutcome)
    requires ShowsOutcomes(cache, completed)
    ensures ShowsOutcomes(Complete(cache, outcome), completed + [outcome])
  {
    assert (completed + [outcome])[..|completed|] == completed;
  }

  lemma StepKeepsOutcomes(m: int, s: Sys, a: Action)
    requires ShowsOutcomes(s.cache, s.completed) && Enabled(s, a)
    ensures ShowsOutcomes(Next(m, s, a).cache, Next(m, s, a).completed)
  {
    if a.Finish? {
      FinishShows(s.cache, s.completed, a.outcome);
    }
  }

  lemma StepKeepsStamps(m: int, s: Sys, a: Action)
    requires ShowsStamps(s.cache, s.stamps, s.now) && Enabled(s, a)
    ensures ShowsStamps(Next(m, s, a).cache, Next(m, s, a).stamps, Next(m, s, a).now)
  {}

  lemma StepKeepsSpacing(m: int, s: Sys, a: Action)
    requires CacheFromHistory(s) && Spaced(m, s.stamps) && (s.cache.refreshing ==> s.cache.refreshDone.Some?)
    requires Enabled(s, a)
    ensures Spaced(m, Next(m, s, a).stamps)
  {
    if a.Call? && Decide(s.cache, a.kid, s.now, m).Refresh? {
      RefreshIsSpaced(m, s, a.kid);
    }
  }

  /** A refresh stamp comes at least the minimum interval after the last one. */
  lemma RefreshIsSpaced(m: int, s: Sys, kid: Kid)
    requires CacheFromHistory(s) && Spaced(m, s.stamps) && (s.cache.refreshing ==> s.cache.refreshDone.Some?)
    requires Decide(s.cache, kid, s.now, m).Refresh?
    ensures Spaced(m, s.stamps + [s.now])
  {
    var stamps := s.stamps + [s.now];
    forall k | 0 <= k < |stamps| - 1 ensures stamps[k + 1] - stamps[k] >= m {
      assert stamps[k] == s.stamps[k];
      assert k + 1 < |s.stamps| ==> stamps[k + 1] == s.stamps[k + 1];
    }
  }

  /** What justified an answer still does when more fetches complete. */
  lemma StaysJustified(completed: seq<FetchOutcome>, more: seq<FetchOutcome>, c: Caller)
    requires c.Returned? && c.seen <= |completed| && Justified(completed, c)
    ensures Justified(completed + more, c)
  {
    assert (completed + more)[..c.seen] == completed[..c.seen];
  }

  /** An answer fixed in this step is justified by the fetches completed by then. */
  lemma NewAnswerIsJustified(m: int, s: Sys, a: Action)
    requires Inv(m, s) && Enabled(s, a) && !a.Tick?
    ensures var t := Next(m, s, a);
            t.callers[a.i].Returned? ==>
              t.callers[a.i].seen <= |t.completed| && Justified(t.completed, t.callers[a.i])
  {
    assert s.completed[..|s.completed|] == s.completed;
  }

  lemma StepKeepsAnswers(m: int, s: Sys, a: Action)
    requires Inv(m, s) && Enabled(s, a)
    ensures AllJustified(Next(m, s, a))
  {
    var t := Next(m, s, a);
    if !a.Tick? {
      NewAnswerIsJustified(m, s, a);
    }
    var more := if a.Finish? then [a.outcome] else [];
    assert t.completed == s.completed + more;
    forall j | j in s.callers && s.callers[j].Returned?
      ensures s.callers[j].seen <= |t.completed| && Justified(t.completed, s.callers[j])
    {
      StaysJustified(s.completed, more, s.callers[j]);
    }
  }

  lemma StepKeepsHistory(m: int, s: Sys, a: Action)
    requires Inv(m, s) && Enabled(s, a)
    ensures CacheFromHistory(Next(m, s, a)) && Spaced(m, Next(m, s, a).stamps) && AllJustified(Next(m, s, a))
  {
    StepKeepsCache(m, s, a);
    StepKeepsAnswers(m, s, a);
  }

  /** The invariant holds in every state of every run. */
  lemma {:induction false} InvThroughout(m: int, tr: seq<Sys>, acts: seq<Action>, k: nat)
    requires IsRun(m, tr, acts) && k < |tr|
    ensures Inv(m, tr[k])
  {
    if k > 0 {
      InvThroughout(m, tr, acts, k - 1);
      StepKeepsFlight(m, tr[k - 1], acts[k - 1]);
      StepKeepsHistory(m, tr[k - 1], acts[k - 1]);
    }
  }

  // ----- what follows for every run

  /** A new call can always run its first lock hold, and a refresh never
      closes a signal twice. */
  lemma NeverStuckOnNilSignal(m: int, tr: seq<Sys>, acts: seq<Action>, k: nat, i: nat, kid: Kid, outcome: FetchOutcome)
    requires IsRun(m, tr, acts) && k < |tr|
    ensures i !in tr[k].callers ==> Enabled(tr[k], Call(i, kid))
    ensures Enabled(tr[k], Finish(i, outcome)) ==> tr[k].callers[i].done !in tr[k].closed
  {
    InvThroughout(m, tr, acts, k);
    if Enabled(tr[k], Finish(i, outcome)) {
      assert InFlight(tr[k], i);
    }
  }

  /** A waiter whose signal is still open is woken by the end of the one
      refresh in flight, whatever its outcome, and then gets the answer of the
      cache that refresh left behind. */
  lemma WaiterIsServed(m: int, tr: seq<Sys>, acts: seq<Action>, k: nat, i: nat, outcome: FetchOutcome) returns (f: nat)
    requires IsRun(m, tr, acts) && k < |tr|
    requires i in tr[k].callers && tr[k].callers[i].Waiting? && tr[k].callers[i].done !in tr[k].closed
    ensures InFlight(tr[k], f) && f != i
    ensures var ended := Next(m, tr[k], Finish(f, outcome));
            var kid := tr[k].callers[i].kid;
            && Enabled(ended, Wake(i))
            && Next(m, Next(m, ended, Wake(i)), Reread(i)).callers[i].answer ==
               Read(Complete(tr[k].cache, outcome), kid)
  {
    InvThroughout(m, tr, acts, k);
    f :| InFlight(tr[k], f);
  }

  /** The cached keys are those of the last fetch that completed with success;
      only such a fetch changes them. */
  lemma KeysAreLastSuccess(m: int, tr: seq<Sys>, acts: seq<Action>, k: nat) returns (j: int)
    requires IsRun(m, tr, acts) && k < |acts|
    ensures tr[k].cache.keys == Published(tr[k].completed)
    ensures tr[k + 1].cache.keys != tr[k].cache.keys ==> acts[k].Finish? && acts[k].outcome.Fetched?
    ensures -1 <= j < |tr[k].completed|
    ensures forall n :: j < n < |tr[k].completed| ==> tr[k].completed[n].FetchFailed?
    ensures j < 0 ==> tr[k].cache.keys == map[]
    ensures j >= 0 ==> tr[k].completed[j] == Fetched(tr[k].cache.keys)
  {
    InvThroughout(m, tr, acts, k);
    j := PublishedFromAFetch(tr[k].completed);
  }

  /** No refresh has been started within the last interval. */
  predicate Idle(m: int, s: Sys) { s.stamps == [] || s.stamps[|s.stamps| - 1] + m <= s.now }

  /** What a new caller meets, in every state of every run: an answer at once if
      and only if the last published keys hold its key ID or a refresh was started
      within the interval; otherwise it waits for the fetch in flight, if there is
      one, and starts a fetch of its own if there is none. */
  lemma NewCallMeets(m: int, tr: seq<Sys>, acts: seq<Action>, k: nat, i: nat, kid: Kid)
    requires IsRun(m, tr, acts) && k < |acts| && acts[k] == Call(i, kid)
    ensures i in tr[k + 1].callers
    ensures var (s, t, published) := (tr[k], tr[k + 1], Published(tr[k].completed));
            var c := t.callers[i];
            && c.kid == kid
            && (c.Returned? <==> kid in published || !Idle(m, s))
            && (c.Returned? ==>
                  c.answer == if kid in published then Found(published[kid])
                              else if s.completed != [] && s.completed[|s.completed| - 1].FetchFailed? then Unavailable
                              else UnknownKid)
            && (c.Waiting? <==> kid !in published && Idle(m, s) && exists j :: InFlight(s, j))
            && (c.Waiting? ==> forall j :: InFlight(s, j) ==> c.done == s.callers[j].done)
            && (c.Fetching? <==> kid !in published && Idle(m, s) && forall j :: !InFlight(s, j))
            && t.stamps == s.stamps + (if c.Fetching? then [s.now] else [])
            && t.completed == s.completed && t.now == s.now
            && (forall j :: j in s.callers ==> j in t.callers && t.callers[j] == s.callers[j])
  {
    InvThroughout(m, tr, acts, k);
  }

  predicate Delivers(outcome: FetchOutcome, kid: Kid, key: Key) {
    outcome.Fetched? && kid in outcome.keys && outcome.keys[kid] == key
  }

  /** Every answer is justified by the fetches completed before it. A key that
      was found came out of a fetch that succeeded. */
  lemma AnswersAreJustified(m: int, tr: seq<Sys>, acts: seq<Action>, k: nat, i: nat)
    requires IsRun(m, tr, acts) && k < |tr|
    requires i in tr[k].callers && tr[k].callers[i].Returned?
    ensures tr[k].callers[i].seen <= |tr[k].completed|
    ensures Justified(tr[k].completed, tr[k].callers[i])
    ensures var c := tr[k].callers[i];
            c.answer.Found? ==> exists j :: 0 <= j < c.seen && Delivers(tr[k].completed[j], c.kid, c.answer.key)
  {
    InvThroughout(m, tr, acts, k);
    var c, completed := tr[k].callers[i], tr[k].completed;
    if c.answer.Found? && c.cause.ReadState? {
      var j := PublishedFromAFetch(completed[..c.seen]);
      assert Delivers(completed[..c.seen][j], c.kid, c.answer.key);
    } else if c.answer.Found? {
      assert Delivers(completed[c.seen - 1], c.kid, c.answer.key);
    }
  }

  lemma {:induction false} SpacedApart(m: int, stamps: seq<int>, lo: nat, hi: nat)
    requires Spaced(m, stamps) && lo <= hi < |stamps|
    ensures stamps[hi] - stamps[lo] >= (hi - lo) * m
  {
    if lo < hi {
      SpacedApart(m, stamps, lo, hi - 1);
      assert stamps[hi - 1 + 1] - stamps[hi - 1] >= m;
    }
  }

  /** Refreshes are rate limited: any window of length `w` holds at most
      w / m + 1 refresh stamps. */
  lemma RefreshRate(m: int, tr: seq<Sys>, acts: seq<Action>, k: nat, lo: nat, hi: nat, t: int, w: nat)
    requires IsRun(m, tr, acts) && k < |tr| && m > 0
    requires lo <= hi < |tr[k].stamps| && t <= tr[k].stamps[lo] && tr[k].stamps[hi] <= t + w
    ensures hi - lo + 1 <= w / m + 1
  {
    InvThroughout(m, tr, acts, k);
    SpacedApart(m, tr[k].stamps, lo, hi);
    assert (hi - lo) * m <= w;
    DivBound(hi - lo, m, w);
  }

  lemma DivBound(n: nat, m: int, w: nat)
    requires m > 0 && n * m <= w
    ensures n <= w / m
  {
    assert w < (w / m + 1) * m;
    assert n * m < (w / m + 1) * m;
  }

  /** A caller reaches the waiting branch only when the fetch in flight has
      already run for the whole refresh interval. */
  lemma WaitMeansSlowFetch(m: int, tr: seq<Sys>, acts: seq<Action>, k: nat) returns (f: nat)
    requires IsRun(m, tr, acts) && k < |acts|
    requires acts[k].Call? && tr[k + 1].callers[acts[k].i].Waiting?
    ensures InFlight(tr[k], f) && tr[k].now - tr[k].callers[f].start >= m
  {
    InvThroughout(m, tr, acts, k);
    f :| InFlight(tr[k], f);
  }

  /** Fetches end within `timeout` of their start. */
  ghost predicate Prompt(timeout: int, s: Sys) {
    forall i :: InFlight(s, i) ==> s.now - s.callers[i].start <= timeout
  }

  /** When every fetch ends sooner than the refresh interval, nobody ever waits. */
  lemma {:induction false} NobodyWaits(m: int, timeout: int, tr: seq<Sys>, acts: seq<Action>, k: nat, i: nat)
    requires IsRun(m, tr, acts) && k < |tr| && timeout < m
    requires forall n :: 0 <= n < |tr| ==> Prompt(timeout, tr[n])
    requires i in tr[k].callers
    ensures tr[k].callers[i].Fetching? || tr[k].callers[i].Returned?
  {
    if k > 0 {
      assert Prompt(timeout, tr[k - 1]);
      if i in tr[k - 1].callers {
        NobodyWaits(m, timeout, tr, acts, k - 1, i);
      } else if tr[k].callers[i].Waiting? {
        var _ := WaitMeansSlowFetch(m, tr, acts, k - 1);
      }
    }
  }

  const SECOND: int := 1_000_000_000
  const FETCH_TIMEOUT: int := 10 * SECOND
  const DEFAULT_MIN_REFRESH_INTERVAL: int := 60 * SECOND

  /** The configured interval, with zero replaced by the default. */
  function RefreshInterval(configured: int): int {
    if configured == 0 then DEFAULT_MIN_REFRESH_INTERVAL else configured
  }

  lemma NobodyWaitsByDefault(tr: seq<Sys>, acts: seq<Action>, k: nat, i: nat)
    requires IsRun(RefreshInterval(0), tr, acts) && k < |tr| && i in tr[k].callers
    requires forall n :: 0 <= n < |tr| ==> Prompt(FETCH_TIMEOUT, tr[n])
    ensures !tr[k].callers[i].Waiting? && !tr[k].callers[i].Woken?
  {
    NobodyWaits(RefreshInterval(0), FETCH_TIMEOUT, tr, acts, k, i);
  }
}
