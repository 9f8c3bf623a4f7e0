/** The issuer-key cache: what each lock-held region of `key` does to the
    cached state, and the object that runs those regions. */
module KeyCache {
  import opened Common

  type Kid = string
  type Key = string  // key material is opaque to the cache

  /** What a caller of the cache is told. */
  datatype Answer = Found(key: Key) | UnknownKid | Unavailable

  datatype FetchOutcome = Fetched(keys: map<Kid, Key>) | FetchFailed

  /** The fields guarded by the mutex. `C` is the type of wake-up signals:
      heap objects for the class below, numbers for the step system. */
  datatype Cache<+C> = Cache(
    keys: map<Kid, Key>, attempted: bool, lastFetch: int, failed: bool,
    refreshing: bool, refreshDone: Option<C>)

  datatype Decision<+C> = Answered(answer: Answer) | Wait(done: C) | Refresh

  function Empty<C>(): Cache<C> { Cache(map[], false, 0, false, false, None) }

  function Absent<C>(c: Cache<C>): Answer { if c.failed then Unavailable else UnknownKid }

  function Read<C>(c: Cache<C>, kid: Kid): Answer {
    if kid in c.keys then Found(c.keys[kid]) else Absent(c)
  }

  predicate RateLimited<C>(c: Cache<C>, now: int, minInterval: int) {
    c.attempted && now - c.lastFetch < minInterval
  }

  /** The first lock hold. The source reads `refreshDone` whenever `refreshing`
      is set; a nil channel there would block for ever. */
  function Decide<C>(c: Cache<C>, kid: Kid, now: int, minInterval: int): Decision<C>
    requires c.refreshing ==> c.refreshDone.Some?
  {
    if kid in c.keys then Answered(Found(c.keys[kid]))
    else if RateLimited(c, now, minInterval) then Answered(Absent(c))
    else if c.refreshing then Wait(c.refreshDone.value)
    else Refresh
  }

  function Begin<C>(c: Cache<C>, now: int, done: C): Cache<C> {
    c.(refreshing := true, attempted := true, lastFetch := now, refreshDone := Some(done))
  }

  function Complete<C>(c: Cache<C>, outcome: FetchOutcome): Cache<C> {
    c.(keys := if outcome.Fetched? then outcome.keys else c.keys,
       failed := outcome.FetchFailed?, refreshing := false, refreshDone := None)
  }

  /** What the refreshing caller itself is told when its fetch ends. */
  function OwnAnswer(outcome: FetchOutcome, kid: Kid): Answer {
    match outcome
    case FetchFailed => Unavailable
    case Fetched(keys) => if kid in keys then Found(keys[kid]) else UnknownKid
  }

  /** A channel that is only ever closed. */
  class Signal {
    var closed: bool

    constructor ()
      ensures !closed
    {
      closed := false;
    }
  }

  class KeySource {
    const minInterval: int
    var keys: map<Kid, Key>
    var attempted: bool
    var lastFetch: int
    var lastErr: bool
    var refreshing: bool
    var refreshDone: Signal?

    ghost function State(): Cache<Signal>
      reads this
    {
      Cache(keys, attempted, lastFetch, lastErr, refreshing,
            if refreshDone == null then None else Some(refreshDone))
    }

    ghost predicate Valid()
      reads this
    {
      refreshing <==> refreshDone != null
    }

    constructor (minInterval: int)
      ensures Valid() && State() == Empty() && this.minInterval == minInterval
    {
      this.minInterval := minInterval;
      keys, attempted, lastFetch, lastErr, refreshing, refreshDone := map[], false, 0, false, false, null;
    }

    /** The first lock hold: answer, hand out the signal to wait on, or claim the refresh. */
    method Enter(kid: Kid, now: int) returns (d: Decision<Signal>, own: Signal?)
      requires Valid()
      modifies this
      ensures Valid()
      ensures d == Decide(old(State()), kid, now, minInterval)
      ensures d.Refresh? <==> own != null
      ensures var recent := old(attempted) && now < old(lastFetch) + minInterval;
              && (d.Answered? <==> kid in old(keys) || recent)
              && (d.Wait? <==> kid !in old(keys) && !recent && old(refreshing))
              && (d.Refresh? <==> kid !in old(keys) && !recent && !old(refreshing))
              && (d.Wait? ==> d.done == old(refreshDone))
              && (kid in old(keys) ==> d.answer == Found(old(keys)[kid]))
              && (kid !in old(keys) && recent ==> d.answer == if old(lastErr) then Unavailable else UnknownKid)
      ensures own == null ==> keys == old(keys) && refreshing == old(refreshing) && refreshDone == old(refreshDone)
      ensures own != null ==> keys == old(keys) && refreshing && refreshDone == own && attempted && lastFetch == now
      ensures own == null ==> State() == old(State())
      ensures own != null ==> fresh(own) && !own.closed && State() == Begin(old(State()), now, own)
    {
      own := null;
      if kid in keys {
        return Answered(Found(keys[kid])), null;
      }
      if attempted && now - lastFetch < minInterval {
        return Answered(if lastErr then Unavailable else UnknownKid), null;
      }
      if refreshing {
        return Wait(refreshDone), null;
      }
      refreshing := true;
      attempted := true;
      lastFetch := now;
      own := new Signal();
      refreshDone := own;
      d := Refresh;
    }

    /** The lock hold of a caller whose wait ended. */
    method Reread(kid: Kid) returns (a: Answer)
      ensures a == Read(State(), kid)
    {
      if kid in keys {
        a := Found(keys[kid]);
      } else if lastErr {
        a := Unavailable;
      } else {
        a := UnknownKid;
      }
    }

    /** The lock hold that ends a refresh. Closing a closed channel panics. */
    method Finish(done: Signal, kid: Kid, outcome: FetchOutcome) returns (a: Answer)
      requires Valid() && !done.closed
      modifies this, done
      ensures Valid() && done.closed
      ensures State() == Complete(old(State()), outcome)
      ensures a == OwnAnswer(outcome, kid)
    {
      if outcome.Fetched? {
        keys := outcome.keys;
      }
      lastErr := outcome.FetchFailed?;
      refreshing := false;
      refreshDone := null;
      done.closed := true;
      a := Unavailable;
      if outcome.Fetched? {
        a := if kid in keys then Found(keys[kid]) else UnknownKid;
      }
    }
  }

  /** One entry of a key-set document; a key may carry no key id. */
  datatype SetEntry = SetEntry(kid: Option<Kid>, key: Key)

  predicate Usable(e: SetEntry) { e.kid.Some? && e.kid.value != "" }

  predicate LastFor(entries: seq<SetEntry>, j: int, kid: Kid) {
    && 0 <= j < |entries| && entries[j].kid == Some(kid) && kid != ""
    && forall k :: j < k < |entries| ==> entries[k].kid != Some(kid)
  }

  /** The map built from a fetched document: entries without a key id are
      skipped and the last entry for a key id wins. */
  method CollectKeys(entries: seq<SetEntry>) returns (keys: map<Kid, Key>)
    ensures forall kid :: kid in keys <==> kid != "" && exists j :: 0 <= j < |entries| && entries[j].kid == Some(kid)
    ensures forall kid, j :: LastFor(entries, j, kid) ==> kid in keys && keys[kid] == entries[j].key
  {
    keys := map[];
    for i := 0 to |entries|
      invariant forall kid :: kid in keys <==>
                  exists j :: 0 <= j < i && Usable(entries[j]) && entries[j].kid.value == kid
      invariant forall kid, j :: LastFor(entries[..i], j, kid) ==> kid in keys && keys[kid] == entries[j].key
    {
      if entries[i].kid == None || entries[i].kid.value == "" {
        assert !Usable(entries[i]);
        forall kid, j | LastFor(entries[..i + 1], j, kid) ensures LastFor(entries[..i], j, kid) {}
        continue;
      }
      ghost var before := keys;
      keys := keys[entries[i].kid.value := entries[i].key];
      forall kid, j | LastFor(entries[..i + 1], j, kid) ensures kid in keys && keys[kid] == entries[j].key {
        if j != i {
          assert entries[..i + 1][i] == entries[i];
          assert LastFor(entries[..i], j, kid);
        }
      }
    }
    assert entries[..|entries|] == entries;
  }
}
