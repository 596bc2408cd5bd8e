/**
 * The density suite against the adversarial cluster (internal/suites/density/density.go, and
 * `CreateVMIs` of pkg/resource/vmi.go): the loops as the code runs them. Each method is proved to
 * hear exactly the answers that module Transcript lists for what it observed, and to return what
 * modules Ramp and Cleanup compute from it.
 */
module DensitySuite {
  import opened Wrappers
  import opened VmiStartup
  import opened VmiNames
  import opened ClusterHealth
  import opened Cleanup
  import opened ClusterModel
  import opened Ramp
  import opened Results
  import opened Transcript

  // ---- CreateVMIs ----

  ghost function Pairs(specs: seq<VmiSpec>): set<(string, string)> {
    set s | s in specs :: (s.name, s.runID)
  }

  ghost function SpecNames(specs: seq<VmiSpec>): set<string> {
    set s | s in specs :: s.name
  }

  ghost predicate AllParse(specs: seq<VmiSpec>) {
    forall s :: s in specs ==> s.quantitiesParse
  }

  /**
   * What exists afterwards is a prefix of what was asked for, also when a request fails (then
   * the last of the prefix may be the request that failed), and the requests are spaced.
   */
  method CreateVMIs(c: Cluster, specs: seq<VmiSpec>, interval: nat)
    returns (err: Option<CreateError>, ghost attempts: seq<Attempt>, ghost n: nat)
    requires c.Valid()
    modifies c
    ensures c.Valid()
    ensures n <= |specs| && (err.None? ==> n == |specs|) && AllParse(specs[..n])
    ensures c.created == old(c.created) + Pairs(specs[..n])
    ensures OwnNames(c.vmis, c.run) <= old(OwnNames(c.vmis, c.run)) + SpecNames(specs[..n])
    ensures Creates(specs, interval, attempts, err)
    ensures c.transcript == old(c.transcript) + CreationTold(specs, interval, attempts)
    ensures Spaced(CreationTold(specs, interval, attempts), interval)
  {
    hide CreationTold, AttemptTold, Creates, Going, Spaced;
    err, attempts, n := None, [], 0;
    NoneGoing(specs, interval, c.now);
    for i := 0 to |specs|
      invariant n == i == |attempts| && err.None?
      invariant c.Valid() && c.created == old(c.created) + Pairs(specs[..i]) && AllParse(specs[..i])
      invariant OwnNames(c.vmis, c.run) <= old(OwnNames(c.vmis, c.run)) + SpecNames(specs[..i])
      invariant c.transcript == old(c.transcript) + CreationTold(specs, interval, attempts)
      invariant Going(specs, interval, attempts, c.now)
    {
      ghost var before := c.now;
      ghost var effect, a;
      err, effect, a := CreateNext(c, specs[i], i, interval);
      PrefixStep(specs, i, old(c.created));
      OneMoreAttempt(specs, interval, attempts, a, before, c.now);
      Join(old(c.transcript), CreationTold(specs, interval, attempts), AttemptTold(specs[i], i, interval, a));
      attempts := attempts + [a];
      n := if effect then i + 1 else i;
      if err.Some? {
        return;
      }
    }
    AllCreated(specs, interval, attempts, c.now);
    assert specs[..|specs|] == specs;
  }

  /** The loop as it goes on: no attempt has failed, and the requests sent by now are spaced. */
  ghost predicate Going(specs: seq<VmiSpec>, interval: nat, attempts: seq<Attempt>, now: nat) {
    && |attempts| <= |specs|
    && (forall i :: 0 <= i < |attempts| ==> AttemptError(specs[i], Throttled(i, interval), attempts[i]).None?)
    && Spaced(CreationTold(specs, interval, attempts), interval)
    && SentBy(CreationTold(specs, interval, attempts), now)
  }

  /** If the attempt gets as far as a request, it is sent between these times and after the interval. */
  ghost predicate TimelyAttempt(spec: VmiSpec, i: nat, interval: nat, a: Attempt, before: nat, now: nat) {
    && before <= now
    && (Sends(spec, i, interval, a) ==> before + (if i > 0 then interval else 0) <= a.at <= now)
  }

  lemma NoneGoing(specs: seq<VmiSpec>, interval: nat, now: nat)
    ensures Going(specs, interval, [], now) && CreationTold(specs, interval, []) == []
  {
  }

  lemma AllCreated(specs: seq<VmiSpec>, interval: nat, attempts: seq<Attempt>, now: nat)
    requires Going(specs, interval, attempts, now) && |attempts| == |specs|
    ensures Creates(specs, interval, attempts, None) && Spaced(CreationTold(specs, interval, attempts), interval)
  {
  }

  lemma AttemptAnswers(spec: VmiSpec, i: nat, interval: nat, a: Attempt)
    ensures AttemptTold(spec, i, interval, a) ==
            var waited := if Throttled(i, interval) then [IntervalWaited(interval, a.cut)] else [];
            if Sends(spec, i, interval, a) then waited + [CreateSent(spec.name, spec.runID, a.at, a.rejected, a.effect)]
            else waited
  {
  }

  lemma OneMoreAttempt(specs: seq<VmiSpec>, interval: nat, attempts: seq<Attempt>, a: Attempt, before: nat, now: nat)
    requires Going(specs, interval, attempts, before) && |attempts| < |specs|
    requires TimelyAttempt(specs[|attempts|], |attempts|, interval, a, before, now)
    ensures var i := |attempts|;
            var err := AttemptError(specs[i], Throttled(i, interval), a);
            var told := CreationTold(specs, interval, attempts + [a]);
            && told == CreationTold(specs, interval, attempts) + AttemptTold(specs[i], i, interval, a)
            && Spaced(told, interval)
            && (if err.None? then Going(specs, interval, attempts + [a], now)
                else Creates(specs, interval, attempts + [a], err))
  {
    assert (attempts + [a])[..|attempts|] == attempts;
  }

  /** One turn of that loop: the wait, the check of the quantities and the request, if it comes to that. */
  method CreateNext(c: Cluster, spec: VmiSpec, i: nat, interval: nat)
    returns (err: Option<CreateError>, ghost effect: bool, ghost a: Attempt)
    requires c.Valid()
    modifies c
    ensures c.Valid() && (err.None? ==> effect) && (effect ==> spec.quantitiesParse)
    ensures c.created == if effect then old(c.created) + {(spec.name, spec.runID)} else old(c.created)
    ensures OwnNames(c.vmis, c.run) <= old(OwnNames(c.vmis, c.run)) + if effect then {spec.name} else {}
    ensures err == AttemptError(spec, Throttled(i, interval), a)
    ensures c.transcript == old(c.transcript) + AttemptTold(spec, i, interval, a)
    ensures TimelyAttempt(spec, i, interval, a, old(c.now), c.now)
  {
    hide AttemptTold;
    effect, a := false, Attempt(None, 0, None, false);
    if i > 0 && interval > 0 {
      var cut := c.WaitInterval(interval);
      a := a.(cut := cut);
      if cut.Some? {
        AttemptAnswers(spec, i, interval, a);
        return Some(CreationCut(cut.value)), effect, a;
      }
    }
    if !spec.quantitiesParse {
      AttemptAnswers(spec, i, interval, a);
      return Some(BadQuantity), effect, a;
    }
    ghost var at := c.now;
    var rejected;
    rejected, effect := c.Create(spec.name, spec.runID);
    a := a.(at := at, rejected := rejected, effect := effect);
    AttemptAnswers(spec, i, interval, a);
    return if rejected.Some? then Some(Rejected(rejected.value)) else None, effect, a;
  }

  lemma PrefixStep(specs: seq<VmiSpec>, i: nat, before: set<(string, string)>)
    requires i < |specs|
    ensures before + Pairs(specs[..i + 1]) == before + Pairs(specs[..i]) + {(specs[i].name, specs[i].runID)}
    ensures SpecNames(specs[..i + 1]) == SpecNames(specs[..i]) + {specs[i].name}
    ensures AllParse(specs[..i + 1]) <==> AllParse(specs[..i]) && specs[i].quantitiesParse
  {
    assert specs[..i + 1] == specs[..i] + [specs[i]];
  }

  // ---- countRunningVMIs ----

  method CountRunning(list: map<string, Vmi>) returns (running: nat)
    ensures running == |RunningIn(list)|
  {
    running := 0;
    var rest := list.Keys;
    ghost var counted: set<string> := {};
    while rest != {}
      invariant rest <= list.Keys
      invariant counted == set n | n in list && n !in rest && list[n].phase == Running
      invariant running == |counted|
      decreases rest
    {
      var n :| n in rest;
      rest := rest - {n};
      if list[n].phase == Running {
        running := running + 1;
        counted := counted + {n};
      }
    }
    assert counted == RunningIn(list);
  }

  /** The number of the run's VMIs that are Running in the cluster, by one listing of them. */
  method CountRunningVMIs(c: Cluster) returns (count: Fetch<nat>, ghost listing: Fetch<Listing>)
    requires c.Valid()
    modifies c
    ensures c.Valid() && c.created == old(c.created)
    ensures OwnNames(c.vmis, c.run) <= old(OwnNames(c.vmis, c.run))
    ensures c.transcript == old(c.transcript) + [ListSeen(c.run, listing)]
    ensures match count
            case Err(e) => listing == Err(e)
            case Ok(n) =>
              && listing == Ok(Labelled(c.vmis, c.run))
              && n == |OwnRunning(c.vmis, c.run)| == |RunningIn(listing.value)| <= c.capacity
              && listing.value.Keys == OwnNames(c.vmis, c.run)
  {
    var list := c.List(c.run, None);
    listing := list;
    if list.Err? {
      return Err(list.error), listing;
    }
    var n := CountRunning(list.value);
    assert RunningIn(list.value) == OwnRunning(c.vmis, c.run);
    return Ok(n), listing;
  }

  // ---- createVMIsInBatches ----

  /** Name and label of `n` VMIs, from number `first` on. */
  ghost function Numbered(run: string, first: nat, n: nat): set<(string, string)> {
    set i | first <= i < first + n :: (VmiName(run, i), run)
  }

  lemma NumberedConcat(run: string, m: nat, n: nat)
    ensures Numbered(run, 0, m) + Numbered(run, m, n) == Numbered(run, 0, m + n)
  {
  }

  // Parts of a record that the code did not come to.
  const NO_INSPECTION := Inspection(Err(ApiErr(false)), None, Err(ApiErr(false)), Err(ApiErr(false)))
  const NO_WATCH := WatchRun([], false, None, None, map[])
  const NO_BATCH := Batch(None, [], None, NO_WATCH, None, Err(ApiErr(false)), None, NO_INSPECTION, None)
  const NO_CLEANUP := CleanupLog(DeleteRefused, [])

  lemma BatchPrefix(o: DensityOptions, run: string, first: nat, size: nat, n: nat)
    requires n <= size
    ensures var specs := BatchSpecs(o, run, first, size)[..n];
            && Pairs(specs) == Numbered(run, first, n)
            && NamesUpTo(run, first) + SpecNames(specs) == NamesUpTo(run, first + n)
  {
    var specs := BatchSpecs(o, run, first, size)[..n];
    forall i | first <= i < first + n ensures specs[i - first] in specs && specs[i - first].name == VmiName(run, i) {
    }
  }

  /** What is known of a listing, once `n` more VMIs than `maxReady` have been created. */
  ghost predicate ListingFits(run: string, total: nat, capacity: nat, listing: Fetch<Listing>) {
    listing.Ok? ==> listing.value.Keys <= NamesUpTo(run, total) && |RunningIn(listing.value)| <= capacity
  }

  /** One turn of the ramp loop. */
  method RunBatch(c: Cluster, o: DensityOptions, maxReady: nat, baseline: HealthBaseline)
    returns (turn: Turn, ghost b: Batch, ghost n: nat)
    requires c.Valid() && Unfinished(o, maxReady)
    requires OwnNames(c.vmis, c.run) <= NamesUpTo(c.run, maxReady)
    modifies c, baseline`restarts
    ensures c.Valid()
    ensures turn == Take(o, c.run, baseline.containers, Progress(maxReady, old(baseline.restarts)), b)
    ensures turn.Next? ==> baseline.restarts == turn.progress.ledger
    ensures TurnFits(o, c.run, Progress(maxReady, old(baseline.restarts)), b)
    ensures ListingFits(c.run, maxReady + BatchSize(o, maxReady), c.capacity, b.listing)
    ensures n <= BatchSize(o, maxReady) && (turn.Next? || turn.outcome.max > maxReady ==> n == BatchSize(o, maxReady))
    ensures c.created == old(c.created) + Numbered(c.run, maxReady, n)
    ensures OwnNames(c.vmis, c.run) <= NamesUpTo(c.run, maxReady + n)
    ensures c.transcript == old(c.transcript) + TurnTold(o, c.run, maxReady, b)
    ensures Spaced(TurnTold(o, c.run, maxReady, b), 100)
  {
    hide CreationTold, AwaitTold, Await, Creates, Spaced;
    b, n := NO_BATCH, 0;
    var head := c.ParentErr();
    b := b.(ctxAtHead := head);
    if head.Some? {
      OneIsSpaced(head);
      return Abort(maxReady, ContextEnded(head.value)), b, n;
    }
    var size := BatchSize(o, maxReady);
    var creation;
    ghost var attempts;
    creation, attempts, n := CreateVMIs(c, BatchSpecs(o, c.run, maxReady, size), RATE_INTERVAL);
    BatchPrefix(o, c.run, maxReady, size, n);
    b := b.(attempts := attempts, creation := creation);
    ghost var told := CreationTold(BatchSpecs(o, c.run, maxReady, size), RATE_INTERVAL, attempts);
    if creation.Some? {
      assert told + [] == told;
      SpacedWithin(head, told, []);
      Join(old(c.transcript), [ContextRead(head)], told);
      return Abort(maxReady, CreationFailed(creation.value)), b, n;
    }
    turn, b := AwaitBatch(c, o, maxReady, size, baseline, b, n);
    NoneCreated(c.run, maxReady, size, b);
    SpacedWithin(head, told, AwaitTold(c.run, maxReady, size, b));
    Join(old(c.transcript), [ContextRead(head)], told + AwaitTold(c.run, maxReady, size, b));
    Join(old(c.transcript) + [ContextRead(head)], told, AwaitTold(c.run, maxReady, size, b));
  }

  /** Only the creations of a turn send creation requests. */
  lemma NoneCreated(run: string, maxReady: nat, size: nat, b: Batch)
    ensures var told := AwaitTold(run, maxReady, size, b);
            forall i :: 0 <= i < |told| ==> !told[i].CreateSent?
  {
    hide VmiStartup.Outcome;
  }

  lemma OneIsSpaced(head: Option<CtxErr>)
    ensures Spaced([ContextRead(head)] + [], 100)
  {
  }

  lemma SpacedWithin(head: Option<CtxErr>, told: seq<Answer>, after: seq<Answer>)
    requires Spaced(told, RATE_INTERVAL)
    requires forall i :: 0 <= i < |after| ==> !after[i].CreateSent?
    ensures Spaced([ContextRead(head)] + (told + after), 100)
  {
    var all := [ContextRead(head)] + (told + after);
    forall i | 0 <= i < |all| && all[i].CreateSent? ensures 1 <= i <= |told| && all[i] == told[i - 1] {
    }
  }

  /** The turn from the wait on. */
  method AwaitBatch(c: Cluster, o: DensityOptions, maxReady: nat, size: nat, baseline: HealthBaseline,
                    ghost b0: Batch, ghost n: nat)
    returns (turn: Turn, ghost b: Batch)
    requires c.Valid() && Unfinished(o, maxReady)
    requires OwnNames(c.vmis, c.run) <= NamesUpTo(c.run, maxReady + n)
    requires b0.listing.Err?
    modifies c, baseline`restarts
    ensures c.Valid() && c.created == old(c.created)
    ensures OwnNames(c.vmis, c.run) <= NamesUpTo(c.run, maxReady + n)
    ensures b.ctxAtHead == b0.ctxAtHead && b.attempts == b0.attempts && b.creation == b0.creation && Sticky(b.watch)
    ensures turn == Await(o, c.run, baseline.containers, Progress(maxReady, old(baseline.restarts)), size, b)
    ensures turn.Next? ==> baseline.restarts == turn.progress.ledger
    ensures ListingFits(c.run, maxReady + n, c.capacity, b.listing)
    ensures c.transcript == old(c.transcript) + AwaitTold(c.run, maxReady, size, b)
  {
    hide VmiStartup.Outcome, Recheck, RecheckTold;
    var w := c.Watch(c.run);
    b := b0.(watch := w);
    var batchErr := WaitRunning(BatchNames(c.run, maxReady, size), w);
    var e := c.ParentErr();
    b := b.(ctxAfterWait := e);
    if e.Some? {
      return Abort(maxReady, ContextEnded(e.value)), b;
    }
    if batchErr.Some? {
      if batchErr.value.startupTimeout {
        return StopAt(maxReady, StartupTimedOut(batchErr.value)), b;
      }
      return Abort(maxReady, WaitFailed(batchErr.value)), b;
    }
    turn, b := RecheckBatch(c, o, maxReady, size, baseline, b, n);
  }

  /** The last part of the turn: the count and the health check. */
  method RecheckBatch(c: Cluster, o: DensityOptions, maxReady: nat, size: nat, baseline: HealthBaseline,
                      ghost b0: Batch, ghost n: nat)
    returns (turn: Turn, ghost b: Batch)
    requires c.Valid() && Unfinished(o, maxReady)
    requires OwnNames(c.vmis, c.run) <= NamesUpTo(c.run, maxReady + n)
    modifies c, baseline`restarts
    ensures c.Valid() && c.created == old(c.created)
    ensures OwnNames(c.vmis, c.run) <= NamesUpTo(c.run, maxReady + n)
    ensures b == b0.(listing := b.listing, ctxAfterCount := b.ctxAfterCount, inspection := b.inspection,
                     ctxAfterHealth := b.ctxAfterHealth)
    ensures turn == Recheck(o, baseline.containers, Progress(maxReady, old(baseline.restarts)), size, b)
    ensures turn.Next? ==> baseline.restarts == turn.progress.ledger
    ensures ListingFits(c.run, maxReady + n, c.capacity, b.listing)
    ensures c.transcript == old(c.transcript) + RecheckTold(c.run, maxReady, size, b)
  {
    b := b0;
    var ready;
    ghost var listing;
    ready, listing := CountRunningVMIs(c);
    b := b.(listing := listing);
    if ready.Err? {
      return Abort(maxReady, CountFailed(ready.error)), b;
    }
    var e := c.ParentErr();
    b := b.(ctxAfterCount := e);
    if e.Some? {
      return Abort(maxReady, ContextEnded(e.value)), b;
    }
    if ready.value != maxReady + size {
      return StopAt(maxReady, WrongCount(ready.value, maxReady + size)), b;
    }
    var i := c.Inspect();
    b := b.(inspection := i);
    var h := CheckClusterHealth(baseline, i);
    e := c.ParentErr();
    b := b.(ctxAfterHealth := e);
    if e.Some? {
      return Abort(maxReady, ContextEnded(e.value)), b;
    }
    match h {
      case InspectionFailed =>
        return Abort(maxReady, HealthIncomplete), b;
      case Unhealthy =>
        return StopAt(maxReady, ClusterUnhealthy), b;
      case Healthy =>
        if o.maxVMs > 0 && ready.value >= o.maxVMs {
          return Ended(Ramp.Outcome(ready.value, None, None)), b;
        }
        return Next(Progress(ready.value, baseline.restarts)), b;
    }
  }

  /** The turns seen so far. */
  ghost predicate Seen(o: DensityOptions, run: string, containers: set<Service>, start: Progress, batches: seq<Batch>,
                       capacity: nat)
    requires Unfinished(o, start.maxReady)
  {
    ClimbFits(o, run, containers, start, batches) && AtMostRunning(capacity, batches)
  }

  lemma OneMoreTurn(o: DensityOptions, run: string, containers: set<Service>, start: Progress, batches: seq<Batch>,
                    p: Progress, b: Batch, capacity: nat)
    requires Unfinished(o, start.maxReady) && Seen(o, run, containers, start, batches, capacity)
    requires Climb(o, run, containers, start, batches) == Next(p) && Unfinished(o, p.maxReady)
    requires TurnFits(o, run, p, b)
    requires ListingFits(run, p.maxReady + BatchSize(o, p.maxReady), capacity, b.listing)
    ensures Seen(o, run, containers, start, batches + [b], capacity)
    ensures Climb(o, run, containers, start, batches + [b]) == Take(o, run, containers, p, b)
    ensures ClimbTold(o, run, containers, start, batches + [b]) ==
            ClimbTold(o, run, containers, start, batches) + TurnTold(o, run, p.maxReady, b)
    ensures match Take(o, run, containers, p, b)
            case Next(q) =>
              && Unfinished(o, q.maxReady) && p.maxReady < q.maxReady <= capacity
              && q.maxReady == p.maxReady + BatchSize(o, p.maxReady)
            case Ended(r) => p.maxReady <= r.max <= p.maxReady + BatchSize(o, p.maxReady)
  {
    hide Climb, ClimbTold, TurnTold, Take, ClimbFits, TurnFits, ClusterVerdict;
    ClimbAppend(o, run, containers, start, batches, p, b);
    ClimbFitsAppend(o, run, containers, start, batches, p, b);
    ClimbToldAppend(o, run, containers, start, batches, p, b);
    TurnClassified(o, run, containers, p, b);
    if Take(o, run, containers, p, b).Next? {
      TurnFull(o, run, containers, p, b);
    }
  }

  /** The ramp loop, from a healthy start with no VMI of the run. */
  method Ascend(c: Cluster, o: DensityOptions, health: HealthBaseline)
    returns (r: Ramp.Outcome, ghost batches: seq<Batch>, ghost n: nat)
    requires c.Valid() && Unfinished(o, 0)
    requires OwnNames(c.vmis, c.run) == {}
    modifies c, health`restarts
    ensures c.Valid()
    ensures var start := Progress(0, old(health.restarts));
            && Climb(o, c.run, health.containers, start, batches) == Ended(r)
            && Seen(o, c.run, health.containers, start, batches, c.capacity)
            && c.transcript == old(c.transcript) + ClimbTold(o, c.run, health.containers, start, batches)
    ensures r.max <= n && c.created == old(c.created) + Numbered(c.run, 0, n)
    ensures o.maxVMs > 0 ==> n <= o.maxVMs
  {
    hide Take, TurnTold, TurnFits;
    ghost var start := Progress(0, health.restarts);
    var maxReady: nat := 0;
    batches, n := [], 0;
    assert Numbered(c.run, 0, 0) == {};
    while true
      invariant c.Valid() && Unfinished(o, maxReady) && maxReady <= c.capacity
      invariant OwnNames(c.vmis, c.run) <= NamesUpTo(c.run, maxReady)
      invariant c.created == old(c.created) + Numbered(c.run, 0, maxReady)
      invariant Seen(o, c.run, health.containers, start, batches, c.capacity)
      invariant Climb(o, c.run, health.containers, start, batches) == Next(Progress(maxReady, health.restarts))
      invariant c.transcript == old(c.transcript) + ClimbTold(o, c.run, health.containers, start, batches)
      decreases c.capacity - maxReady
    {
      var turn;
      turn, batches, n := RunNextBatch(c, o, maxReady, health, start, batches, old(c.created), old(c.transcript));
      if turn.Ended? {
        return turn.outcome, batches, n;
      }
      maxReady := turn.progress.maxReady;
    }
  }

  /** One turn, with what was seen before it. */
  method RunNextBatch(c: Cluster, o: DensityOptions, maxReady: nat, health: HealthBaseline, ghost start: Progress,
                      ghost batches: seq<Batch>, ghost created: set<(string, string)>, ghost told: seq<Answer>)
    returns (turn: Turn, ghost batches': seq<Batch>, ghost n: nat)
    requires c.Valid() && Unfinished(o, maxReady) && Unfinished(o, start.maxReady)
    requires OwnNames(c.vmis, c.run) <= NamesUpTo(c.run, maxReady)
    requires c.created == created + Numbered(c.run, 0, maxReady)
    requires Seen(o, c.run, health.containers, start, batches, c.capacity)
    requires Climb(o, c.run, health.containers, start, batches) == Next(Progress(maxReady, health.restarts))
    requires c.transcript == told + ClimbTold(o, c.run, health.containers, start, batches)
    modifies c, health`restarts
    ensures c.Valid()
    ensures Seen(o, c.run, health.containers, start, batches', c.capacity)
    ensures Climb(o, c.run, health.containers, start, batches') == turn
    ensures c.transcript == told + ClimbTold(o, c.run, health.containers, start, batches')
    ensures c.created == created + Numbered(c.run, 0, n)
    ensures n <= maxReady + BatchSize(o, maxReady)
    ensures match turn
            case Ended(r) => r.max <= n
            case Next(p) =>
              && p.ledger == health.restarts && Unfinished(o, p.maxReady)
              && maxReady < p.maxReady == n <= c.capacity
              && OwnNames(c.vmis, c.run) <= NamesUpTo(c.run, p.maxReady)
  {
    hide Climb, ClimbTold, Take, TurnTold, Seen, TurnFits;
    ghost var p := Progress(maxReady, health.restarts);
    ghost var b, more;
    turn, b, more := RunBatch(c, o, maxReady, health);
    OneMoreTurn(o, c.run, health.containers, start, batches, p, b, c.capacity);
    NumberedConcat(c.run, maxReady, more);
    Join(told, ClimbTold(o, c.run, health.containers, start, batches), TurnTold(o, c.run, maxReady, b));
    batches', n := batches + [b], maxReady + more;
  }

  /**
   * `createVMIsInBatches`. It is called when no VMI carries the run's label. The result is what
   * the answers of the cluster lead to, and the VMIs created are 0 to n - 1.
   */
  method CreateVMIsInBatches(c: Cluster, o: DensityOptions) returns (r: Ramp.Outcome, ghost log: RampLog, ghost n: nat)
    requires c.Valid() && Unfinished(o, 0)
    requires OwnNames(c.vmis, c.run) == {}
    modifies c
    ensures c.Valid()
    ensures c.transcript == old(c.transcript) + RampTold(o, c.run, log)
    ensures RampFits(o, c.run, c.capacity, log) && RampResult(o, c.run, log) == Ended(r)
    ensures r.max <= n && c.created == old(c.created) + Numbered(c.run, 0, n)
    ensures o.maxVMs > 0 ==> n <= o.maxVMs
  {
    hide Climb, ClimbTold, ClimbFits, ClusterVerdict, BaselineOf;
    n := 0;
    assert Numbered(c.run, 0, 0) == {};
    var pods := c.Inspect();
    log := RampLog(pods, NO_INSPECTION, []);
    var health := CaptureBaseline(pods);
    if health == null {
      return Abort(0, NoBaseline).outcome, log, n;
    }
    var i := c.Inspect();
    log := RampLog(pods, i, []);
    ghost var ledger := health.restarts;
    var h := CheckClusterHealth(health, i);
    if h == InspectionFailed {
      return Abort(0, PreflightIncomplete).outcome, log, n;
    }
    if h == Unhealthy {
      // An unhealthy starting state is a failed run: no capacity has been measured.
      return Abort(0, PreflightUnhealthy).outcome, log, n;
    }
    ghost var before := c.transcript;
    ghost var batches;
    r, batches, n := Ascend(c, o, health);
    log := RampLog(pods, i, batches);
    assert StartOf(log) == Progress(0, Absorb(ledger, Taken(i)));
    ghost var told := ClimbTold(o, c.run, health.containers, StartOf(log), batches);
    assert before == old(c.transcript) + [InspectionSeen(pods)] + [InspectionSeen(i)];
    Join(old(c.transcript), [InspectionSeen(pods)], [InspectionSeen(i)] + told);
    Join(old(c.transcript) + [InspectionSeen(pods)], [InspectionSeen(i)], told);
  }

  // ---- cleanup ----

  /**
   * `cleanup`, under a background context of five minutes that every request honours. It ends by
   * then whatever the cluster does, sends updates for overdue objects only, and reports success
   * only when no VMI carries the run's label.
   */
  method CleanUp(c: Cluster) returns (err: Option<CleanupError>, ghost log: CleanupLog)
    requires c.Valid()
    modifies c
    ensures c.Valid() && c.created == old(c.created)
    ensures OwnNames(c.vmis, c.run) <= old(OwnNames(c.vmis, c.run))
    ensures err.None? ==> OwnNames(c.vmis, c.run) == {}
    ensures old(c.now) <= c.now <= old(c.now) + 300_000
    ensures err == Some(DeletionNotFinished) ==> c.now == old(c.now) + 300_000
    ensures c.transcript == old(c.transcript) + CleanupTold(c.run, log)
    ensures CleanupFits(log) && err == CleanupFailure(log)
    ensures UpdatesOverdue(CleanupTold(c.run, log))
    ensures |log.polls| <= 301
  {
    hide PollTold, PollFits, UpdatesOverdue, EndOf, Cleaning, CleanupFits, CleanupFailure, CleanupTold;
    var deadline := c.now + DEADLINE;
    var answer := c.DeleteCollection(c.run, deadline);
    log := CleanupLog(answer, []);
    Deletion(c.run, log);
    if answer == DeleteRefused {
      return Some(DeleteFailed), log;
    }
    while true
      invariant c.Valid() && c.created == old(c.created)
      invariant OwnNames(c.vmis, c.run) <= old(OwnNames(c.vmis, c.run))
      invariant old(c.now) + |log.polls| * POLL_INTERVAL <= c.now <= deadline
      invariant Cleaning(log)
      invariant c.transcript == old(c.transcript) + CleanupTold(c.run, log)
      decreases deadline - c.now
    {
      var end;
      ghost var p;
      end, p := PollOnce(c, deadline);
      OneMorePoll(c.run, old(c.transcript), log, p);
      log := log.(polls := log.polls + [p]);
      match end {
        case Clean => return None, log;
        case Stopped(e) => return Some(e), log;
        case GoOn =>
      }
    }
  }

  /** The poll loop as it goes on. */
  ghost predicate Cleaning(log: CleanupLog) {
    && log.deletion != DeleteRefused
    && PollAll(log.polls) == Polling
    && forall i :: 0 <= i < |log.polls| ==> PollFits(log.polls[i])
  }

  lemma Deletion(run: string, log: CleanupLog)
    requires log.polls == []
    ensures CleanupTold(run, log) == [DeleteSent(run, log.deletion)]
    ensures if log.deletion == DeleteRefused then
              CleanupFits(log) && CleanupFailure(log) == Some(DeleteFailed) && UpdatesOverdue(CleanupTold(run, log))
            else Cleaning(log)
  {
  }

  lemma OneMorePoll(run: string, before: seq<Answer>, log: CleanupLog, p: Poll)
    requires Cleaning(log) && PollFits(p)
    ensures var after := log.(polls := log.polls + [p]);
            && before + CleanupTold(run, after) == before + CleanupTold(run, log) + PollTold(run, p)
            && match EndOf(p)
               case GoOn => Cleaning(after)
               case Clean =>
                 CleanupFits(after) && CleanupFailure(after) == None && UpdatesOverdue(CleanupTold(run, after))
               case Stopped(e) =>
                 CleanupFits(after) && CleanupFailure(after) == Some(e) && UpdatesOverdue(CleanupTold(run, after))
  {
    hide PollTold, PollFits, EndOf, UpdatesOverdue;
    var after := log.(polls := log.polls + [p]);
    PollAppend(log.polls, p);
    assert after.polls[..|log.polls|] == log.polls;
    Join([DeleteSent(run, log.deletion)], PollsTold(run, log.polls), PollTold(run, p));
    Join(before, CleanupTold(run, log), PollTold(run, p));
    if EndOf(p) != GoOn {
      CleanupUpdatesOverdue(run, after);
    }
  }

  /** One turn of the poll loop, with the second it sleeps. */
  method PollOnce(c: Cluster, deadline: nat) returns (end: PollEnd, ghost p: Poll)
    requires c.Valid() && c.now <= deadline
    modifies c
    ensures c.Valid() && c.created == old(c.created)
    ensures OwnNames(c.vmis, c.run) <= old(OwnNames(c.vmis, c.run))
    ensures end == EndOf(p) && PollFits(p)
    ensures c.transcript == old(c.transcript) + PollTold(c.run, p)
    ensures end == Clean ==> OwnNames(c.vmis, c.run) == {}
    ensures old(c.now) <= c.now <= deadline
    ensures end == GoOn ==> old(c.now) + POLL_INTERVAL <= c.now
    ensures end == Stopped(DeletionNotFinished) ==> c.now == deadline
  {
    hide VisitsTold, Overdue;
    p := Poll(Err(ApiErr(false)), [], map[], false);
    var list := c.List(c.run, Some(deadline));
    p := p.(listing := list);
    if list.Err? {
      return Stopped(ListFailed), p;
    }
    if list.value == map[] {
      assert forall n :: n in OwnNames(c.vmis, c.run) ==> n in list.value;
      return Clean, p;
    }
    var refused;
    ghost var order, visits;
    refused, order, visits := StripOverdue(c, list.value, deadline);
    p := p.(order := order, visits := visits);
    ghost var told := VisitsTold(list.value, order, visits);
    if refused {
      assert told + [] == told;
      Join(old(c.transcript), [ListSeen(c.run, list)], told);
      return Stopped(StripFailed), p;
    }
    var expired := c.Pause(POLL_INTERVAL, deadline);
    p := p.(expired := expired);
    Join(old(c.transcript), [ListSeen(c.run, list)], told + [PauseEnded(expired)]);
    Join(old(c.transcript) + [ListSeen(c.run, list)], told, [PauseEnded(expired)]);
    return if expired then Stopped(DeletionNotFinished) else GoOn, p;
  }

  /** The loop over the listed objects, in any order. */
  method StripOverdue(c: Cluster, list: map<string, Vmi>, deadline: nat)
    returns (refused: bool, ghost order: seq<string>, ghost visits: map<string, Visit>)
    requires c.Valid() && c.now <= deadline
    modifies c
    ensures c.Valid() && c.created == old(c.created)
    ensures OwnNames(c.vmis, c.run) <= old(OwnNames(c.vmis, c.run))
    ensures old(c.now) <= c.now <= deadline
    ensures PollFits(Poll(Ok(list), order, visits, false))
    ensures refused == Refused(Poll(Ok(list), order, visits, false))
    ensures c.transcript == old(c.transcript) + VisitsTold(list, order, visits)
  {
    hide VisitsTold, VisitTold, Overdue;
    order, visits := [], map[];
    NoVisits(list, visits);
    var rest := list.Keys;
    while rest != {}
      invariant rest <= list.Keys
      invariant c.Valid() && c.created == old(c.created)
      invariant OwnNames(c.vmis, c.run) <= old(OwnNames(c.vmis, c.run))
      invariant old(c.now) <= c.now <= deadline
      invariant Visited(list, list.Keys - rest, order, visits)
      invariant forall n :: n in visits ==> visits[n].update != Some(UpdateRefused)
      invariant c.transcript == old(c.transcript) + VisitsTold(list, order, visits)
      decreases rest
    {
      var n :| n in rest;
      rest := rest - {n};
      var answer;
      ghost var visit;
      answer, visit := VisitObject(c, n, list[n], deadline);
      OneMoreVisit(list, order, visits, n, visit);
      Join(old(c.transcript), VisitsTold(list, order, visits), VisitTold(n, list[n], visit));
      order, visits := order + [n], visits[n := visit];
      if answer == Some(UpdateRefused) {
        assert visits[n].update == Some(UpdateRefused);
        return true, order, visits;
      }
    }
    assert list.Keys - rest == list.Keys;
    return false, order, visits;
  }

  /** Where the loop over the objects stands. */
  ghost predicate Visited(list: map<string, Vmi>, done: set<string>, order: seq<string>, visits: map<string, Visit>) {
    && visits.Keys == done <= list.Keys
    && (forall n :: n in order <==> n in visits)
    && (forall i, j :: 0 <= i < j < |order| ==> order[i] != order[j])
    && forall n :: n in visits ==> (visits[n].update.Some? <==> Overdue(list[n], visits[n].at))
  }

  lemma NoVisits(list: map<string, Vmi>, visits: map<string, Visit>)
    ensures VisitsTold(list, [], visits) == []
  {
  }

  /** One object: its deletion mark, its finalizers and its age are looked at in turn. */
  method VisitObject(c: Cluster, n: string, obj: Vmi, deadline: nat)
    returns (answer: Option<UpdateAnswer>, ghost visit: Visit)
    requires c.Valid() && c.now <= deadline
    modifies c
    ensures c.Valid() && c.created == old(c.created)
    ensures OwnNames(c.vmis, c.run) <= old(OwnNames(c.vmis, c.run))
    ensures old(c.now) <= c.now <= deadline
    ensures visit.update == answer && (answer.Some? <==> Overdue(obj, visit.at))
    ensures c.transcript == old(c.transcript) + VisitTold(n, obj, visit)
  {
    answer, visit := None, Visit(c.now, None);
    if obj.deletedAt.None? || !obj.finalizers {
      return;
    }
    var now := c.ReadClock();
    if now - obj.deletedAt.value <= GRACE {
      return;
    }
    var updated := c.StripFinalizers(n, obj, deadline);
    answer, visit := Some(updated), Visit(now, Some(updated));
  }

  // ---- warmup ----

  method WarmUp(c: Cluster, o: DensityOptions) returns (err: Option<WarmupError>, ghost log: WarmupLog)
    requires c.Valid()
    modifies c
    ensures c.Valid()
    ensures c.created == old(c.created) || c.created == old(c.created) + {(WarmupName(c.run), c.run)}
    ensures err.None? ==> OwnNames(c.vmis, c.run) == {}
    ensures c.transcript == old(c.transcript) + WarmupTold(o, c.run, log)
    ensures WarmupFits(o, c.run, log) && err == WarmupResult(c.run, log)
  {
    hide CreationTold, CleanupTold, VmiStartup.Outcome, UpdatesOverdue, Spaced, Creates;
    var spec := WarmupSpec(o, c.run);
    var create;
    ghost var attempts, n;
    create, attempts, n := CreateVMIs(c, [spec], 0);
    assert [spec][..0] == [] && [spec][..1] == [spec];
    log := WarmupLog(attempts, create, NO_WATCH, NO_CLEANUP);
    ghost var told := CreationTold([spec], 0, attempts);
    if create.Some? {
      assert told + [] == told;
      return Some(WarmupCreate(create.value)), log;
    }
    var w := c.Watch(c.run);
    log := log.(watch := w);
    var wait := WaitRunning([spec.name], w);
    if wait.Some? {
      Join(old(c.transcript), told, [WatchSeen(c.run, w)]);
      return Some(WarmupWait(wait.value)), log;
    }
    var clean;
    ghost var cleaning;
    clean, cleaning := CleanUp(c);
    log := log.(cleanup := cleaning);
    Join(old(c.transcript), told, [WatchSeen(c.run, w)] + CleanupTold(c.run, cleaning));
    Join(old(c.transcript) + told, [WatchSeen(c.run, w)], CleanupTold(c.run, cleaning));
    return if clean.Some? then Some(WarmupCleanup(clean.value)) else None, log;
  }

  // ---- Results ----

  // Messages; the text does not matter, only that there is one.
  function InvalidText(e: InvalidOption): (text: string)
    ensures text != ""
  {
    match e
    case NegativeMaxVMs => "maxVMs must be non-negative"
    case NonPositiveBatchSize => "batchSize must be positive"
    case NonPositiveTimeout => "batchWaitTimeout must be positive"
    case NoContainerDisk => "vmi.containerDisk must not be empty"
  }

  function RunErrorText(e: RunError): (text: string)
    ensures text != ""
  {
    match e
    case NoBaseline => "capture baseline"
    case PreflightIncomplete => "health not inspected"
    case PreflightUnhealthy => "cluster unhealthy before the run"
    case ContextEnded(Canceled) => "context canceled"
    case ContextEnded(DeadlineExceeded) => "context deadline exceeded"
    case CreationFailed(_) => "create VMI"
    case WaitFailed(_) => "VMIs not Running"
    case CountFailed(_) => "count running VMIs"
    case HealthIncomplete => "health not inspected"
  }

  function StopText(s: CapacityStop): (text: string)
    ensures text != ""
  {
    match s
    case StartupTimedOut(_) => "VMI startup timed out"
    case WrongCount(_, _) => "VMIs Running, expected more or fewer"
    case ClusterUnhealthy => "cluster unhealthy"
  }

  function CleanupText(e: CleanupError): (text: string)
    ensures text != ""
  {
    match e
    case DeleteFailed => "delete VMIs"
    case ListFailed => "list VMIs during cleanup"
    case StripFailed => "strip VMI finalizers"
    case DeletionNotFinished => "wait VMI deletion"
  }

  function WarmupText(e: WarmupError): (text: string)
    ensures text != ""
  {
    match e
    case WarmupCreate(_) => "create VMI"
    case WarmupWait(_) => "VMIs not Running"
    case WarmupCleanup(cleanup) => CleanupText(cleanup)
  }

  /**
   * `createVMIsUntilFailure`: the case records the maximum and why the ramp stopped; it is an
   * ERROR exactly for a run error, and a capacity stop alone leaves it a PASS.
   */
  method CreateVMIsUntilFailure(c: Cluster, o: DensityOptions)
    returns (result: CaseResult, ghost r: Ramp.Outcome, ghost log: RampLog)
    requires c.Valid() && Unfinished(o, 0)
    requires OwnNames(c.vmis, c.run) == {}
    modifies c
    ensures c.Valid() && fresh(result)
    ensures c.transcript == old(c.transcript) + RampTold(o, c.run, log)
    ensures RampFits(o, c.run, c.capacity, log) && RampResult(o, c.run, log) == Ended(r)
    ensures |result.CapacityResults| == 1 && fresh(result.CapacityResults[0])
    ensures var capacity := result.CapacityResults[0];
            && capacity.Max == r.max && capacity.CleanupErr == ""
            && (capacity.Err != "" <==> r.capacityStop.Some?)
    ensures result.State == if r.runErr.Some? then Errored else Passed
    ensures exists n: nat ::
              CreatedAre(old(c.created), c.created, c.run, n) && r.max <= n && (o.maxVMs > 0 ==> n <= o.maxVMs)
  {
    hide RampTold, RampFits, RampResult;
    var outcome;
    ghost var n;
    outcome, log, n := CreateVMIsInBatches(c, o);
    r := outcome;
    assert CreatedAre(old(c.created), c.created, c.run, n);
    result := RecordRamp(outcome);
  }

  method RecordRamp(r: Ramp.Outcome) returns (result: CaseResult)
    ensures fresh(result) && |result.CapacityResults| == 1 && fresh(result.CapacityResults[0])
    ensures var capacity := result.CapacityResults[0];
            && capacity.Max == r.max && capacity.CleanupErr == ""
            && (capacity.Err != "" <==> r.capacityStop.Some?)
    ensures result.State == if r.runErr.Some? then Errored else Passed
  {
    var stop := if r.capacityStop.Some? then StopText(r.capacityStop.value) else "";
    var capacity := new CapacityResult(r.max, stop);
    result := new CaseResult.New("vmi-create", [], []);
    if r.runErr.Some? {
      result.Err := RunErrorText(r.runErr.value);
    }
    result.CapacityResults := [capacity];
    assert CleanupErrs(result.CapacityResults) == [""];
    assert result.View() == Case(result.Err, [""], [], [], [], [], Passed);
    result.FinalizeState();
  }

  /** The suite has created VMIs 0 to n - 1, under the run's label, and nothing else. */
  ghost predicate CreatedAre(before: set<(string, string)>, after: set<(string, string)>, run: string, n: nat) {
    after == before + Numbered(run, 0, n)
  }

  /** A case without a capacity record, whose state says what its fields say. */
  ghost predicate Plain(x: CaseResult)
    reads x, x.CapacityResults
  {
    x.CapacityResults == [] && Settled(x.View())
  }

  /**
   * `cleanupRunResult`. When the cleanup fails, the suite result carries an error, every capacity
   * record says so, and every case that holds one is an ERROR (unless it was skipped).
   */
  method CleanupRunResult(c: Cluster, result: SuiteResult)
    returns (final: SuiteResult, ghost err: Option<CleanupError>, ghost log: CleanupLog)
    requires c.Valid()
    modifies c, result.Results`State, Capacities(result.Results)`CleanupErr
    ensures c.Valid() && c.created == old(c.created)
    ensures c.transcript == old(c.transcript) + CleanupTold(c.run, log)
    ensures CleanupFits(log) && err == CleanupFailure(log) && UpdatesOverdue(CleanupTold(c.run, log))
    ensures final.Results == result.Results && final.Name == result.Name && final.RunID == result.RunID
    ensures forall x :: x in result.Results ==> x.CapacityResults == old(x.CapacityResults)
    ensures forall x, y :: x in result.Results && y in x.CapacityResults ==> y.Max == old(y.Max) && y.Err == old(y.Err)
    ensures err.None? ==> OwnNames(c.vmis, c.run) == {} && final == result
    ensures err.None? ==>
      forall x :: x in result.Results ==> unchanged(x) && forall y :: y in x.CapacityResults ==> unchanged(y)
    ensures err.Some? ==> final.Err == if result.Err == "" then CleanupText(err.value) else result.Err
    ensures err.Some? ==> final.Err != ""
    ensures err.Some? ==> forall x :: x in result.Results && x.CapacityResults != [] ==>
      && (forall y :: y in x.CapacityResults ==> y.CleanupErr == CleanupText(err.value))
      && x.State == if old(x.State) == Skipped then Skipped else Errored
    ensures forall x :: x in result.Results && old(Plain(x)) ==> x.State == old(x.State)
  {
    hide CleanupTold, CleanupFits, CleanupFailure, UpdatesOverdue;
    var failed;
    failed, log := CleanUp(c);
    err := failed;
    if failed.None? {
      return result, err, log;
    }
    var text := CleanupText(failed.value);
    MarkAll(result.Results, text);
    return if result.Err == "" then result.WithError(text) else result, err, log;
  }

  /** The loop of `cleanupRunResult`; records and cases may be shared. */
  method MarkAll(cases: seq<CaseResult>, text: string)
    requires text != ""
    modifies cases`State, Capacities(cases)`CleanupErr
    ensures forall x :: x in cases ==> x.CapacityResults == old(x.CapacityResults)
    ensures forall x, y :: x in cases && y in x.CapacityResults ==> y.CleanupErr == text
    ensures forall x :: x in cases && x.CapacityResults != [] ==>
      x.State == if old(x.State) == Skipped then Skipped else Errored
    ensures forall x :: x in cases && old(Plain(x)) ==> x.State == old(x.State)
  {
    hide Settled;
    ghost var records := Capacities(cases);
    for i := 0 to |cases|
      invariant forall x :: x in cases ==> x.CapacityResults == old(x.CapacityResults)
      invariant forall j, y :: 0 <= j < i && y in cases[j].CapacityResults ==> y.CleanupErr == text
      invariant forall x :: x in cases ==> (x.State == Skipped <==> old(x.State) == Skipped)
      invariant forall j :: 0 <= j < i && cases[j].CapacityResults != [] ==>
        cases[j].State == if old(cases[j].State) == Skipped then Skipped else Errored
      invariant forall x :: x in cases && old(Plain(x)) ==> Plain(x) && x.State == old(x.State)
    {
      assert cases[i] in cases;
      assert forall y :: y in cases[i].CapacityResults ==> y in records;
      MarkCleanup(cases[i], text);
    }
  }

  /** One turn of that loop. */
  method MarkCleanup(x: CaseResult, text: string)
    requires text != ""
    modifies x`State, x.CapacityResults`CleanupErr
    ensures forall y :: y in x.CapacityResults ==> y.CleanupErr == text
    ensures forall y: CapacityResult :: old(allocated(y)) && y !in x.CapacityResults ==> unchanged(y)
    ensures x.State == Skipped <==> old(x.State) == Skipped
    ensures x.CapacityResults != [] ==> x.State == if old(x.State) == Skipped then Skipped else Errored
    ensures old(Plain(x)) ==> Plain(x) && x.State == old(x.State)
  {
    for i := 0 to |x.CapacityResults|
      invariant forall j :: 0 <= j < i ==> x.CapacityResults[j].CleanupErr == text
      invariant x.State == old(x.State)
    {
      x.CapacityResults[i].CleanupErr := text;
    }
    if x.CapacityResults != [] {
      assert x.View().cleanupErrs[0] == text && x.View().cleanupErrs[0] in x.View().cleanupErrs;
    }
    x.FinalizeState();
  }

  // ---- RunE ----

  /** Every VMI created since `before` carries the run's label. */
  ghost predicate OnlyLabelled(before: set<(string, string)>, after: set<(string, string)>, run: string) {
    before <= after && forall pair :: pair in after && pair !in before ==> pair.1 == run
  }

  lemma NumberedAreLabelled(before: set<(string, string)>, after: set<(string, string)>, run: string)
    requires exists n: nat :: CreatedAre(before, after, run, n)
    ensures OnlyLabelled(before, after, run)
  {
  }

  /** The case holds one capacity record, with the maximum of the ramp and whether it stopped for capacity. */
  ghost predicate Records(x: CaseResult, r: Ramp.Outcome)
    reads x, x.CapacityResults
  {
    && |x.CapacityResults| == 1
    && x.CapacityResults[0].Max == r.max
    && (x.CapacityResults[0].Err != "" <==> r.capacityStop.Some?)
  }

  method CollectMetrics(c: Cluster) returns (result: CaseResult, failed: bool, ghost answer: Option<ApiErr>)
    requires c.Valid()
    modifies c
    ensures c.Valid() && c.created == old(c.created)
    ensures c.transcript == old(c.transcript) + [RequestSent(answer)] && failed == answer.Some?
    ensures fresh(result) && Plain(result)
    ensures result.State == if failed then Errored else Passed
  {
    var err := c.Request();
    if err.Some? {
      result := new CaseResult.NewErrored("density metrics", METRICS_TEXT);
      assert result.View() == ErroredCase(METRICS_TEXT);
      return result, true, err;
    }
    result := new CaseResult.New("density metrics", [], []);
    assert result.View().state == Passed && Settled(result.View());
    return result, false, err;
  }

  /** The cases a run ends with, before the deferred cleanup; `ramp` is none if the warm-up failed. */
  ghost predicate CasesOf(results: seq<CaseResult>, ramp: Option<Ramp.Outcome>, metricsFailed: bool)
    reads results, Capacities(results)
  {
    match ramp
    case None =>
      |results| == 1 && !metricsFailed && PlainIn(results, 0) && results[0].State == Errored
    case Some(r) =>
      && |results| == 2
      && RecordsIn(results, r) && results[0].State == (if r.runErr.Some? then Errored else Passed)
      && PlainIn(results, 1) && results[1].State == if metricsFailed then Errored else Passed
  }

  ghost predicate PlainIn(results: seq<CaseResult>, i: nat)
    requires i < |results|
    reads results, Capacities(results)
  {
    assert results[i] in results && forall y :: y in results[i].CapacityResults ==> y in Capacities(results);
    Plain(results[i])
  }

  ghost predicate RecordsIn(results: seq<CaseResult>, r: Ramp.Outcome)
    requires results != []
    reads results, Capacities(results)
  {
    assert results[0] in results && forall y :: y in results[0].CapacityResults ==> y in Capacities(results);
    Records(results[0], r)
  }

  lemma TwoCases(x: CaseResult, y: CaseResult, r: Ramp.Outcome, metricsFailed: bool)
    requires Records(x, r) && x.State == if r.runErr.Some? then Errored else Passed
    requires Plain(y) && y.State == if metricsFailed then Errored else Passed
    ensures Capacities([x, y]) == {x.CapacityResults[0]}
    ensures CasesOf([x, y], Some(r), metricsFailed)
  {
    assert x in [x, y] && x.CapacityResults[0] in x.CapacityResults;
  }

  /** The part of `RunE` before the deferred cleanup: the warm-up, the ramp and the metrics. */
  method RunCases(c: Cluster, o: DensityOptions)
    returns (results: seq<CaseResult>, metricsFailed: bool, ghost log: RunLog)
    requires c.Valid() && Unfinished(o, 0)
    modifies c
    ensures c.Valid() && OnlyLabelled(old(c.created), c.created, c.run)
    ensures c.transcript == old(c.transcript) + CasesTold(o, c.run, log)
    ensures RunFits(o, c.run, c.capacity, log) && metricsFailed == MetricsFailed(c.run, log)
    ensures fresh(results) && fresh(Capacities(results))
    ensures CasesOf(results, RunOutcome(o, c.run, log), metricsFailed)
  {
    hide WarmupTold, WarmupFits, WarmupResult, RampTold, RampFits, RampResult;
    var warm;
    ghost var warmup;
    warm, warmup := WarmUp(c, o);
    log := RunLog(warmup, RampLog(NO_INSPECTION, NO_INSPECTION, []), None, NO_CLEANUP);
    if warm.Some? {
      var failed := new CaseResult.NewErrored("vmi-warmup", WarmupText(warm.value));
      assert failed.View() == ErroredCase(WarmupText(warm.value));
      assert WarmupTold(o, c.run, warmup) + [] == WarmupTold(o, c.run, warmup);
      return [failed], false, log;
    }
    ghost var r, ramp, metrics;
    results, metricsFailed, r, ramp, metrics := MeasureCases(c, o);
    log := log.(ramp := ramp, metrics := metrics);
    Join(old(c.transcript), WarmupTold(o, c.run, warmup), RampTold(o, c.run, ramp) + [RequestSent(metrics)]);
  }

  /** The ramp and the metrics. */
  method MeasureCases(c: Cluster, o: DensityOptions)
    returns (results: seq<CaseResult>, metricsFailed: bool, ghost r: Ramp.Outcome, ghost log: RampLog,
             ghost metrics: Option<ApiErr>)
    requires c.Valid() && Unfinished(o, 0)
    requires OwnNames(c.vmis, c.run) == {}
    modifies c
    ensures c.Valid() && OnlyLabelled(old(c.created), c.created, c.run)
    ensures c.transcript == old(c.transcript) + (RampTold(o, c.run, log) + [RequestSent(metrics)])
    ensures RampFits(o, c.run, c.capacity, log) && RampResult(o, c.run, log) == Ended(r)
    ensures metricsFailed == metrics.Some?
    ensures fresh(results) && fresh(Capacities(results)) && CasesOf(results, Some(r), metricsFailed)
  {
    hide RampTold, RampFits, RampResult;
    var caseResult, metricResult;
    caseResult, r, log := CreateVMIsUntilFailure(c, o);
    NumberedAreLabelled(old(c.created), c.created, c.run);
    metricResult, metricsFailed, metrics := CollectMetrics(c);
    Join(old(c.transcript), RampTold(o, c.run, log), [RequestSent(metrics)]);
    results := [caseResult, metricResult];
    TwoCases(caseResult, metricResult, r, metricsFailed);
  }

  const METRICS_TEXT := "failed to collect density metrics"

  /** What a run that got as far as creating VMIs reports, given how its parts ended. */
  ghost predicate Reported(result: SuiteResult, ramp: Option<Ramp.Outcome>, metricsFailed: bool,
                           cleanup: Option<CleanupError>)
    reads result.Results, Capacities(result.Results)
  {
    && (result.Err != "" <==> metricsFailed || cleanup.Some?)
    && match ramp
       case None => |result.Results| == 1 && result.Results[0].State == Errored
       case Some(r) =>
         && |result.Results| == 2 && RecordsIn(result.Results, r)
         && result.Results[0].State == (if r.runErr.Some? || cleanup.Some? then Errored else Passed)
         && result.Results[1].State == if metricsFailed then Errored else Passed
  }

  /** The report, from what the cleanup left of the cases. */
  lemma ReportedFrom(result: SuiteResult, ramp: Option<Ramp.Outcome>, metricsFailed: bool,
                     cleanup: Option<CleanupError>)
    requires result.Err != "" <==> metricsFailed || cleanup.Some?
    requires ramp.None? ==> |result.Results| == 1 && result.Results[0].State == Errored
    requires ramp.Some? ==>
      && |result.Results| == 2 && Records(result.Results[0], ramp.value)
      && result.Results[1].State == if metricsFailed then Errored else Passed
    requires ramp.Some? ==>
      result.Results[0].State == if ramp.value.runErr.Some? || cleanup.Some? then Errored else Passed
    ensures Reported(result, ramp, metricsFailed, cleanup)
  {
  }

  /** The part of `RunE` once the namespace is ready, with the deferred cleanup. */
  method RunAndCleanUp(c: Cluster, o: DensityOptions, blank: SuiteResult)
    returns (result: SuiteResult, ghost log: RunLog)
    requires c.Valid() && Unfinished(o, 0) && blank.Err == ""
    modifies c
    ensures c.Valid() && OnlyLabelled(old(c.created), c.created, c.run)
    ensures result.Name == blank.Name && result.RunID == blank.RunID
    ensures c.transcript == old(c.transcript) + RunTold(o, c.run, log)
    ensures RunFits(o, c.run, c.capacity, log) && UpdatesOverdue(CleanupTold(c.run, log.cleanup))
    ensures Reported(result, RunOutcome(o, c.run, log), MetricsFailed(c.run, log), CleanupFailure(log.cleanup))
    ensures CleanupFailure(log.cleanup).None? ==> OwnNames(c.vmis, c.run) == {}
  {
    hide Reported, CasesTold, CleanupTold, CleanupFits, CleanupFailure, UpdatesOverdue, RampFits, WarmupFits;
    hide WarmupResult, RampResult;
    var results, metricsFailed;
    results, metricsFailed, log := RunCases(c, o);
    ghost var ramp, told := RunOutcome(o, c.run, log), CasesTold(o, c.run, log);
    result := blank.WithResults(results);
    if metricsFailed {
      result := result.WithError(METRICS_TEXT);
    }
    assert results[0] in results && (ramp.Some? ==> results[1] in results);
    ghost var cleanup, cleaning;
    result, cleanup, cleaning := CleanupRunResult(c, result);
    FinalCleanup(o, c.run, c.capacity, log, cleaning);
    log := log.(cleanup := cleaning);
    Join(old(c.transcript), told, CleanupTold(c.run, cleaning));
    ReportedFrom(result, ramp, metricsFailed, cleanup);
  }

  /** The final cleanup completes the record and touches nothing else of it. */
  lemma FinalCleanup(o: DensityOptions, run: string, capacity: nat, log: RunLog, cleanup: CleanupLog)
    requires Unfinished(o, 0) && RunFits(o, run, capacity, log) && CleanupFits(cleanup)
    ensures var final := log.(cleanup := cleanup);
            && RunFits(o, run, capacity, final)
            && CasesTold(o, run, final) == CasesTold(o, run, log)
            && RunOutcome(o, run, final) == RunOutcome(o, run, log)
            && MetricsFailed(run, final) == MetricsFailed(run, log)
  {
    hide WarmupTold, WarmupFits, WarmupResult, RampTold, RampFits, RampResult, CleanupFits;
  }

  /**
   * `RunE`. `decoded` is the result of decoding the options, and the namespace request is one
   * answer. `log` is what the run observed once the namespace was ready: it is read off the
   * answers of the cluster, which are exactly these, and determines the result. On every path:
   * what was created carries the run's label, and if the final cleanup succeeded none of the run's
   * VMIs is left. Once VMIs may have been created, the suite result carries an error exactly if
   * the metrics or the cleanup failed; a failed cleanup turns the case with the capacity into an
   * ERROR; and the capacity reported is that of the ramp.
   */
  method RunE(c: Cluster, decoded: Option<DensityOptions>) returns (result: SuiteResult, ghost log: Option<RunLog>)
    requires c.Valid()
    modifies c
    ensures c.Valid() && OnlyLabelled(old(c.created), c.created, c.run)
    ensures result.Name == "density" && result.RunID == c.run
    ensures log.None? ==> c.created == old(c.created) && result.Results == [] && result.Err != ""
    ensures decoded.None? || !Valid(decoded.value) ==> log.None? && c.transcript == old(c.transcript)
    ensures decoded.Some? && Valid(decoded.value) ==>
      match log
      case None => exists e :: c.transcript == old(c.transcript) + [RequestSent(Some(e))]
      case Some(l) =>
        && c.transcript == old(c.transcript) + [RequestSent(None)] + RunTold(decoded.value, c.run, l)
        && RunFits(decoded.value, c.run, c.capacity, l)
        && UpdatesOverdue(CleanupTold(c.run, l.cleanup))
        && Reported(result, RunOutcome(decoded.value, c.run, l), MetricsFailed(c.run, l), CleanupFailure(l.cleanup))
        && (CleanupFailure(l.cleanup).None? ==> OwnNames(c.vmis, c.run) == {})
  {
    hide RunTold, RunFits, Reported, UpdatesOverdue, CleanupTold, CleanupFailure, RunOutcome, MetricsFailed;
    result := SuiteResult("density", c.run, [], "");
    log := None;
    if decoded.None? {
      return result.WithError("options not decoded"), log;
    }
    var invalid := Validate(decoded.value);
    if invalid.Some? {
      return result.WithError(InvalidText(invalid.value)), log;
    }
    var namespaceErr := c.Request();
    if namespaceErr.Some? {
      assert c.transcript == old(c.transcript) + [RequestSent(Some(namespaceErr.value))];
      return result.WithError("namespace not ready"), log;
    }
    ghost var l;
    result, l := RunAndCleanUp(c, decoded.value, result);
    log := Some(l);
  }
}
