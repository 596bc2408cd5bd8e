/**
 * The density ramp as a function of what it observes (internal/suites/density/density.go:
 * `createVMIsInBatches`), and what its results mean against any cluster.
 *
 * A `Batch` holds what one turn of the loop can observe, in the order the code asks; a turn that
 * ends early leaves the rest unread. Module Transcript says which answers of the cluster a batch
 * is read from, and the method in module DensitySuite is proved to return `RampOutcome` of the
 * answers it got.
 */
module Ramp {
  import opened Wrappers
  import opened StartupLaws
  import opened VmiStartup
  import opened VmiNames
  import opened ClusterHealth
  import opened Cleanup
  import opened HealthLaws

  /** The options of the suite. `quantitiesParse`: the memory and CPU quantities are well formed. */
  datatype DensityOptions = DensityOptions(
    batchSize: int,
    batchWaitTimeout: int,
    maxVMs: int,
    containerDisk: string,
    quantitiesParse: bool)

  datatype InvalidOption = NegativeMaxVMs | NonPositiveBatchSize | NonPositiveTimeout | NoContainerDisk

  /** `Validate`. */
  function Validate(o: DensityOptions): Option<InvalidOption> {
    if o.maxVMs < 0 then Some(NegativeMaxVMs)
    else if o.batchSize <= 0 then Some(NonPositiveBatchSize)
    else if o.batchWaitTimeout <= 0 then Some(NonPositiveTimeout)
    else if o.containerDisk == "" then Some(NoContainerDisk)
    else None
  }

  predicate Valid(o: DensityOptions) {
    Validate(o).None?
  }

  /** Options are valid exactly if nothing is out of range. */
  lemma ValidIff(o: DensityOptions)
    ensures Valid(o) <==> 0 <= o.maxVMs && 0 < o.batchSize && 0 < o.batchWaitTimeout && o.containerDisk != ""
  {
  }

  datatype CreateError = BadQuantity | CreationCut(ctx: CtxErr) | Rejected(err: ApiErr)

  datatype RunError =
    | NoBaseline
    | PreflightIncomplete
    | PreflightUnhealthy
    | ContextEnded(ctx: CtxErr)
    | CreationFailed(create: CreateError)
    | WaitFailed(wait: WaitError)
    | CountFailed(api: ApiErr)
    | HealthIncomplete

  datatype CapacityStop =
    | StartupTimedOut(wait: WaitError)
    | WrongCount(running: nat, expected: nat)
    | ClusterUnhealthy

  datatype Outcome = Outcome(max: nat, capacityStop: Option<CapacityStop>, runErr: Option<RunError>)

  // ---- Creating VMIs ----

  const RATE_INTERVAL: nat := 100

  datatype VmiSpec = VmiSpec(name: string, runID: string, quantitiesParse: bool)

  /**
   * What the creation of one VMI observes: whether the context ends before the interval has
   * passed, and when the request is sent, how it is answered and whether it takes effect.
   */
  datatype Attempt = Attempt(cut: Option<CtxErr>, at: nat, rejected: Option<ApiErr>, effect: bool)

  predicate Throttled(i: nat, interval: nat) {
    i > 0 && interval > 0
  }

  function AttemptError(spec: VmiSpec, throttled: bool, a: Attempt): Option<CreateError> {
    if throttled && a.cut.Some? then Some(CreationCut(a.cut.value))
    else if !spec.quantitiesParse then Some(BadQuantity)
    else if a.rejected.Some? then Some(Rejected(a.rejected.value))
    else None
  }

  /** The attempts, one for each VMI up to the first that fails, account for the error. */
  ghost predicate Creates(specs: seq<VmiSpec>, interval: nat, attempts: seq<Attempt>, err: Option<CreateError>) {
    && |attempts| <= |specs|
    && (err.None? ==> |attempts| == |specs|)
    && (err.Some? ==> attempts != [])
    && forall i :: 0 <= i < |attempts| ==>
         AttemptError(specs[i], Throttled(i, interval), attempts[i]) == if i == |attempts| - 1 then err else None
  }

  /**
   * Creation succeeds exactly if every VMI was attempted, no wait between two requests was cut
   * off, all quantities were well formed and every request was accepted.
   */
  lemma CreatesAllIff(specs: seq<VmiSpec>, interval: nat, attempts: seq<Attempt>)
    ensures Creates(specs, interval, attempts, None) <==>
            && |attempts| == |specs|
            && forall i :: 0 <= i < |specs| ==>
                 && (i > 0 && interval > 0 ==> attempts[i].cut.None?)
                 && specs[i].quantitiesParse
                 && attempts[i].rejected.None?
  {
    if |attempts| == |specs| {
      forall i | 0 <= i < |specs|
        ensures AttemptError(specs[i], Throttled(i, interval), attempts[i]).None? <==>
                && (i > 0 && interval > 0 ==> attempts[i].cut.None?)
                && specs[i].quantitiesParse && attempts[i].rejected.None?
      {
      }
    }
  }

  /** It fails with the error of the last attempt: the cut wait, else the quantities, else the answer. */
  lemma CreationFails(specs: seq<VmiSpec>, interval: nat, attempts: seq<Attempt>, err: CreateError)
    requires Creates(specs, interval, attempts, Some(err))
    ensures 0 < |attempts| <= |specs|
    ensures forall i :: 0 <= i < |attempts| - 1 ==> specs[i].quantitiesParse && attempts[i].rejected.None?
    ensures var i := |attempts| - 1;
            err == (if i > 0 && interval > 0 && attempts[i].cut.Some? then CreationCut(attempts[i].cut.value)
                    else if !specs[i].quantitiesParse then BadQuantity
                    else Rejected(attempts[i].rejected.value))
  {
    forall i | 0 <= i < |attempts|
      ensures AttemptError(specs[i], Throttled(i, interval), attempts[i])
           == if i == |attempts| - 1 then Some(err) else None
    {
    }
  }

  function BatchSpecs(o: DensityOptions, run: string, first: nat, size: nat): (specs: seq<VmiSpec>)
    ensures |specs| == size
    ensures forall i :: 0 <= i < size ==> specs[i] == VmiSpec(VmiName(run, first + i), run, o.quantitiesParse)
  {
    seq(size, i requires 0 <= i < size => VmiSpec(VmiName(run, first + i), run, o.quantitiesParse))
  }

  // ---- One turn of the loop ----

  /** The VMIs that carry the run's label, by name. */
  type Listing = map<string, Vmi>

  /**
   * What one turn of the loop observes; the four contexts are readings of the parent context,
   * and `creation` is what the attempts lead to.
   */
  datatype Batch = Batch(
    ctxAtHead: Option<CtxErr>,
    attempts: seq<Attempt>,
    creation: Option<CreateError>,
    watch: WatchRun,
    ctxAfterWait: Option<CtxErr>,
    listing: Fetch<Listing>,
    ctxAfterCount: Option<CtxErr>,
    inspection: Inspection,
    ctxAfterHealth: Option<CtxErr>)

  /** What the loop carries from turn to turn. */
  datatype Progress = Progress(maxReady: nat, ledger: Ledger)

  datatype Turn = Ended(outcome: Outcome) | Next(progress: Progress)

  predicate Unfinished(o: DensityOptions, maxReady: nat) {
    Valid(o) && (o.maxVMs > 0 ==> maxReady < o.maxVMs)
  }

  /** `min(BatchSize, MaxVMs-maxReady)`, or the batch size when there is no limit. */
  function BatchSize(o: DensityOptions, maxReady: nat): (size: nat)
    requires Unfinished(o, maxReady)
    ensures 1 <= size <= o.batchSize
    ensures o.maxVMs > 0 ==> maxReady + size <= o.maxVMs
    ensures size < o.batchSize ==> maxReady + size == o.maxVMs
  {
    if o.maxVMs > 0 && o.maxVMs - maxReady < o.batchSize then o.maxVMs - maxReady else o.batchSize
  }

  function BatchNames(run: string, first: nat, size: nat): (names: seq<string>)
    ensures |names| == size
    ensures forall i :: 0 <= i < size ==> names[i] == VmiName(run, first + i)
  {
    seq(size, i requires 0 <= i < size => VmiName(run, first + i))
  }

  function RunningIn(listing: Listing): set<string> {
    set n | n in listing && listing[n].phase == Running
  }

  function Abort(maxReady: nat, e: RunError): Turn {
    Ended(Outcome(maxReady, None, Some(e)))
  }

  function StopAt(maxReady: nat, s: CapacityStop): Turn {
    Ended(Outcome(maxReady, Some(s), None))
  }

  /** One turn of the loop. */
  function Take(o: DensityOptions, run: string, containers: set<Service>, p: Progress, b: Batch): Turn
    requires Unfinished(o, p.maxReady)
  {
    var size := BatchSize(o, p.maxReady);
    if b.ctxAtHead.Some? then Abort(p.maxReady, ContextEnded(b.ctxAtHead.value))
    else if b.creation.Some? then Abort(p.maxReady, CreationFailed(b.creation.value))
    else Await(o, run, containers, p, size, b)
  }

  /** The rest of a turn once the batch is created: the wait, then the count and the health check. */
  function Await(o: DensityOptions, run: string, containers: set<Service>, p: Progress, size: nat, b: Batch): Turn {
    var wait := VmiStartup.Outcome(BatchNames(run, p.maxReady, size), b.watch);
    if b.ctxAfterWait.Some? then Abort(p.maxReady, ContextEnded(b.ctxAfterWait.value))
    else if wait.Some? then
      if wait.value.startupTimeout then StopAt(p.maxReady, StartupTimedOut(wait.value))
      else Abort(p.maxReady, WaitFailed(wait.value))
    else Recheck(o, containers, p, size, b)
  }

  /** The last part of a turn: the count and the health check. */
  function Recheck(o: DensityOptions, containers: set<Service>, p: Progress, size: nat, b: Batch): Turn {
    if b.listing.Err? then Abort(p.maxReady, CountFailed(b.listing.error))
    else if b.ctxAfterCount.Some? then Abort(p.maxReady, ContextEnded(b.ctxAfterCount.value))
    else
      var ready := |RunningIn(b.listing.value)|;
      if ready != p.maxReady + size then StopAt(p.maxReady, WrongCount(ready, p.maxReady + size))
      else
        var h := ClusterVerdict(p.ledger, containers, b.inspection);
        if b.ctxAfterHealth.Some? then Abort(p.maxReady, ContextEnded(b.ctxAfterHealth.value))
        else match h
          case InspectionFailed => Abort(p.maxReady, HealthIncomplete)
          case Unhealthy => StopAt(p.maxReady, ClusterUnhealthy)
          case Healthy =>
            if o.maxVMs > 0 && ready >= o.maxVMs then Ended(Outcome(ready, None, None))
            else Next(Progress(ready, Absorb(p.ledger, Taken(b.inspection))))
  }

  /** The loop, over the batches seen. */
  function Climb(o: DensityOptions, run: string, containers: set<Service>, p: Progress, batches: seq<Batch>): Turn
    requires Unfinished(o, p.maxReady)
    decreases |batches|
  {
    if batches == [] then Next(p)
    else match Take(o, run, containers, p, batches[0])
      case Ended(outcome) => Ended(outcome)
      case Next(q) => Climb(o, run, containers, q, batches[1..])
  }

  /** `createVMIsInBatches` as a whole. */
  function RampOutcome(o: DensityOptions, run: string, baseline: Option<Baseline>, preflight: Inspection,
                       batches: seq<Batch>): Turn
    requires Valid(o)
  {
    if baseline.None? then Abort(0, NoBaseline)
    else match ClusterVerdict(baseline.value.ledger, baseline.value.containers, preflight)
      case InspectionFailed => Abort(0, PreflightIncomplete)
      case Unhealthy => Abort(0, PreflightUnhealthy)
      case Healthy =>
        Climb(o, run, baseline.value.containers, Progress(0, Absorb(baseline.value.ledger, Taken(preflight))), batches)
  }

  // ---- One more turn at the end ----

  lemma {:induction false} ClimbAppend(o: DensityOptions, run: string, containers: set<Service>, p: Progress,
                                       batches: seq<Batch>,
                                       q: Progress, b: Batch)
    requires Unfinished(o, p.maxReady) && Climb(o, run, containers, p, batches) == Next(q)
    ensures Unfinished(o, q.maxReady)
    ensures Climb(o, run, containers, p, batches + [b]) == Take(o, run, containers, q, b)
    decreases |batches|
  {
    hide Take;
    if batches == [] {
      assert (batches + [b])[0] == b && (batches + [b])[1..] == [];
    } else {
      TurnFull(o, run, containers, p, batches[0]);
      ClimbAppend(o, run, containers, Take(o, run, containers, p, batches[0]).progress, batches[1..], q, b);
      assert (batches + [b])[0] == batches[0] && (batches + [b])[1..] == batches[1..] + [b];
    }
  }

  /** The loop from the head of turn `k` on. */
  lemma {:induction false} ClimbFrom(o: DensityOptions, run: string, containers: set<Service>, p: Progress,
                                     batches: seq<Batch>, k: nat, q: Progress)
    requires Unfinished(o, p.maxReady) && Reaches(o, run, containers, p, batches, k, q)
    ensures Unfinished(o, q.maxReady)
    ensures Climb(o, run, containers, p, batches) == Climb(o, run, containers, q, batches[k..])
    decreases k
  {
    hide Take;
    if k == 0 {
      assert batches[..0] == [] && batches[0..] == batches;
    } else {
      var rest := batches[1..];
      assert batches[..k][0] == batches[0] && batches[..k][1..] == rest[..k - 1] && rest[k - 1..] == batches[k..];
      var next := FirstTurn(o, run, containers, p, batches[..k]);
      ClimbFrom(o, run, containers, next, rest, k - 1, q);
    }
  }

  // ---- Classification ----

  /**
   * What a turn must have observed to blame the cluster's capacity. The parent context was never
   * seen to have ended and every VMI was created; and either the deadline passed cleanly (or a
   * lookup that was cut off broke the wait, the one exception), or every VMI ran before it was
   * lost and then the Running VMIs were not those created, or the cluster was inspected and found
   * unhealthy.
   */
  ghost predicate CapacityEvidence(o: DensityOptions, run: string, containers: set<Service>, p: Progress, b: Batch)
    requires Unfinished(o, p.maxReady)
  {
    var names := BatchNames(run, p.maxReady, BatchSize(o, p.maxReady));
    var expected := p.maxReady + BatchSize(o, p.maxReady);
    && b.ctxAtHead.None? && b.creation.None? && b.ctxAfterWait.None?
    && (|| CleanTimeout(names, b.watch)
        || CutOff(names, b.watch)
        || (&& EachRan(names, b.watch)
            && b.listing.Ok? && b.ctxAfterCount.None?
            && (|| |RunningIn(b.listing.value)| != expected
                || (b.ctxAfterHealth.None? && Ill(p.ledger, containers, b.inspection)))))
  }

  /** A turn stops for capacity exactly on that evidence. */
  lemma StopIffEvidence(o: DensityOptions, run: string, containers: set<Service>, p: Progress, b: Batch)
    requires Unfinished(o, p.maxReady) && Sticky(b.watch)
    ensures var t := Take(o, run, containers, p, b);
            (t.Ended? && t.outcome.capacityStop.Some?) <==> CapacityEvidence(o, run, containers, p, b)
  {
    hide VmiStartup.Outcome, EachRan, CleanTimeout, CutOff, ClusterVerdict, Sound, NotInspected;
    var names := BatchNames(run, p.maxReady, BatchSize(o, p.maxReady));
    StartupTimeoutIff(names, b.watch);
    WaitSucceedsIff(names, b.watch);
    VerdictIff(p.ledger, containers, b.inspection);
  }

  /**
   * A turn that counts its batch: the parent context was alive each of the four times it was read,
   * every VMI was created, ran before it was lost, and was counted, and the cluster was then sound.
   */
  ghost predicate GoesWell(o: DensityOptions, run: string, containers: set<Service>, p: Progress, b: Batch)
    requires Unfinished(o, p.maxReady)
  {
    var size := BatchSize(o, p.maxReady);
    && b.ctxAtHead.None? && b.ctxAfterWait.None? && b.ctxAfterCount.None? && b.ctxAfterHealth.None?
    && b.creation.None?
    && EachRan(BatchNames(run, p.maxReady, size), b.watch)
    && b.listing.Ok? && |RunningIn(b.listing.value)| == p.maxReady + size
    && Sound(p.ledger, containers, b.inspection)
  }

  /** The loop goes on, or reports more than before, exactly after such a turn. */
  lemma CountsIffGoesWell(o: DensityOptions, run: string, containers: set<Service>, p: Progress, b: Batch)
    requires Unfinished(o, p.maxReady)
    ensures var t := Take(o, run, containers, p, b);
            (t.Next? || t.outcome.max > p.maxReady) <==> GoesWell(o, run, containers, p, b)
  {
    hide VmiStartup.Outcome, EachRan, ClusterVerdict, Sound, NotInspected;
    WaitSucceedsIff(BatchNames(run, p.maxReady, BatchSize(o, p.maxReady)), b.watch);
    VerdictIff(p.ledger, containers, b.inspection);
  }

  /** A turn ends in a run error exactly if it neither goes well nor has the evidence of a capacity stop. */
  lemma RunErrorIff(o: DensityOptions, run: string, containers: set<Service>, p: Progress, b: Batch)
    requires Unfinished(o, p.maxReady) && Sticky(b.watch)
    ensures var t := Take(o, run, containers, p, b);
            (t.Ended? && t.outcome.runErr.Some?) <==>
            !GoesWell(o, run, containers, p, b) && !CapacityEvidence(o, run, containers, p, b)
  {
    hide Take, GoesWell, CapacityEvidence;
    TurnClassified(o, run, containers, p, b);
    CountsIffGoesWell(o, run, containers, p, b);
    StopIffEvidence(o, run, containers, p, b);
  }

  /** The ways a turn can end, and how far each gets. */
  lemma TurnClassified(o: DensityOptions, run: string, containers: set<Service>, p: Progress, b: Batch)
    requires Unfinished(o, p.maxReady)
    ensures match Take(o, run, containers, p, b)
            case Next(q) => q.maxReady == p.maxReady + o.batchSize && Unfinished(o, q.maxReady)
            case Ended(r) =>
              if r.capacityStop.None? && r.runErr.None? then
                o.maxVMs > 0 && r.max == o.maxVMs == p.maxReady + BatchSize(o, p.maxReady)
              else
                r.max == p.maxReady && (r.capacityStop.None? || r.runErr.None?)
  {
    hide VmiStartup.Outcome, ClusterVerdict;
  }

  /**
   * Every run ends in at most one of a capacity stop and an error, and in neither exactly when
   * the limit was set and reached.
   */
  lemma {:induction false} ClimbClassified(o: DensityOptions, run: string, containers: set<Service>, p: Progress,
                                           batches: seq<Batch>)
    requires Unfinished(o, p.maxReady)
    requires Climb(o, run, containers, p, batches).Ended?
    ensures var r := Climb(o, run, containers, p, batches).outcome;
            && !(r.capacityStop.Some? && r.runErr.Some?)
            && (r.capacityStop.None? && r.runErr.None? <==> o.maxVMs > 0 && r.max == o.maxVMs)
            && (o.maxVMs > 0 ==> r.max <= o.maxVMs)
            && p.maxReady <= r.max
    decreases |batches|
  {
    hide Take;
    TurnClassified(o, run, containers, p, batches[0]);
    match Take(o, run, containers, p, batches[0])
    case Ended(_) =>
    case Next(q) => ClimbClassified(o, run, containers, q, batches[1..]);
  }

  /** The whole function: so classified, and nothing but a run error unless the start was sound. */
  lemma OutcomeClassified(o: DensityOptions, run: string, baseline: Option<Baseline>, preflight: Inspection,
                          batches: seq<Batch>)
    requires Valid(o) && RampOutcome(o, run, baseline, preflight, batches).Ended?
    ensures var r := RampOutcome(o, run, baseline, preflight, batches).outcome;
            && !(r.capacityStop.Some? && r.runErr.Some?)
            && (r.capacityStop.None? && r.runErr.None? <==> o.maxVMs > 0 && r.max == o.maxVMs)
            && (if baseline.Some? && Sound(baseline.value.ledger, baseline.value.containers, preflight) then true
                else r.max == 0 && r.runErr.Some? && r.capacityStop.None?)
  {
    hide ClusterVerdict, Climb, Sound, NotInspected;
    if baseline.Some? {
      VerdictIff(baseline.value.ledger, baseline.value.containers, preflight);
      if Sound(baseline.value.ledger, baseline.value.containers, preflight) {
        ClimbClassified(o, run, baseline.value.containers,
                        Progress(0, Absorb(baseline.value.ledger, Taken(preflight))), batches);
      }
    }
  }

  /** The progress at the head of turn `k`, if the loop gets there. */
  ghost predicate Reaches(o: DensityOptions, run: string, containers: set<Service>, p: Progress, batches: seq<Batch>,
                          k: nat, q: Progress)
    requires Unfinished(o, p.maxReady)
  {
    k <= |batches| && Climb(o, run, containers, p, batches[..k]) == Next(q)
  }

  /** A capacity stop is the verdict of one turn that the loop reached and that had the evidence for it. */
  lemma {:induction false} CapacityStopHasEvidence(o: DensityOptions, run: string, containers: set<Service>,
                                                   p: Progress,
                                                   batches: seq<Batch>)
    returns (k: nat, q: Progress)
    requires Unfinished(o, p.maxReady) && ClimbFits(o, run, containers, p, batches)
    requires Climb(o, run, containers, p, batches).Ended?
    requires Climb(o, run, containers, p, batches).outcome.capacityStop.Some?
    ensures k < |batches| && Reaches(o, run, containers, p, batches, k, q)
    ensures Unfinished(o, q.maxReady) && CapacityEvidence(o, run, containers, q, batches[k])
    ensures Climb(o, run, containers, p, batches).outcome.max == q.maxReady
    decreases |batches|
  {
    hide Take, CapacityEvidence;
    StopIffEvidence(o, run, containers, p, batches[0]);
    TurnClassified(o, run, containers, p, batches[0]);
    match Take(o, run, containers, p, batches[0])
    case Ended(_) =>
      k, q := 0, p;
    case Next(next) =>
      k, q := CapacityStopHasEvidence(o, run, containers, next, batches[1..]);
      OneTurnLater(o, run, containers, p, batches, next, k, q);
      k := k + 1;
  }

  lemma OneTurnLater(o: DensityOptions, run: string, containers: set<Service>, p: Progress, batches: seq<Batch>,
                     next: Progress, k: nat, q: Progress)
    requires Unfinished(o, p.maxReady) && Unfinished(o, next.maxReady)
    requires batches != [] && Take(o, run, containers, p, batches[0]) == Next(next)
    requires Reaches(o, run, containers, next, batches[1..], k, q)
    ensures Reaches(o, run, containers, p, batches, k + 1, q)
  {
    hide Take;
    assert batches[..k + 1][0] == batches[0] && batches[..k + 1][1..] == batches[1..][..k];
  }

  /** Conversely, on the evidence for it the loop stops for capacity. */
  lemma EvidenceStops(o: DensityOptions, run: string, containers: set<Service>, p: Progress, batches: seq<Batch>,
                      k: nat, q: Progress)
    requires Unfinished(o, p.maxReady)
    requires k < |batches| && Sticky(batches[k].watch) && Reaches(o, run, containers, p, batches, k, q)
    requires Unfinished(o, q.maxReady) && CapacityEvidence(o, run, containers, q, batches[k])
    ensures var t := Climb(o, run, containers, p, batches);
            t.Ended? && t.outcome.capacityStop.Some? && t.outcome.max == q.maxReady
  {
    hide Take, CapacityEvidence;
    ClimbFrom(o, run, containers, p, batches, k, q);
    StopIffEvidence(o, run, containers, q, batches[k]);
    TurnClassified(o, run, containers, q, batches[k]);
  }

  // ---- Soundness against any cluster ----

  /** What a cluster keeps to in one turn: the listing shows only VMIs that this run has created by then. */
  ghost predicate TurnFits(o: DensityOptions, run: string, p: Progress, b: Batch)
    requires Unfinished(o, p.maxReady)
  {
    var size := BatchSize(o, p.maxReady);
    && Sticky(b.watch)
    && (b.ctxAtHead.None? ==>
          Creates(BatchSpecs(o, run, p.maxReady, size), RATE_INTERVAL, b.attempts, b.creation))
    && (b.listing.Ok? ==> b.listing.value.Keys <= NamesUpTo(run, p.maxReady + size))
  }

  ghost predicate ClimbFits(o: DensityOptions, run: string, containers: set<Service>, p: Progress, batches: seq<Batch>)
    requires Unfinished(o, p.maxReady)
    decreases |batches|
  {
    batches == [] ||
    (&& TurnFits(o, run, p, batches[0])
     && match Take(o, run, containers, p, batches[0])
        case Ended(_) => true
        case Next(q) => Unfinished(o, q.maxReady) && ClimbFits(o, run, containers, q, batches[1..]))
  }

  lemma {:induction false} ClimbFitsAppend(o: DensityOptions, run: string, containers: set<Service>, p: Progress,
                                           batches: seq<Batch>, q: Progress, b: Batch)
    requires Unfinished(o, p.maxReady) && Climb(o, run, containers, p, batches) == Next(q) && Unfinished(o, q.maxReady)
    requires ClimbFits(o, run, containers, p, batches) && TurnFits(o, run, q, b)
    ensures ClimbFits(o, run, containers, p, batches + [b])
    decreases |batches|
  {
    hide Take, TurnFits;
    if batches == [] {
      assert (batches + [b])[0] == b && (batches + [b])[1..] == [];
      if Take(o, run, containers, q, b).Next? {
        TurnFull(o, run, containers, q, b);
      }
    } else {
      ClimbFitsAppend(o, run, containers, Take(o, run, containers, p, batches[0]).progress, batches[1..], q, b);
      assert (batches + [b])[0] == batches[0] && (batches + [b])[1..] == batches[1..] + [b];
    }
  }

  /**
   * All of VMIs 0 to `m` - 1 are Running in one listing, and the check that follows is healthy
   * against this ledger.
   */
  ghost predicate Sustained(run: string, containers: set<Service>, m: nat, ledger: Ledger, b: Batch) {
    && b.listing.Ok?
    && (forall i :: 0 <= i < m ==>
          VmiName(run, i) in b.listing.value && b.listing.value[VmiName(run, i)].phase == Running)
    && Sound(ledger, containers, b.inspection)
  }

  /**
   * A positive maximum is real: in a turn that the loop reached, all of its VMIs were Running at
   * once and the cluster passed the check that followed, against the ledger of the run at that
   * turn, whatever the cluster did before and after. The code only counts; that the count is of
   * exactly these VMIs is the pigeonhole.
   */
  lemma {:induction false} MaximumSustained(o: DensityOptions, run: string, containers: set<Service>, p: Progress,
                                            batches: seq<Batch>)
    returns (k: nat, q: Progress)
    requires Unfinished(o, p.maxReady) && ClimbFits(o, run, containers, p, batches)
    requires Climb(o, run, containers, p, batches).Ended?
    requires Climb(o, run, containers, p, batches).outcome.max > p.maxReady
    ensures k < |batches| && Reaches(o, run, containers, p, batches, k, q) && Unfinished(o, q.maxReady)
    ensures var max := Climb(o, run, containers, p, batches).outcome.max;
            && max == q.maxReady + BatchSize(o, q.maxReady)
            && Sustained(run, containers, max, q.ledger, batches[k])
            && GoesWell(o, run, containers, q, batches[k])
    decreases |batches|
  {
    hide Take, Sustained, TurnFits, GoesWell;
    var b := batches[0];
    CountsIffGoesWell(o, run, containers, p, b);
    TurnClassified(o, run, containers, p, b);
    match Take(o, run, containers, p, b)
    case Ended(_) =>
      k, q := 0, p;
      TurnSustained(o, run, containers, p, b);
    case Next(next) =>
      if Climb(o, run, containers, p, batches).outcome.max > next.maxReady {
        k, q := MaximumSustained(o, run, containers, next, batches[1..]);
        OneTurnLater(o, run, containers, p, batches, next, k, q);
        k := k + 1;
      } else {
        ClimbClassified(o, run, containers, next, batches[1..]);
        TurnFull(o, run, containers, p, b);
        k, q := 0, p;
        TurnSustained(o, run, containers, p, b);
      }
  }

  /** The turn gets to its health check, and the check is healthy. */
  predicate PassesCheck(o: DensityOptions, run: string, containers: set<Service>, p: Progress, b: Batch)
    requires Unfinished(o, p.maxReady)
  {
    var size := BatchSize(o, p.maxReady);
    && b.ctxAtHead.None? && b.creation.None? && b.ctxAfterWait.None?
    && VmiStartup.Outcome(BatchNames(run, p.maxReady, size), b.watch).None?
    && b.listing.Ok? && b.ctxAfterCount.None?
    && |RunningIn(b.listing.value)| == p.maxReady + size
    && ClusterVerdict(p.ledger, containers, b.inspection) == Healthy
  }

  lemma TurnSustained(o: DensityOptions, run: string, containers: set<Service>, p: Progress, b: Batch)
    requires Unfinished(o, p.maxReady)
    requires TurnFits(o, run, p, b)
    requires var t := Take(o, run, containers, p, b); t.Next? || t.outcome.max > p.maxReady
    ensures Sustained(run, containers, p.maxReady + BatchSize(o, p.maxReady), p.ledger, b)
  {
    hide ClusterVerdict, Sound, NotInspected;
    VerdictIff(p.ledger, containers, b.inspection);
    var m := p.maxReady + BatchSize(o, p.maxReady);
    AllNamesIfAsMany(run, m, RunningIn(b.listing.value));
    forall i | 0 <= i < m ensures VmiName(run, i) in RunningIn(b.listing.value) {
      assert VmiName(run, i) in NamesUpTo(run, m);
    }
  }

  // ---- Bounds ----

  ghost predicate AtMostRunning(capacity: nat, batches: seq<Batch>) {
    forall i :: 0 <= i < |batches| && batches[i].listing.Ok? ==> |RunningIn(batches[i].listing.value)| <= capacity
  }

  /** A turn after which the loop goes on. */
  ghost predicate FullTurn(o: DensityOptions, containers: set<Service>, p: Progress, b: Batch, q: Progress) {
    && q.maxReady == p.maxReady + o.batchSize && Unfinished(o, q.maxReady)
    && b.listing.Ok? && q.maxReady == |RunningIn(b.listing.value)|
    && ClusterVerdict(p.ledger, containers, b.inspection) == Healthy
    && q.ledger == Absorb(p.ledger, Taken(b.inspection))
  }

  lemma TurnFull(o: DensityOptions, run: string, containers: set<Service>, p: Progress, b: Batch)
    requires Unfinished(o, p.maxReady) && Take(o, run, containers, p, b).Next?
    ensures FullTurn(o, containers, p, b, Take(o, run, containers, p, b).progress)
  {
  }

  /** The progress at each loop head of a loop that goes on: one full turn after another. */
  ghost predicate FullTurns(o: DensityOptions, containers: set<Service>, ps: seq<Progress>, batches: seq<Batch>) {
    && |ps| == |batches| + 1
    && forall i {:trigger batches[i]} :: 0 <= i < |batches| ==> FullTurn(o, containers, ps[i], batches[i], ps[i + 1])
  }

  /** The first turn of a loop that goes on. */
  lemma FirstTurn(o: DensityOptions, run: string, containers: set<Service>, p: Progress, batches: seq<Batch>)
    returns (q: Progress)
    requires Unfinished(o, p.maxReady) && batches != [] && Climb(o, run, containers, p, batches).Next?
    ensures Take(o, run, containers, p, batches[0]) == Next(q) && FullTurn(o, containers, p, batches[0], q)
    ensures Climb(o, run, containers, q, batches[1..]) == Climb(o, run, containers, p, batches)
  {
    hide Take;
    TurnFull(o, run, containers, p, batches[0]);
    q := Take(o, run, containers, p, batches[0]).progress;
  }

  lemma {:induction false} Trail(o: DensityOptions, run: string, containers: set<Service>, p: Progress,
                                 batches: seq<Batch>)
    returns (ps: seq<Progress>)
    requires Unfinished(o, p.maxReady) && Climb(o, run, containers, p, batches).Next?
    ensures FullTurns(o, containers, ps, batches)
    ensures ps[0] == p && Climb(o, run, containers, p, batches) == Next(ps[|batches|])
    decreases |batches|
  {
    hide Take;
    if batches == [] {
      ps := [p];
    } else {
      var q := FirstTurn(o, run, containers, p, batches);
      ps := Trail(o, run, containers, q, batches[1..]);
      FullTurnsCons(o, containers, p, ps, batches);
      ps := [p] + ps;
    }
  }

  lemma FullTurnsCons(o: DensityOptions, containers: set<Service>, p: Progress, rest: seq<Progress>,
                      batches: seq<Batch>)
    requires batches != [] && FullTurns(o, containers, rest, batches[1..])
    requires FullTurn(o, containers, p, batches[0], rest[0])
    ensures FullTurns(o, containers, [p] + rest, batches)
    ensures ([p] + rest)[0] == p && ([p] + rest)[|batches|] == rest[|batches| - 1]
  {
    var ps := [p] + rest;
    forall i | 0 <= i < |batches| ensures FullTurn(o, containers, ps[i], batches[i], ps[i + 1]) {
      if i > 0 {
        assert batches[1..][i - 1] == batches[i];
      }
    }
  }

  /** As long as the loop goes on, every batch was full, so the maximum is a multiple of the batch size. */
  lemma FullBatchesOnly(o: DensityOptions, run: string, containers: set<Service>, p: Progress, batches: seq<Batch>,
                        capacity: nat)
    requires Unfinished(o, p.maxReady) && AtMostRunning(capacity, batches)
    requires Climb(o, run, containers, p, batches).Next?
    ensures var q := Climb(o, run, containers, p, batches).progress;
            && q.maxReady == p.maxReady + o.batchSize * |batches|
            && Unfinished(o, q.maxReady)
            && (batches != [] ==> q.maxReady <= capacity)
  {
    hide Take;
    var ps := Trail(o, run, containers, p, batches);
    TrailCounts(o, containers, ps, batches, |batches|);
    if batches != [] {
      assert FullTurn(o, containers, ps[|batches| - 1], batches[|batches| - 1], ps[|batches|]);
    }
  }

  lemma OneMoreBatch(size: int, n: int)
    ensures size * n == size + size * (n - 1)
  {
  }

  lemma {:induction false} TrailCounts(o: DensityOptions, containers: set<Service>, ps: seq<Progress>,
                                       batches: seq<Batch>, n: nat)
    requires FullTurns(o, containers, ps, batches) && n <= |batches|
    ensures ps[n].maxReady == ps[0].maxReady + o.batchSize * n
  {
    hide ClusterVerdict;
    if n > 0 {
      TrailCounts(o, containers, ps, batches, n - 1);
      OneMoreBatch(o.batchSize, n);
      assert FullTurn(o, containers, ps[n - 1], batches[n - 1], ps[n]);
    }
  }

  // ---- The health gate over a whole ramp ----

  /** The checks that the ramp passed, in order; the last is there also if the run then ended. */
  function PassedChecks(o: DensityOptions, run: string, containers: set<Service>, p: Progress, batches: seq<Batch>)
    : seq<Inspection>
    requires Unfinished(o, p.maxReady)
    decreases |batches|
  {
    if batches == [] then []
    else
      (if PassesCheck(o, run, containers, p, batches[0]) then [batches[0].inspection] else []) +
      match Take(o, run, containers, p, batches[0])
      case Ended(_) => []
      case Next(q) => PassedChecks(o, run, containers, q, batches[1..])
  }

  /** A turn that goes on has passed its check, and enters what the check saw in the ledger. */
  lemma NextPassed(o: DensityOptions, run: string, containers: set<Service>, p: Progress, b: Batch)
    requires Unfinished(o, p.maxReady) && Take(o, run, containers, p, b).Next?
    ensures PassesCheck(o, run, containers, p, b)
    ensures Take(o, run, containers, p, b).progress.ledger == Absorb(p.ledger, Taken(b.inspection))
  {
    hide ClusterVerdict, VmiStartup.Outcome;
  }

  lemma CheckPassed(o: DensityOptions, run: string, containers: set<Service>, p: Progress, b: Batch)
    requires Unfinished(o, p.maxReady) && PassesCheck(o, run, containers, p, b)
    ensures ClusterVerdict(p.ledger, containers, b.inspection) == Healthy
  {
  }

  /**
   * The checks of a ramp share one baseline and keep the gate: with the checks before it they
   * are a series to which `HealthOverRun` applies, however the ramp ends.
   */
  lemma {:induction false} ClimbKeepsGate(o: DensityOptions, run: string, containers: set<Service>, p: Progress,
                                          batches: seq<Batch>, ledger: Ledger, checks: seq<Inspection>)
    requires Unfinished(o, p.maxReady)
    requires GateHolds(ledger, containers, checks) && p.ledger == LedgerAfter(ledger, checks)
    ensures var all := checks + PassedChecks(o, run, containers, p, batches);
            && GateHolds(ledger, containers, all)
            && var t := Climb(o, run, containers, p, batches);
               (t.Next? ==> t.progress.ledger == LedgerAfter(ledger, all))
    decreases |batches|
  {
    hide Take, PassesCheck, ClusterVerdict, GateHolds, LedgerAfter, Absorb, Taken;
    if batches != [] {
      var b := batches[0];
      if PassesCheck(o, run, containers, p, b) {
        CheckPassed(o, run, containers, p, b);
        GateExtends(ledger, containers, checks, b.inspection);
      }
      match Take(o, run, containers, p, b)
      case Ended(_) =>
        assert checks + ([b.inspection] + []) == checks + [b.inspection] && checks + ([] + []) == checks;
      case Next(q) =>
        NextPassed(o, run, containers, p, b);
        TurnClassified(o, run, containers, p, b);
        ClimbKeepsGate(o, run, containers, q, batches[1..], ledger, checks + [b.inspection]);
        assert checks + ([b.inspection] + PassedChecks(o, run, containers, q, batches[1..]))
            == checks + [b.inspection] + PassedChecks(o, run, containers, q, batches[1..]);
    } else {
      assert checks + [] == checks;
    }
  }

  /** The preflight check and the checks passed after it. */
  function RampChecks(o: DensityOptions, run: string, baseline: Baseline, preflight: Inspection, batches: seq<Batch>)
    : seq<Inspection>
    requires Unfinished(o, 0)
  {
    [preflight] +
    PassedChecks(o, run, baseline.containers, Progress(0, Absorb(baseline.ledger, Taken(preflight))), batches)
  }

  /**
   * Over a whole ramp that got past its preflight check: the ledger of the baseline only grows,
   * no container instance shows more restarts than its entry in any check passed, and every
   * container of the baseline is present in each of them.
   */
  lemma RampHealthy(o: DensityOptions, run: string, baseline: Baseline, preflight: Inspection, batches: seq<Batch>)
    requires Unfinished(o, 0)
    requires Sound(baseline.ledger, baseline.containers, preflight)
    ensures var checks := RampChecks(o, run, baseline, preflight, batches);
            var after, samples := LedgerAfter(baseline.ledger, checks), AllTaken(checks);
            && GateHolds(baseline.ledger, baseline.containers, checks)
            && Grows(baseline.ledger, after)
            && (forall i :: 0 <= i < |samples| ==>
                  samples[i].instance in after && samples[i].restarts <= after[samples[i].instance])
            && (forall i :: 0 <= i < |checks| ==> baseline.containers <= Services(Taken(checks[i])))
  {
    hide Sound, NotInspected, Take, PassesCheck, ClusterVerdict, Absorb, Taken, PassedChecks, Samples, Services;
    var ledger, containers := baseline.ledger, baseline.containers;
    VerdictIff(ledger, containers, preflight);
    EmptyGate(ledger, containers);
    GateExtends(ledger, containers, [], preflight);
    assert [] + [preflight] == [preflight];
    var start := Progress(0, Absorb(ledger, Taken(preflight)));
    ClimbKeepsGate(o, run, containers, start, batches, ledger, [preflight]);
    HealthOverRun(ledger, containers, RampChecks(o, run, baseline, preflight, batches));
  }

  lemma EmptyGate(ledger: Ledger, containers: set<Service>)
    ensures GateHolds(ledger, containers, []) && LedgerAfter(ledger, []) == ledger
  {
  }

  /**
   * If at most `capacity` VMIs ever run at once, the loop ends: it never goes on after more than
   * `capacity` / batch size full batches.
   */
  lemma ClimbEnds(o: DensityOptions, run: string, containers: set<Service>, ledger: Ledger, batches: seq<Batch>,
                  capacity: nat)
    requires Unfinished(o, 0) && AtMostRunning(capacity, batches)
    requires |batches| > capacity / o.batchSize
    ensures Climb(o, run, containers, Progress(0, ledger), batches).Ended?
  {
    if Climb(o, run, containers, Progress(0, ledger), batches).Next? {
      FullBatchesOnly(o, run, containers, Progress(0, ledger), batches, capacity);
      MultipleFits(o.batchSize, |batches|, capacity);
    }
  }

  lemma MultipleFits(size: nat, n: nat, capacity: nat)
    requires size > 0 && size * n <= capacity
    ensures n <= capacity / size
  {
    assert size * n < size * (capacity / size + 1);
    FactorOrder(size, n, capacity / size + 1);
  }

  lemma FactorOrder(size: nat, m: int, n: int)
    requires size * m < size * n
    ensures m < n
  {
  }

  // ---- Accuracy in a fault-free cluster ----

  /** The deadline passes with nothing lost, nothing unreadable and some VMI not running. */
  ghost predicate CleanlyStuck(names: seq<string>, w: WatchRun) {
    Sticky(w) && LookupsFinish(w.feed) && CleanTimeout(names, w)
  }

  /**
   * A turn in a cluster without faults that can run `capacity` VMIs: a batch starts exactly when
   * the total fits, and stays running and healthy; otherwise it is stuck until its deadline.
   */
  ghost predicate FaultFree(o: DensityOptions, run: string, containers: set<Service>, p: Progress, b: Batch,
                            capacity: nat)
    requires Unfinished(o, p.maxReady)
  {
    var size := BatchSize(o, p.maxReady);
    var names := BatchNames(run, p.maxReady, size);
    && b.ctxAtHead.None? && b.creation.None? && b.ctxAfterWait.None?
    && if p.maxReady + size <= capacity then
         && EachRan(names, b.watch)
         && b.listing.Ok? && RunningIn(b.listing.value) == NamesUpTo(run, p.maxReady + size)
         && b.ctxAfterCount.None? && b.ctxAfterHealth.None?
         && Sound(p.ledger, containers, b.inspection)
       else CleanlyStuck(names, b.watch)
  }

  ghost predicate FaultFreeRun(o: DensityOptions, run: string, containers: set<Service>, p: Progress,
                               batches: seq<Batch>, capacity: nat)
    requires Unfinished(o, p.maxReady)
    decreases |batches|
  {
    batches == [] ||
    (&& FaultFree(o, run, containers, p, batches[0], capacity)
     && match Take(o, run, containers, p, batches[0])
        case Ended(_) => true
        case Next(q) => Unfinished(o, q.maxReady) && FaultFreeRun(o, run, containers, q, batches[1..], capacity))
  }

  /** What one fault-free turn does. */
  lemma FaultFreeTurn(o: DensityOptions, run: string, containers: set<Service>, p: Progress, b: Batch, capacity: nat)
    requires Unfinished(o, p.maxReady) && FaultFree(o, run, containers, p, b, capacity)
    ensures var t, total := Take(o, run, containers, p, b), p.maxReady + BatchSize(o, p.maxReady);
            if total > capacity then
              t.Ended? && t.outcome.max == p.maxReady && t.outcome.runErr.None? &&
              t.outcome.capacityStop.Some? && t.outcome.capacityStop.value.StartupTimedOut?
            else if o.maxVMs > 0 && total == o.maxVMs then t == Ended(Outcome(total, None, None))
            else t.Next? && t.progress.maxReady == total == p.maxReady + o.batchSize
  {
    hide Take, EachRan, Sound, CleanlyStuck;
    var size := BatchSize(o, p.maxReady);
    TurnClassified(o, run, containers, p, b);
    CountsIffGoesWell(o, run, containers, p, b);
    if p.maxReady + size <= capacity {
      NamesUpToSize(run, p.maxReady + size);
      assert |RunningIn(b.listing.value)| == p.maxReady + size;
    } else {
      StuckTurn(o, run, containers, p, b);
    }
  }

  lemma StuckTurn(o: DensityOptions, run: string, containers: set<Service>, p: Progress, b: Batch)
    requires Unfinished(o, p.maxReady)
    requires b.ctxAtHead.None? && b.creation.None? && b.ctxAfterWait.None?
    requires CleanlyStuck(BatchNames(run, p.maxReady, BatchSize(o, p.maxReady)), b.watch)
    ensures var t := Take(o, run, containers, p, b);
            && t.Ended? && t.outcome.max == p.maxReady && t.outcome.runErr.None?
            && t.outcome.capacityStop.Some? && t.outcome.capacityStop.value.StartupTimedOut?
  {
    hide VmiStartup.Outcome, CleanTimeout, Recheck;
    CleanTimeoutIff(BatchNames(run, p.maxReady, BatchSize(o, p.maxReady)), b.watch);
  }

  /** The result the ramp should find: the limit if it fits, else the largest full number of batches. */
  function ExpectedMax(o: DensityOptions, capacity: nat): nat
    requires Valid(o)
  {
    if 0 < o.maxVMs <= capacity then o.maxVMs else o.batchSize * (capacity / o.batchSize)
  }

  /**
   * In a fault-free cluster of the given capacity the ramp reports the limit if that fits, and
   * otherwise stops for capacity at the last full batch, short of the capacity by less than one
   * batch. It applies to every run that has ended, and the loop does end within that many turns.
   */
  lemma CapacityAccurate(o: DensityOptions, run: string, containers: set<Service>, ledger: Ledger,
                         batches: seq<Batch>, capacity: nat)
    requires Valid(o) && FaultFreeRun(o, run, containers, Progress(0, ledger), batches, capacity)
    requires |batches| > capacity / o.batchSize || Climb(o, run, containers, Progress(0, ledger), batches).Ended?
    ensures var t := Climb(o, run, containers, Progress(0, ledger), batches);
            && t.Ended?
            && t.outcome.max == ExpectedMax(o, capacity)
            && t.outcome.runErr.None?
            && (t.outcome.capacityStop.None? <==> 0 < o.maxVMs <= capacity)
            && (t.outcome.capacityStop.Some? ==>
                  t.outcome.capacityStop.value.StartupTimedOut? &&
                  t.outcome.max <= capacity < t.outcome.max + o.batchSize)
  {
    AccurateFrom(o, run, containers, Progress(0, ledger), 0, batches, capacity);
  }

  lemma {:induction false} AccurateFrom(o: DensityOptions, run: string, containers: set<Service>, p: Progress,
                                        done: nat,
                                        batches: seq<Batch>, capacity: nat)
    requires Unfinished(o, p.maxReady) && p.maxReady == o.batchSize * done && p.maxReady <= capacity
    requires FaultFreeRun(o, run, containers, p, batches, capacity)
    requires done + |batches| > capacity / o.batchSize || Climb(o, run, containers, p, batches).Ended?
    ensures var t := Climb(o, run, containers, p, batches);
            && t.Ended?
            && t.outcome.max == ExpectedMax(o, capacity)
            && t.outcome.runErr.None?
            && (t.outcome.capacityStop.None? <==> 0 < o.maxVMs <= capacity)
            && (t.outcome.capacityStop.Some? ==>
                  t.outcome.capacityStop.value.StartupTimedOut? &&
                  t.outcome.max <= capacity < t.outcome.max + o.batchSize)
    decreases |batches|
  {
    hide Take, FaultFree;
    MultipleFits(o.batchSize, done, capacity);
    var b, size := batches[0], BatchSize(o, p.maxReady);
    FaultFreeTurn(o, run, containers, p, b, capacity);
    if p.maxReady + size > capacity {
      LastFullBatch(o.batchSize, done, capacity);
    } else if o.maxVMs > 0 && p.maxReady + size == o.maxVMs {
    } else {
      assert o.batchSize * (done + 1) == o.batchSize * done + o.batchSize;
      AccurateFrom(o, run, containers, Take(o, run, containers, p, b).progress, done + 1, batches[1..], capacity);
    }
  }

  lemma LastFullBatch(size: nat, done: nat, capacity: nat)
    requires size > 0 && size * done <= capacity < size * done + size
    ensures done == capacity / size
  {
    MultipleFits(size, done, capacity);
    assert size * (capacity / size) < size * (done + 1);
    FactorOrder(size, capacity / size, done + 1);
  }

  // ---- Such clusters exist, for every capacity ----

  function StartEvents(names: seq<string>): seq<Delivery> {
    if names == [] then []
    else [Deliver(Event(Modified, true, names[0], true, Running, Ok([])))] + StartEvents(names[1..])
  }

  lemma {:induction false} StartEventsStart(names: seq<string>, n: string)
    requires n in names
    ensures RunsFirst(StartEvents(names), n)
  {
    var feed, rest := StartEvents(names), StartEvents(names[1..]);
    assert feed[1..] == rest;
    if n == names[0] {
      assert TellsFirst(feed, n, 0);
    } else {
      StartEventsStart(names[1..], n);
      var i :| TellsFirst(rest, n, i) && SaysRunning(rest[i]);
      assert forall j :: 0 < j < |feed| ==> feed[j] == rest[j - 1];
      assert TellsFirst(feed, n, i + 1);
    }
  }

  /** One node, ready, and no pods. */
  function SmoothInspection(): Inspection {
    Inspection(Ok([Node([NodeCondition(NodeReady, True)])]), None, Ok([]), Ok([]))
  }

  lemma SmoothIsSound(ledger: Ledger)
    ensures Sound(ledger, {}, SmoothInspection())
  {
    var n := Node([NodeCondition(NodeReady, True)]);
    assert LastReadyAt(n.conditions, 0) && n.conditions[0].status == True;
    assert Taken(SmoothInspection()) == [];
  }

  /** A turn in which the whole batch starts, or all of it is stuck. */
  ghost function SmoothBatch(o: DensityOptions, run: string, p: Progress, capacity: nat): Batch
    requires Unfinished(o, p.maxReady)
  {
    var total := p.maxReady + BatchSize(o, p.maxReady);
    var names := BatchNames(run, p.maxReady, BatchSize(o, p.maxReady));
    var probes := map n | n in names :: Readable(Ok([]));
    var watch :=
      if total <= capacity then WatchRun(StartEvents(names), false, None, None, map[])
      else WatchRun([], true, Some(DeadlineExceeded), Some(DeadlineExceeded), probes);
    var listing := map n | n in NamesUpTo(run, total) :: Vmi(run, Running, None, false);
    Batch(None, [], None, watch, None, Ok(listing), None, SmoothInspection(), None)
  }

  lemma SmoothBatchFaultFree(o: DensityOptions, run: string, p: Progress, capacity: nat)
    requires Unfinished(o, p.maxReady)
    ensures FaultFree(o, run, {}, p, SmoothBatch(o, run, p, capacity), capacity)
  {
    hide Sound, RunsFirst, LostFirst, SmoothInspection;
    var size := BatchSize(o, p.maxReady);
    var names, b := BatchNames(run, p.maxReady, size), SmoothBatch(o, run, p, capacity);
    SmoothIsSound(p.ledger);
    if p.maxReady + size > capacity {
      SmoothlyStuck(names);
    }
    forall n | n in names && p.maxReady + size <= capacity
      ensures RunsFirst(b.watch.feed, n)
    {
      StartEventsStart(names, n);
    }
    assert RunningIn(b.listing.value) == NamesUpTo(run, p.maxReady + size);
  }

  lemma SmoothlyStuck(names: seq<string>)
    requires names != []
    ensures var probes := map n | n in names :: Readable(Ok([]));
            CleanlyStuck(names, WatchRun([], true, Some(DeadlineExceeded), Some(DeadlineExceeded), probes))
  {
    assert names[0] in names;
  }

  /** `CapacityAccurate` speaks of runs that exist, whatever the options, the capacity and the number of turns. */
  lemma {:induction false} FaultFreeRunExists(o: DensityOptions, run: string, p: Progress, capacity: nat, turns: nat)
    returns (batches: seq<Batch>)
    requires Unfinished(o, p.maxReady)
    ensures |batches| == turns && FaultFreeRun(o, run, {}, p, batches, capacity)
    decreases turns
  {
    hide Take, FaultFree, SmoothBatch;
    if turns == 0 {
      batches := [];
    } else {
      var b := SmoothBatch(o, run, p, capacity);
      SmoothBatchFaultFree(o, run, p, capacity);
      var rest: seq<Batch>;
      if Take(o, run, {}, p, b).Next? {
        TurnClassified(o, run, {}, p, b);
        rest := FaultFreeRunExists(o, run, Take(o, run, {}, p, b).progress, capacity, turns - 1);
      } else {
        rest := seq(turns - 1, i => b);
      }
      batches := [b] + rest;
      assert batches[1..] == rest;
    }
  }
}
