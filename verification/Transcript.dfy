/**
 * What a density run hears from the cluster, answer by answer. For every part of the run there is
 * a record of what it observed, a function from the record to the result (modules Ramp and
 * Cleanup), and here a function from the record to the answers it was read from. The methods of
 * module DensitySuite are proved to append exactly these answers to the cluster's transcript.
 */
module Transcript {
  import opened Wrappers
  import opened StartupLaws
  import opened VmiStartup
  import opened VmiNames
  import opened ClusterHealth
  import opened HealthLaws
  import opened Cleanup
  import opened Ramp

  datatype Answer =
    | ContextRead(err: Option<CtxErr>)
    | IntervalWaited(interval: nat, cut: Option<CtxErr>)
    | CreateSent(name: string, runLabel: string, at: int, rejected: Option<ApiErr>, effect: bool)
    | WatchSeen(runLabel: string, watch: WatchRun)
    | ListSeen(runLabel: string, listing: Fetch<map<string, Vmi>>)
    | InspectionSeen(inspection: Inspection)
    | RequestSent(failure: Option<ApiErr>)
    | DeleteSent(runLabel: string, answer: DeleteAnswer)
    | ClockRead(now: int)
    | UpdateSent(name: string, sent: Vmi, at: int, updated: UpdateAnswer)
    | PauseEnded(expired: bool)

  // ---- Creation ----

  /** The attempt gets as far as a request. */
  predicate Sends(spec: VmiSpec, i: nat, interval: nat, a: Attempt) {
    !(Throttled(i, interval) && a.cut.Some?) && spec.quantitiesParse
  }

  function AttemptTold(spec: VmiSpec, i: nat, interval: nat, a: Attempt): seq<Answer> {
    (if Throttled(i, interval) then [IntervalWaited(interval, a.cut)] else []) +
    if Sends(spec, i, interval, a) then [CreateSent(spec.name, spec.runID, a.at, a.rejected, a.effect)] else []
  }

  function CreationTold(specs: seq<VmiSpec>, interval: nat, attempts: seq<Attempt>): seq<Answer> {
    if attempts == [] || |attempts| > |specs| then []
    else
      var last := |attempts| - 1;
      CreationTold(specs, interval, attempts[..last]) + AttemptTold(specs[last], last, interval, attempts[last])
  }

  /** Creation requests are spaced by the interval. */
  ghost predicate Spaced(told: seq<Answer>, interval: nat) {
    forall i, j :: 0 <= i < j < |told| && told[i].CreateSent? && told[j].CreateSent? ==>
      told[i].at + interval <= told[j].at
  }

  ghost predicate SentBy(told: seq<Answer>, now: nat) {
    forall i :: 0 <= i < |told| && told[i].CreateSent? ==> told[i].at <= now
  }

  /** The answers to attempts that succeed: waits and accepted requests in turn, one request for each VMI. */
  lemma {:induction false} CreationToldIs(specs: seq<VmiSpec>, interval: nat, attempts: seq<Attempt>, i: nat)
    requires i < |attempts| <= |specs|
    requires forall j :: 0 <= j < |attempts| ==>
      (j > 0 && interval > 0 ==> attempts[j].cut.None?) && specs[j].quantitiesParse && attempts[j].rejected.None?
    ensures var told := CreationTold(specs, interval, attempts);
            var a, sent := attempts[i], if interval > 0 then 2 * i else i;
            && |told| == (if interval > 0 then 2 * |attempts| - 1 else |attempts|)
            && told[sent] == CreateSent(specs[i].name, specs[i].runID, a.at, None, a.effect)
            && (i > 0 && interval > 0 ==> told[sent - 1] == IntervalWaited(interval, None))
    decreases |attempts|
  {
    var last := |attempts| - 1;
    if last > 0 {
      CreationToldIs(specs, interval, attempts[..last], if i < last then i else 0);
    } else {
      assert CreationTold(specs, interval, attempts[..0]) == [];
    }
  }

  /** The context was alive whenever it was read or waited on. */
  ghost predicate ContextAlive(told: seq<Answer>) {
    forall i :: 0 <= i < |told| ==>
      (told[i].ContextRead? ==> told[i].err.None?) && (told[i].IntervalWaited? ==> told[i].cut.None?)
  }

  lemma AliveConcat(a: seq<Answer>, b: seq<Answer>)
    requires ContextAlive(a) && ContextAlive(b)
    ensures ContextAlive(a + b)
  {
  }

  lemma {:induction false} CreationAlive(specs: seq<VmiSpec>, interval: nat, attempts: seq<Attempt>)
    requires |attempts| <= |specs|
    requires forall i :: 0 <= i < |attempts| ==> Throttled(i, interval) ==> attempts[i].cut.None?
    ensures ContextAlive(CreationTold(specs, interval, attempts))
    decreases |attempts|
  {
    if attempts != [] {
      var last := |attempts| - 1;
      CreationAlive(specs, interval, attempts[..last]);
      AliveConcat(CreationTold(specs, interval, attempts[..last]),
                  AttemptTold(specs[last], last, interval, attempts[last]));
    }
  }

  // ---- The ramp ----

  function TurnTold(o: DensityOptions, run: string, maxReady: nat, b: Batch): seq<Answer>
    requires Unfinished(o, maxReady)
  {
    var size := BatchSize(o, maxReady);
    [ContextRead(b.ctxAtHead)] +
    if b.ctxAtHead.Some? then []
    else
      CreationTold(BatchSpecs(o, run, maxReady, size), RATE_INTERVAL, b.attempts) +
      if b.creation.Some? then [] else AwaitTold(run, maxReady, size, b)
  }

  function AwaitTold(run: string, maxReady: nat, size: nat, b: Batch): seq<Answer> {
    [WatchSeen(run, b.watch), ContextRead(b.ctxAfterWait)] +
    if b.ctxAfterWait.Some? || VmiStartup.Outcome(BatchNames(run, maxReady, size), b.watch).Some? then []
    else RecheckTold(run, maxReady, size, b)
  }

  function RecheckTold(run: string, maxReady: nat, size: nat, b: Batch): seq<Answer> {
    [ListSeen(run, b.listing)] +
    if b.listing.Err? then []
    else
      [ContextRead(b.ctxAfterCount)] +
      if b.ctxAfterCount.Some? || |RunningIn(b.listing.value)| != maxReady + size then []
      else [InspectionSeen(b.inspection), ContextRead(b.ctxAfterHealth)]
  }

  function ClimbTold(o: DensityOptions, run: string, containers: set<Service>, p: Progress, batches: seq<Batch>)
    : seq<Answer>
    requires Unfinished(o, p.maxReady)
    decreases |batches|
  {
    if batches == [] then []
    else
      TurnTold(o, run, p.maxReady, batches[0]) +
      match Take(o, run, containers, p, batches[0])
      case Ended(_) => []
      case Next(q) => ClimbTold(o, run, containers, q, batches[1..])
  }

  /** The answers up to the head of turn `k`, and those from there on. */
  lemma {:induction false} ClimbToldSplit(o: DensityOptions, run: string, containers: set<Service>, p: Progress,
                                          batches: seq<Batch>, k: nat, q: Progress)
    requires Unfinished(o, p.maxReady) && Reaches(o, run, containers, p, batches, k, q) && Unfinished(o, q.maxReady)
    ensures ClimbTold(o, run, containers, p, batches) ==
            ClimbTold(o, run, containers, p, batches[..k]) + ClimbTold(o, run, containers, q, batches[k..])
    decreases k
  {
    hide Take, TurnTold;
    if k == 0 {
      assert batches[..0] == [] && batches[0..] == batches;
    } else {
      var rest := batches[1..];
      assert batches[..k][0] == batches[0] && batches[..k][1..] == rest[..k - 1] && rest[k - 1..] == batches[k..];
      var next := FirstTurn(o, run, containers, p, batches[..k]);
      ClimbToldSplit(o, run, containers, next, rest, k - 1, q);
      var turn, before := TurnTold(o, run, p.maxReady, batches[0]), ClimbTold(o, run, containers, next, rest[..k - 1]);
      Join(turn, before, ClimbTold(o, run, containers, q, rest[k - 1..]));
    }
  }

  lemma Join<T>(a: seq<T>, b: seq<T>, c: seq<T>)
    ensures a + (b + c) == (a + b) + c
  {
  }

  lemma ClimbToldAppend(o: DensityOptions, run: string, containers: set<Service>, p: Progress, batches: seq<Batch>,
                        q: Progress, b: Batch)
    requires Unfinished(o, p.maxReady) && Climb(o, run, containers, p, batches) == Next(q) && Unfinished(o, q.maxReady)
    ensures ClimbTold(o, run, containers, p, batches + [b]) ==
            ClimbTold(o, run, containers, p, batches) + TurnTold(o, run, q.maxReady, b)
  {
    hide Take, TurnTold;
    var k := |batches|;
    assert (batches + [b])[..k] == batches && (batches + [b])[k..] == [b];
    ClimbToldSplit(o, run, containers, p, batches + [b], k, q);
    OneTurnTold(o, run, containers, q, b);
  }

  lemma OneTurnTold(o: DensityOptions, run: string, containers: set<Service>, p: Progress, b: Batch)
    requires Unfinished(o, p.maxReady)
    ensures ClimbTold(o, run, containers, p, [b]) == TurnTold(o, run, p.maxReady, b)
  {
    hide Take, TurnTold;
    assert [b][1..] == [];
    if Take(o, run, containers, p, b).Next? {
      TurnClassified(o, run, containers, p, b);
    }
  }

  /** The questions of a turn that goes well, and the answers it must have had. */
  lemma GoodTurnTold(o: DensityOptions, run: string, containers: set<Service>, p: Progress, b: Batch)
    requires Unfinished(o, p.maxReady) && GoesWell(o, run, containers, p, b)
    ensures TurnTold(o, run, p.maxReady, b) ==
            [ContextRead(None)] +
            CreationTold(BatchSpecs(o, run, p.maxReady, BatchSize(o, p.maxReady)), RATE_INTERVAL, b.attempts) +
            [WatchSeen(run, b.watch), ContextRead(None), ListSeen(run, b.listing), ContextRead(None),
             InspectionSeen(b.inspection), ContextRead(None)]
  {
    hide CreationTold, VmiStartup.Outcome, EachRan, Sound;
    WaitSucceedsIff(BatchNames(run, p.maxReady, BatchSize(o, p.maxReady)), b.watch);
  }

  /** A turn without a run error never saw the context end. */
  lemma TurnContextAlive(o: DensityOptions, run: string, containers: set<Service>, p: Progress, b: Batch)
    requires Unfinished(o, p.maxReady) && TurnFits(o, run, p, b)
    requires var t := Take(o, run, containers, p, b); t.Next? || t.outcome.runErr.None?
    ensures ContextAlive(TurnTold(o, run, p.maxReady, b))
  {
    hide CreationTold, VmiStartup.Outcome, ClusterVerdict, Creates;
    var size := BatchSize(o, p.maxReady);
    var specs := BatchSpecs(o, run, p.maxReady, size);
    CreatesAllIff(specs, RATE_INTERVAL, b.attempts);
    CreationAlive(specs, RATE_INTERVAL, b.attempts);
    AliveConcat([ContextRead(b.ctxAtHead)], CreationTold(specs, RATE_INTERVAL, b.attempts));
    AliveConcat([ContextRead(b.ctxAtHead)] + CreationTold(specs, RATE_INTERVAL, b.attempts),
                AwaitTold(run, p.maxReady, size, b));
    Join([ContextRead(b.ctxAtHead)], CreationTold(specs, RATE_INTERVAL, b.attempts),
         AwaitTold(run, p.maxReady, size, b));
  }

  lemma {:induction false} ClimbContextAlive(o: DensityOptions, run: string, containers: set<Service>, p: Progress,
                                             batches: seq<Batch>)
    requires Unfinished(o, p.maxReady) && ClimbFits(o, run, containers, p, batches)
    requires var t := Climb(o, run, containers, p, batches); t.Next? || t.outcome.runErr.None?
    ensures ContextAlive(ClimbTold(o, run, containers, p, batches))
    decreases |batches|
  {
    hide Take, TurnTold, TurnFits, ContextAlive;
    if batches == [] {
      NothingAlive();
    } else {
      TurnContextAlive(o, run, containers, p, batches[0]);
      match Take(o, run, containers, p, batches[0])
      case Ended(_) => NothingAlive(); AliveConcat(TurnTold(o, run, p.maxReady, batches[0]), []);
      case Next(q) =>
        ClimbContextAlive(o, run, containers, q, batches[1..]);
        AliveConcat(TurnTold(o, run, p.maxReady, batches[0]), ClimbTold(o, run, containers, q, batches[1..]));
    }
  }

  lemma NothingAlive()
    ensures ContextAlive([])
  {
  }

  /** What a ramp observed: the pods for the baseline, the check before the first batch, and the turns. */
  datatype RampLog = RampLog(pods: Inspection, preflight: Inspection, batches: seq<Batch>)

  /** The ramp gets past its preflight check. */
  predicate Starts(log: RampLog) {
    && BaselineOf(log.pods).Some?
    && var baseline := BaselineOf(log.pods).value;
       ClusterVerdict(baseline.ledger, baseline.containers, log.preflight) == Healthy
  }

  /** Where the loop then starts: the ledger of the baseline with what the preflight check added. */
  function StartOf(log: RampLog): Progress
    requires Starts(log)
  {
    Progress(0, Absorb(BaselineOf(log.pods).value.ledger, Taken(log.preflight)))
  }

  function RampTold(o: DensityOptions, run: string, log: RampLog): seq<Answer>
    requires Unfinished(o, 0)
  {
    [InspectionSeen(log.pods)] +
    if BaselineOf(log.pods).None? then []
    else
      [InspectionSeen(log.preflight)] +
      if !Starts(log) then []
      else ClimbTold(o, run, BaselineOf(log.pods).value.containers, StartOf(log), log.batches)
  }

  /** The result of a ramp as the code computes it from the answers. */
  function RampResult(o: DensityOptions, run: string, log: RampLog): Turn
    requires Unfinished(o, 0)
  {
    RampOutcome(o, run, BaselineOf(log.pods), log.preflight, log.batches)
  }

  /** The record of a ramp that ended, in a cluster that runs at most `capacity` of its VMIs at once. */
  ghost predicate RampFits(o: DensityOptions, run: string, capacity: nat, log: RampLog)
    requires Unfinished(o, 0)
  {
    && RampResult(o, run, log).Ended?
    && AtMostRunning(capacity, log.batches)
    && (Starts(log) ==> ClimbFits(o, run, BaselineOf(log.pods).value.containers, StartOf(log), log.batches))
  }

  // ---- Cleanup ----

  function VisitTold(name: string, v: Vmi, visit: Visit): seq<Answer> {
    if v.deletedAt.None? || !v.finalizers then []
    else [ClockRead(visit.at)] +
         match visit.update
         case None => []
         case Some(answer) => [UpdateSent(name, v, visit.at, answer)]
  }

  function VisitsTold(list: map<string, Vmi>, order: seq<string>, visits: map<string, Visit>): seq<Answer> {
    if order == [] then []
    else
      var n := order[|order| - 1];
      VisitsTold(list, order[..|order| - 1], visits) +
      if n in list && n in visits then VisitTold(n, list[n], visits[n]) else []
  }

  lemma {:induction false} VisitsToldFrame(list: map<string, Vmi>, order: seq<string>, visits: map<string, Visit>,
                                           visits': map<string, Visit>)
    requires forall n :: n in order ==> n in visits && n in visits' && visits[n] == visits'[n]
    ensures VisitsTold(list, order, visits) == VisitsTold(list, order, visits')
  {
    if order != [] {
      VisitsToldFrame(list, order[..|order| - 1], visits, visits');
    }
  }

  /** One more object looked at. */
  lemma OneMoreVisit(list: map<string, Vmi>, order: seq<string>, visits: map<string, Visit>, n: string, visit: Visit)
    requires n in list && n !in order && forall m :: m in order ==> m in visits
    ensures VisitsTold(list, order + [n], visits[n := visit]) ==
            VisitsTold(list, order, visits) + VisitTold(n, list[n], visit)
  {
    assert (order + [n])[..|order|] == order;
    VisitsToldFrame(list, order, visits, visits[n := visit]);
  }

  function PollTold(run: string, p: Poll): seq<Answer> {
    [ListSeen(run, p.listing)] +
    if p.listing.Err? || p.listing.value == map[] then []
    else VisitsTold(p.listing.value, p.order, p.visits) + if Refused(p) then [] else [PauseEnded(p.expired)]
  }

  function PollsTold(run: string, polls: seq<Poll>): seq<Answer> {
    if polls == [] then []
    else PollsTold(run, polls[..|polls| - 1]) + PollTold(run, polls[|polls| - 1])
  }

  datatype CleanupLog = CleanupLog(deletion: DeleteAnswer, polls: seq<Poll>)

  function CleanupTold(run: string, log: CleanupLog): seq<Answer> {
    [DeleteSent(run, log.deletion)] + PollsTold(run, log.polls)
  }

  /** The record of a cleanup that ended. */
  ghost predicate CleanupFits(log: CleanupLog) {
    && CleanupResultOf(log.deletion, log.polls).Finished?
    && (log.deletion == DeleteRefused ==> log.polls == [])
    && (log.polls != [] ==> PollAll(log.polls[..|log.polls| - 1]) == Polling)
    && forall i :: 0 <= i < |log.polls| ==> PollFits(log.polls[i])
  }

  function CleanupFailure(log: CleanupLog): Option<CleanupError> {
    match CleanupResultOf(log.deletion, log.polls)
    case Finished(err) => err
    case Polling => None
  }

  /** Every update sent is of an object with finalizers that had been marked deleted for more than 30 seconds. */
  ghost predicate UpdatesOverdue(told: seq<Answer>) {
    forall i :: 0 <= i < |told| && told[i].UpdateSent? ==>
      && told[i].sent.deletedAt.Some? && told[i].sent.finalizers
      && told[i].sent.deletedAt.value + 30_000 < told[i].at
  }

  ghost predicate AsListed(a: Answer, list: map<string, Vmi>) {
    a.UpdateSent? && a.name in list && a.sent == list[a.name]
  }

  /** Every update sent is of an object as the list showed it. */
  ghost predicate UpdatesAsListed(told: seq<Answer>, list: map<string, Vmi>) {
    forall i :: 0 <= i < |told| && told[i].UpdateSent? ==> AsListed(told[i], list)
  }

  lemma {:induction false} VisitsUpdateOverdue(list: map<string, Vmi>, order: seq<string>, visits: map<string, Visit>)
    requires forall n :: n in visits && n in list ==> (visits[n].update.Some? <==> Overdue(list[n], visits[n].at))
    ensures UpdatesOverdue(VisitsTold(list, order, visits))
    ensures UpdatesAsListed(VisitsTold(list, order, visits), list)
  {
    if order != [] {
      var told, front := VisitsTold(list, order, visits), VisitsTold(list, order[..|order| - 1], visits);
      VisitsUpdateOverdue(list, order[..|order| - 1], visits);
      forall i | 0 <= i < |told| && told[i].UpdateSent?
        ensures AsListed(told[i], list) && Overdue(told[i].sent, told[i].at)
      {
        assert i < |front| ==> told[i] == front[i];
      }
    }
  }

  lemma {:induction false} PollsUpdateOverdue(run: string, polls: seq<Poll>)
    requires forall i :: 0 <= i < |polls| ==> PollFits(polls[i])
    ensures UpdatesOverdue(PollsTold(run, polls))
  {
    if polls != [] {
      var p := polls[|polls| - 1];
      PollsUpdateOverdue(run, polls[..|polls| - 1]);
      if p.listing.Ok? {
        VisitsUpdateOverdue(p.listing.value, p.order, p.visits);
      }
    }
  }

  lemma CleanupUpdatesOverdue(run: string, log: CleanupLog)
    requires CleanupFits(log)
    ensures UpdatesOverdue(CleanupTold(run, log))
  {
    PollsUpdateOverdue(run, log.polls);
  }

  // ---- How a cleanup ends, by what it was told ----

  predicate UpdateWasRefused(a: Answer) {
    a.UpdateSent? && a.updated == UpdateRefused
  }

  ghost predicate SomeRefused(told: seq<Answer>) {
    exists j :: 0 <= j < |told| && UpdateWasRefused(told[j])
  }

  ghost predicate SomeListFailed(told: seq<Answer>) {
    exists j :: 0 <= j < |told| && told[j].ListSeen? && told[j].listing.Err?
  }

  ghost predicate SomeExpired(told: seq<Answer>) {
    exists j :: 0 <= j < |told| && told[j] == PauseEnded(true)
  }

  ghost predicate NothingDeleted(told: seq<Answer>) {
    forall j :: 0 <= j < |told| ==> !told[j].DeleteSent?
  }

  /** Two parts of a cleanup's answers, together. */
  lemma AnswersConcat(a: seq<Answer>, b: seq<Answer>)
    ensures SomeRefused(a + b) <==> SomeRefused(a) || SomeRefused(b)
    ensures SomeListFailed(a + b) <==> SomeListFailed(a) || SomeListFailed(b)
    ensures SomeExpired(a + b) <==> SomeExpired(a) || SomeExpired(b)
    ensures NothingDeleted(a + b) <==> NothingDeleted(a) && NothingDeleted(b)
  {
    var all := a + b;
    forall j | 0 <= j < |a| ensures all[j] == a[j] {
    }
    forall j | 0 <= j < |b| ensures all[|a| + j] == b[j] {
    }
    forall j | |a| <= j < |all| ensures all[j] == b[j - |a|] {
    }
  }

  lemma OneAnswer(a: Answer)
    ensures SomeRefused([a]) <==> UpdateWasRefused(a)
    ensures SomeListFailed([a]) <==> a.ListSeen? && a.listing.Err?
    ensures SomeExpired([a]) <==> a == PauseEnded(true)
    ensures NothingDeleted([a]) <==> !a.DeleteSent?
  {
    assert [a][0] == a;
  }

  lemma NoAnswer()
    ensures !SomeRefused([]) && !SomeListFailed([]) && !SomeExpired([]) && NothingDeleted([])
  {
  }

  lemma {:induction false} VisitsToldRefused(list: map<string, Vmi>, order: seq<string>, visits: map<string, Visit>)
    requires forall n :: n in order ==> n in visits && n in list
    requires forall n :: n in order ==> (visits[n].update.Some? <==> Overdue(list[n], visits[n].at))
    ensures var told := VisitsTold(list, order, visits);
            && (SomeRefused(told) <==> exists n :: n in order && visits[n].update == Some(UpdateRefused))
            && !SomeListFailed(told) && !SomeExpired(told) && NothingDeleted(told)
            && (told == [] || !told[|told| - 1].ListSeen?)
  {
    hide SomeRefused, SomeListFailed, SomeExpired, NothingDeleted;
    NoAnswer();
    if order != [] {
      var front, last := order[..|order| - 1], order[|order| - 1];
      assert order == front + [last];
      VisitsToldRefused(list, front, visits);
      VisitAnswers(last, list[last], visits[last]);
      AnswersConcat(VisitsTold(list, front, visits), VisitTold(last, list[last], visits[last]));
    }
  }

  lemma VisitAnswers(name: string, v: Vmi, visit: Visit)
    requires visit.update.Some? <==> Overdue(v, visit.at)
    ensures var told := VisitTold(name, v, visit);
            && (SomeRefused(told) <==> visit.update == Some(UpdateRefused))
            && !SomeListFailed(told) && !SomeExpired(told) && NothingDeleted(told)
            && (told == [] || !told[|told| - 1].ListSeen?)
  {
    hide SomeRefused, SomeListFailed, SomeExpired, NothingDeleted;
    NoAnswer();
    OneAnswer(ClockRead(visit.at));
    if visit.update.Some? {
      OneAnswer(UpdateSent(name, v, visit.at, visit.update.value));
      AnswersConcat([ClockRead(visit.at)], [UpdateSent(name, v, visit.at, visit.update.value)]);
    } else {
      AnswersConcat([ClockRead(visit.at)], []);
    }
  }

  /** The answers to a poll tell how it ended. */
  ghost predicate PollTells(told: seq<Answer>, run: string, p: Poll) {
    && told != []
    && (SomeRefused(told) <==> EndOf(p) == Stopped(StripFailed))
    && (SomeListFailed(told) <==> EndOf(p) == Stopped(ListFailed))
    && (SomeExpired(told) <==> EndOf(p) == Stopped(DeletionNotFinished))
    && (told[|told| - 1] == ListSeen(run, Ok(map[])) <==> EndOf(p) == Clean)
    && NothingDeleted(told)
  }

  lemma PollToldTells(run: string, p: Poll)
    requires PollFits(p)
    ensures PollTells(PollTold(run, p), run, p)
  {
    hide VisitsTold, Overdue, SomeRefused, SomeListFailed, SomeExpired, NothingDeleted;
    OneAnswer(ListSeen(run, p.listing));
    if p.listing.Ok? && p.listing.value != map[] {
      var visits := VisitsTold(p.listing.value, p.order, p.visits);
      VisitsToldRefused(p.listing.value, p.order, p.visits);
      NoAnswer();
      OneAnswer(PauseEnded(p.expired));
      if Refused(p) {
        RefusedInOrder(p);
      }
      var pause := if Refused(p) then [] else [PauseEnded(p.expired)];
      AnswersConcat(visits, pause);
      AnswersConcat([ListSeen(run, p.listing)], visits + pause);
    } else {
      assert PollTold(run, p) == [ListSeen(run, p.listing)];
    }
  }

  lemma RefusedInOrder(p: Poll)
    requires PollFits(p) && Refused(p)
    ensures exists n :: n in p.order && p.visits[n].update == Some(UpdateRefused)
  {
    var n :| n in p.visits && p.visits[n].update == Some(UpdateRefused);
    assert n in p.order;
  }

  lemma {:induction false} PollsToldHarmless(run: string, polls: seq<Poll>)
    requires forall i :: 0 <= i < |polls| ==> PollFits(polls[i]) && EndOf(polls[i]) == GoOn
    ensures var told := PollsTold(run, polls);
            !SomeRefused(told) && !SomeListFailed(told) && !SomeExpired(told) && NothingDeleted(told)
  {
    hide PollTold, PollFits, EndOf, SomeRefused, SomeListFailed, SomeExpired, NothingDeleted;
    NoAnswer();
    if polls != [] {
      var front, last := polls[..|polls| - 1], polls[|polls| - 1];
      PollsToldHarmless(run, front);
      PollToldTells(run, last);
      AnswersConcat(PollsTold(run, front), PollTold(run, last));
    }
  }

  /**
   * How a cleanup ended is to be seen in its answers: the deletion was refused; or a list failed; or
   * an update was refused (a conflict or a missing object is no refusal); or the deadline passed
   * during a pause; or the last answer is a list without objects, and it succeeded.
   */
  lemma CleanupByAnswers(run: string, log: CleanupLog)
    requires CleanupFits(log)
    ensures var told, failure := CleanupTold(run, log), CleanupFailure(log);
            && (failure == Some(DeleteFailed) <==> told[0] == DeleteSent(run, DeleteRefused))
            && (failure == Some(ListFailed) <==> SomeListFailed(told))
            && (failure == Some(StripFailed) <==> SomeRefused(told))
            && (failure == Some(DeletionNotFinished) <==> SomeExpired(told))
            && (failure == None <==> told[|told| - 1] == ListSeen(run, Ok(map[])))
  {
    hide PollTold, PollFits, EndOf, SomeRefused, SomeListFailed, SomeExpired, NothingDeleted;
    OneAnswer(DeleteSent(run, log.deletion));
    if log.polls == [] {
      assert CleanupTold(run, log) == [DeleteSent(run, log.deletion)];
    } else {
      var front, last := log.polls[..|log.polls| - 1], log.polls[|log.polls| - 1];
      PollingGoesOn(front);
      LastPollDecides(log.polls);
      PollsToldHarmless(run, front);
      PollToldTells(run, last);
      EndsAre(last);
      AnswersConcat(PollsTold(run, front), PollTold(run, last));
      AnswersConcat([DeleteSent(run, log.deletion)], PollsTold(run, log.polls));
    }
  }

  lemma EndsAre(p: Poll)
    ensures EndOf(p) in {GoOn, Clean, Stopped(ListFailed), Stopped(StripFailed), Stopped(DeletionNotFinished)}
  {
  }

  // ---- A whole run ----

  datatype WarmupError =
    | WarmupCreate(create: CreateError)
    | WarmupWait(wait: WaitError)
    | WarmupCleanup(cleanup: CleanupError)

  datatype WarmupLog = WarmupLog(
    attempts: seq<Attempt>,
    creation: Option<CreateError>,
    watch: WatchRun,
    cleanup: CleanupLog)

  function WarmupSpec(o: DensityOptions, run: string): VmiSpec {
    VmiSpec(WarmupName(run), run, o.quantitiesParse)
  }

  /** What `warmup` returns. */
  function WarmupResult(run: string, log: WarmupLog): Option<WarmupError> {
    var wait := VmiStartup.Outcome([WarmupName(run)], log.watch);
    if log.creation.Some? then Some(WarmupCreate(log.creation.value))
    else if wait.Some? then Some(WarmupWait(wait.value))
    else match CleanupFailure(log.cleanup)
      case Some(e) => Some(WarmupCleanup(e))
      case None => None
  }

  function WarmupTold(o: DensityOptions, run: string, log: WarmupLog): seq<Answer> {
    CreationTold([WarmupSpec(o, run)], 0, log.attempts) +
    if log.creation.Some? then []
    else
      [WatchSeen(run, log.watch)] +
      if VmiStartup.Outcome([WarmupName(run)], log.watch).Some? then [] else CleanupTold(run, log.cleanup)
  }

  ghost predicate WarmupFits(o: DensityOptions, run: string, log: WarmupLog) {
    && Creates([WarmupSpec(o, run)], 0, log.attempts, log.creation)
    && CleanupFits(log.cleanup)
  }

  /**
   * The warm-up succeeds exactly if its VMI was created, ran before it was lost, and was cleaned up.
   */
  lemma WarmupSucceedsIff(o: DensityOptions, run: string, log: WarmupLog)
    requires WarmupFits(o, run, log)
    ensures WarmupResult(run, log).None? <==>
            && |log.attempts| == 1 && o.quantitiesParse && log.attempts[0].rejected.None?
            && RunsFirst(log.watch.feed, run + "-density-warmup")
            && CleanupFailure(log.cleanup).None?
  {
    hide VmiStartup.Outcome, RunsFirst, CleanupFailure, CleanupFits;
    var specs := [WarmupSpec(o, run)];
    CreatesAllIff(specs, 0, log.attempts);
    if log.creation.Some? {
      CreationFails(specs, 0, log.attempts, log.creation.value);
      assert specs[0] == WarmupSpec(o, run);
    }
    WaitSucceedsIff([WarmupName(run)], log.watch);
    assert WarmupName(run) in [WarmupName(run)] && specs[0].quantitiesParse == o.quantitiesParse;
  }

  /** Everything a run observed once its namespace was ready. */
  datatype RunLog = RunLog(warmup: WarmupLog, ramp: RampLog, metrics: Option<ApiErr>, cleanup: CleanupLog)

  /** The warm-up succeeded, so the ramp was run and its metrics collected. */
  predicate Ramps(run: string, log: RunLog) {
    WarmupResult(run, log.warmup).None?
  }

  /** The answers up to the final cleanup. */
  function CasesTold(o: DensityOptions, run: string, log: RunLog): seq<Answer>
    requires Unfinished(o, 0)
  {
    WarmupTold(o, run, log.warmup) +
    if Ramps(run, log) then RampTold(o, run, log.ramp) + [RequestSent(log.metrics)] else []
  }

  function RunTold(o: DensityOptions, run: string, log: RunLog): seq<Answer>
    requires Unfinished(o, 0)
  {
    CasesTold(o, run, log) + CleanupTold(run, log.cleanup)
  }

  ghost predicate RunFits(o: DensityOptions, run: string, capacity: nat, log: RunLog)
    requires Unfinished(o, 0)
  {
    && WarmupFits(o, run, log.warmup)
    && (Ramps(run, log) ==> RampFits(o, run, capacity, log.ramp))
    && CleanupFits(log.cleanup)
  }

  /** The outcome of the ramp, if it was run. */
  function RunOutcome(o: DensityOptions, run: string, log: RunLog): Option<Ramp.Outcome>
    requires Unfinished(o, 0)
  {
    if !Ramps(run, log) then None
    else match RampResult(o, run, log.ramp)
      case Ended(r) => Some(r)
      case Next(_) => None
  }

  predicate MetricsFailed(run: string, log: RunLog) {
    Ramps(run, log) && log.metrics.Some?
  }

  // ---- What the answers behind a reported result were ----

  /**
   * Any maximum above zero that a ramp reports was sustained: in a turn that the loop reached, the
   * cluster listed all of its VMIs as Running at once, and the next thing the cluster answered was
   * an inspection that is sound against the ledger of the run at that turn; the context was read
   * between the two and after, and was alive.
   */
  lemma ReportedMaximumSustained(o: DensityOptions, run: string, capacity: nat, log: RampLog)
    returns (k: nat, q: Progress, before: seq<Answer>, after: seq<Answer>)
    requires Unfinished(o, 0) && RampFits(o, run, capacity, log)
    requires RampResult(o, run, log).outcome.max > 0
    ensures Starts(log) && k < |log.batches|
    ensures Reaches(o, run, BaselineOf(log.pods).value.containers, StartOf(log), log.batches, k, q)
    ensures Sustained(run, BaselineOf(log.pods).value.containers, RampResult(o, run, log).outcome.max, q.ledger,
                      log.batches[k])
    ensures RampTold(o, run, log) == before + Proof(run, log.batches[k]) + after
  {
    hide Climb, ClimbTold, TurnTold, GoesWell, Sustained, ClimbFits, ClusterVerdict;
    var containers, start, batches := BaselineOf(log.pods).value.containers, StartOf(log), log.batches;
    k, q := MaximumSustained(o, run, containers, start, batches);
    ClimbToldSplit(o, run, containers, start, batches, k, q);
    var rest := FirstTurnTold(o, run, containers, q, batches[k..]);
    var b := GoodTurnEnds(o, run, containers, q, batches[k]);
    var head := [InspectionSeen(log.pods)] + [InspectionSeen(log.preflight)];
    before := head + ClimbTold(o, run, containers, start, batches[..k]) + b;
    after := rest;
  }

  /** The answers that prove a maximum: the listing, the inspection, and a context alive after each. */
  function Proof(run: string, b: Batch): seq<Answer> {
    [ListSeen(run, b.listing), ContextRead(None), InspectionSeen(b.inspection), ContextRead(None)]
  }

  lemma GoodTurnEnds(o: DensityOptions, run: string, containers: set<Service>, p: Progress, b: Batch)
    returns (before: seq<Answer>)
    requires Unfinished(o, p.maxReady) && GoesWell(o, run, containers, p, b)
    ensures TurnTold(o, run, p.maxReady, b) == before + Proof(run, b)
  {
    hide TurnTold, CreationTold, EachRan, Sound;
    GoodTurnTold(o, run, containers, p, b);
    before := [ContextRead(None)] +
              CreationTold(BatchSpecs(o, run, p.maxReady, BatchSize(o, p.maxReady)), RATE_INTERVAL, b.attempts) +
              [WatchSeen(run, b.watch), ContextRead(None)];
  }

  /** The same for a whole run: the evidence for the maximum it reports is in its transcript. */
  lemma RunMaximumSustained(o: DensityOptions, run: string, capacity: nat, log: RunLog)
    returns (k: nat, q: Progress, before: seq<Answer>, after: seq<Answer>)
    requires Unfinished(o, 0) && RunFits(o, run, capacity, log)
    requires RunOutcome(o, run, log).Some? && RunOutcome(o, run, log).value.max > 0
    ensures Starts(log.ramp) && k < |log.ramp.batches|
    ensures Reaches(o, run, BaselineOf(log.ramp.pods).value.containers, StartOf(log.ramp), log.ramp.batches, k, q)
    ensures Sustained(run, BaselineOf(log.ramp.pods).value.containers, RunOutcome(o, run, log).value.max, q.ledger,
                      log.ramp.batches[k])
    ensures RunTold(o, run, log) == before + Proof(run, log.ramp.batches[k]) + after
  {
    hide WarmupTold, RampTold, CleanupTold, RampFits, RampResult, Sustained, Reaches, WarmupFits, WarmupResult;
    hide CleanupFits, Proof;
    var b, a;
    k, q, b, a := ReportedMaximumSustained(o, run, capacity, log.ramp);
    before := WarmupTold(o, run, log.warmup) + b;
    after := a + [RequestSent(log.metrics)] + CleanupTold(run, log.cleanup);
  }

  /** A ramp that ends without a run error never saw its context end. */
  lemma RampContextAlive(o: DensityOptions, run: string, capacity: nat, log: RampLog)
    requires Unfinished(o, 0) && RampFits(o, run, capacity, log)
    requires RampResult(o, run, log).outcome.runErr.None?
    ensures Starts(log) && ContextAlive(RampTold(o, run, log))
  {
    hide Climb, ClimbTold, ClimbFits, ClusterVerdict;
    ClimbContextAlive(o, run, BaselineOf(log.pods).value.containers, StartOf(log), log.batches);
    AliveConcat([InspectionSeen(log.pods), InspectionSeen(log.preflight)],
                ClimbTold(o, run, BaselineOf(log.pods).value.containers, StartOf(log), log.batches));
    Join([InspectionSeen(log.pods)], [InspectionSeen(log.preflight)],
         ClimbTold(o, run, BaselineOf(log.pods).value.containers, StartOf(log), log.batches));
  }

  lemma FirstTurnTold(o: DensityOptions, run: string, containers: set<Service>, p: Progress, batches: seq<Batch>)
    returns (rest: seq<Answer>)
    requires Unfinished(o, p.maxReady) && batches != []
    ensures ClimbTold(o, run, containers, p, batches) == TurnTold(o, run, p.maxReady, batches[0]) + rest
  {
    hide Take, TurnTold;
    match Take(o, run, containers, p, batches[0])
    case Ended(_) => rest := [];
    case Next(next) =>
      TurnClassified(o, run, containers, p, batches[0]);
      rest := ClimbTold(o, run, containers, next, batches[1..]);
  }

  /**
   * Any capacity stop that a ramp reports is the verdict of a turn that the loop reached and that
   * had the evidence for it.
   */
  lemma ReportedStopHasEvidence(o: DensityOptions, run: string, capacity: nat, log: RampLog)
    returns (k: nat, q: Progress)
    requires Unfinished(o, 0) && RampFits(o, run, capacity, log)
    requires RampResult(o, run, log).outcome.capacityStop.Some?
    ensures Starts(log) && k < |log.batches|
    ensures Reaches(o, run, BaselineOf(log.pods).value.containers, StartOf(log), log.batches, k, q)
    ensures Unfinished(o, q.maxReady) && q.maxReady == RampResult(o, run, log).outcome.max
    ensures CapacityEvidence(o, run, BaselineOf(log.pods).value.containers, q, log.batches[k])
  {
    hide Climb, ClimbFits, CapacityEvidence, ClusterVerdict;
    k, q := CapacityStopHasEvidence(o, run, BaselineOf(log.pods).value.containers, StartOf(log), log.batches);
  }

  /** In a fault-free cluster the ramp reports what it should find. */
  lemma ReportedCapacityAccurate(o: DensityOptions, run: string, capacity: nat, log: RampLog)
    requires Unfinished(o, 0) && RampFits(o, run, capacity, log) && Starts(log)
    requires FaultFreeRun(o, run, BaselineOf(log.pods).value.containers, StartOf(log), log.batches, capacity)
    ensures var r := RampResult(o, run, log).outcome;
            && r.max == ExpectedMax(o, capacity) && r.runErr.None?
            && (r.capacityStop.None? <==> 0 < o.maxVMs <= capacity)
  {
    hide Climb, ClimbFits, FaultFreeRun, ClusterVerdict;
    CapacityAccurate(o, run, BaselineOf(log.pods).value.containers, StartOf(log).ledger, log.batches, capacity);
  }
}
