/**
 * The cleanup poll loop (internal/suites/density/density.go: `cleanup`) as a function of what it
 * observes, and its progress when the cluster cooperates. Times are in milliseconds.
 */
module Cleanup {
  import opened Wrappers
  import opened VmiStartup

  const DEADLINE: nat := 300_000
  const GRACE: nat := 30_000
  const POLL_INTERVAL: nat := 1_000

  /** A VMI object: its run label, phase, deletion mark and whether finalizers hold it. */
  datatype Vmi = Vmi(runLabel: string, phase: Phase, deletedAt: Option<int>, finalizers: bool)

  datatype DeleteAnswer = DeleteAccepted | DeleteNotFound | DeleteRefused

  datatype UpdateAnswer = Updated | UpdateNotFound | UpdateConflict | UpdateRefused

  datatype CleanupError = DeleteFailed | ListFailed | StripFailed | DeletionNotFinished

  /** One look at a listed object: the clock when its age was taken, and the answer to the update if one was sent. */
  datatype Visit = Visit(at: int, update: Option<UpdateAnswer>)

  /**
   * One turn of the loop: the list, the objects looked at in order, and whether the deadline
   * passed before the next turn.
   */
  datatype Poll = Poll(
    listing: Fetch<map<string, Vmi>>,
    order: seq<string>,
    visits: map<string, Visit>,
    expired: bool)

  /** The finalizers of an object are removed only after it has been marked deleted for more than 30 seconds. */
  predicate Overdue(v: Vmi, at: int) {
    v.deletedAt.Some? && v.finalizers && at - v.deletedAt.value > GRACE
  }

  predicate Refused(p: Poll) {
    exists n :: n in p.visits && p.visits[n].update == Some(UpdateRefused)
  }

  /**
   * What a poll keeps to: each listed object is looked at once, until an update is refused, and
   * updates are sent for the overdue objects and for no others.
   */
  ghost predicate PollFits(p: Poll) {
    && (forall n :: n in p.order <==> n in p.visits)
    && (forall i, j :: 0 <= i < j < |p.order| ==> p.order[i] != p.order[j])
    && (p.listing.Ok? ==>
          && p.visits.Keys <= p.listing.value.Keys
          && (!Refused(p) ==> p.visits.Keys == p.listing.value.Keys)
          && forall n :: n in p.visits ==> (p.visits[n].update.Some? <==> Overdue(p.listing.value[n], p.visits[n].at)))
  }

  datatype PollEnd = Clean | Stopped(err: CleanupError) | GoOn

  function EndOf(p: Poll): PollEnd {
    if p.listing.Err? then Stopped(ListFailed)
    else if p.listing.value == map[] then Clean
    else if Refused(p) then Stopped(StripFailed)
    else if p.expired then Stopped(DeletionNotFinished)
    else GoOn
  }

  datatype CleanupResult = Finished(err: Option<CleanupError>) | Polling

  function PollAll(polls: seq<Poll>): CleanupResult {
    if polls == [] then Polling
    else match EndOf(polls[0])
      case Clean => Finished(None)
      case Stopped(e) => Finished(Some(e))
      case GoOn => PollAll(polls[1..])
  }

  function CleanupResultOf(deletion: DeleteAnswer, polls: seq<Poll>): CleanupResult {
    if deletion == DeleteRefused then Finished(Some(DeleteFailed)) else PollAll(polls)
  }

  lemma {:induction false} PollAppend(polls: seq<Poll>, p: Poll)
    requires PollAll(polls) == Polling
    ensures PollAll(polls + [p]) ==
            match EndOf(p) case Clean => Finished(None) case Stopped(e) => Finished(Some(e)) case GoOn => Polling
    decreases |polls|
  {
    if polls == [] {
      assert ([] + [p])[1..] == [];
    } else {
      assert (polls + [p])[1..] == polls[1..] + [p];
      PollAppend(polls[1..], p);
    }
  }

  // ---- When the cleanup ends ----

  /** An object is overdue 30 seconds after its mark, if finalizers hold it. */
  lemma OverdueIff(v: Vmi, at: int)
    ensures Overdue(v, at) <==> v.deletedAt.Some? && v.finalizers && v.deletedAt.value + 30_000 < at
  {
  }

  /** With objects left and the deadline ahead the loop goes on, whatever updates meet short of a refusal. */
  lemma GoesOn(p: Poll)
    requires p.listing.Ok? && p.listing.value != map[] && !p.expired
    requires forall n :: n in p.visits && p.visits[n].update.Some? ==>
      p.visits[n].update.value in {Updated, UpdateNotFound, UpdateConflict}
    ensures EndOf(p) == GoOn
  {
  }

  lemma {:induction false} PollingGoesOn(polls: seq<Poll>)
    requires PollAll(polls) == Polling
    ensures forall i :: 0 <= i < |polls| ==> EndOf(polls[i]) == GoOn
  {
    if polls != [] {
      PollingGoesOn(polls[1..]);
      assert forall i :: 0 < i < |polls| ==> polls[i] == polls[1..][i - 1];
    }
  }

  /** The last of the polls decides how the cleanup ended. */
  lemma LastPollDecides(polls: seq<Poll>)
    requires polls != [] && PollAll(polls[..|polls| - 1]) == Polling
    ensures PollAll(polls) ==
            match EndOf(polls[|polls| - 1])
            case Clean => Finished(None)
            case Stopped(e) => Finished(Some(e))
            case GoOn => Polling
  {
    PollAppend(polls[..|polls| - 1], polls[|polls| - 1]);
    assert polls == polls[..|polls| - 1] + [polls[|polls| - 1]];
  }

  // ---- Progress ----

  /**
   * A cluster that cooperates, polled once a second from time `start`: every object was marked
   * deleted by then, marks do not change, no object appears, lists and updates succeed, the
   * deadline is not hit early, every listed object is looked at, and an object without
   * finalizers (or whose finalizers the poll removed) is gone from the next list.
   */
  ghost predicate Cooperates(start: int, polls: seq<Poll>) {
    && (forall i :: 0 <= i < |polls| ==> polls[i].listing.Ok? && GoodPoll(start + i * POLL_INTERVAL, polls[i]))
    && (forall n :: |polls| > 0 && n in polls[0].listing.value ==>
          polls[0].listing.value[n].deletedAt.Some? && polls[0].listing.value[n].deletedAt.value <= start)
    && (forall i {:trigger polls[i].visits} :: 0 <= i < |polls| - 1 ==> Shrinks(polls[i], polls[i + 1]))
  }

  ghost predicate GoodPoll(at: int, p: Poll) {
    && p.listing.Ok? && !p.expired && PollFits(p)
    && p.visits.Keys == p.listing.value.Keys
    && (forall n :: n in p.visits ==> p.visits[n].at == at && p.visits[n].update != Some(UpdateRefused))
    && (forall n :: n in p.visits && p.visits[n].update.Some? ==> p.visits[n].update == Some(Updated))
  }

  ghost predicate Shrinks(p: Poll, q: Poll) {
    p.listing.Ok? && q.listing.Ok? && p.visits.Keys == p.listing.value.Keys &&
    forall n :: n in q.listing.value ==>
      && n in p.listing.value
      && p.listing.value[n].finalizers && p.visits[n].update.None?
      && q.listing.value[n].deletedAt == p.listing.value[n].deletedAt
  }

  /**
   * Whatever is still listed at poll i was listed at every poll before, with the same mark and
   * held by finalizers that no poll before has removed.
   */
  lemma {:induction false} SurvivorsAreHeld(start: int, polls: seq<Poll>, i: int, n: string, j: int)
    requires Cooperates(start, polls) && 0 <= j <= i < |polls| && n in polls[i].listing.value
    ensures n in polls[j].listing.value
    ensures polls[j].listing.value[n].deletedAt == polls[i].listing.value[n].deletedAt
    ensures j < i ==> n in polls[j].visits && polls[j].listing.value[n].finalizers && polls[j].visits[n].update.None?
    decreases i - j
  {
    if j < i {
      SurvivorsAreHeld(start, polls, i, n, j + 1);
      assert Shrinks(polls[j], polls[j + 1]) by { assert polls[j].visits == polls[j].visits; }
    }
  }

  /** At poll 31 every object still held is overdue, and the update is sent. */
  lemma StrippedAtPoll31(start: int, polls: seq<Poll>, n: string)
    requires Cooperates(start, polls) && |polls| > 31 && n in polls[31].listing.value
    ensures polls[31].visits.Keys == polls[31].listing.value.Keys
    ensures polls[31].listing.value[n].finalizers ==> polls[31].visits[n].update.Some?
  {
    SurvivorsAreHeld(start, polls, 31, n, 0);
    assert GoodPoll(start + 31 * POLL_INTERVAL, polls[31]);
  }

  lemma EmptyByPoll32(start: int, polls: seq<Poll>)
    requires Cooperates(start, polls) && |polls| > 32
    ensures polls[32].listing.value == map[]
  {
    forall n | n in polls[31].listing.value
      ensures polls[31].visits.Keys == polls[31].listing.value.Keys
      ensures polls[31].listing.value[n].finalizers ==> polls[31].visits[n].update.Some?
    {
      StrippedAtPoll31(start, polls, n);
    }
    assert Shrinks(polls[31], polls[32]) by { assert polls[31].visits == polls[31].visits; }
  }

  /** With a cluster that cooperates the cleanup succeeds, at the poll after 32 seconds at the latest. */
  lemma CleanupProgress(start: int, polls: seq<Poll>, deletion: DeleteAnswer)
    requires Cooperates(start, polls) && |polls| > 32 && deletion != DeleteRefused
    ensures CleanupResultOf(deletion, polls) == Finished(None)
  {
    EmptyByPoll32(start, polls);
    FirstEmptyPollEnds(start, polls, 0, 32);
    assert polls[0..] == polls;
  }

  /** A cleanup that has ended in such a cluster has succeeded, however many polls it took. */
  lemma FinishedCleanupSucceeds(start: int, polls: seq<Poll>, deletion: DeleteAnswer)
    requires Cooperates(start, polls) && deletion != DeleteRefused
    requires CleanupResultOf(deletion, polls).Finished?
    ensures CleanupResultOf(deletion, polls) == Finished(None)
  {
    NeverStopped(start, polls, 0);
    assert polls[0..] == polls;
  }

  lemma {:induction false} NeverStopped(start: int, polls: seq<Poll>, i: nat)
    requires Cooperates(start, polls) && i <= |polls|
    ensures PollAll(polls[i..]) == Finished(None) || PollAll(polls[i..]) == Polling
    decreases |polls| - i
  {
    if i < |polls| {
      assert GoodPoll(start + i * POLL_INTERVAL, polls[i]);
      assert polls[i..][0] == polls[i] && polls[i..][1..] == polls[i + 1..];
      NeverStopped(start, polls, i + 1);
    }
  }

  lemma {:induction false} FirstEmptyPollEnds(start: int, polls: seq<Poll>, i: nat, last: nat)
    requires Cooperates(start, polls) && i <= last < |polls| && polls[last].listing.value == map[]
    ensures PollAll(polls[i..]) == Finished(None)
    decreases last - i
  {
    assert GoodPoll(start + i * POLL_INTERVAL, polls[i]);
    assert polls[i..][0] == polls[i] && polls[i..][1..] == polls[i + 1..];
    if polls[i].listing.value != map[] {
      assert i < last;
      FirstEmptyPollEnds(start, polls, i + 1, last);
    }
  }

  /** The bound is tight: finalizers held by the controller since the start are still in place at poll 30. */
  lemma NotStrippedAfterThirtySeconds(start: int, polls: seq<Poll>, i: int, n: string)
    requires Cooperates(start, polls) && 0 <= i <= 30 && i < |polls| && n in polls[i].listing.value
    requires polls[0].listing.Ok? && n in polls[0].listing.value && polls[0].listing.value[n].deletedAt == Some(start)
    ensures polls[i].visits.Keys == polls[i].listing.value.Keys && polls[i].visits[n].update.None?
  {
    SurvivorsAreHeld(start, polls, i, n, 0);
    assert GoodPoll(start + i * POLL_INTERVAL, polls[i]);
  }
}
