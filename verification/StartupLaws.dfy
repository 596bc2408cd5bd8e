/**
 * What a wait for VMIs means (pkg/resource/vmi.go), in terms of what was delivered during it: for
 * each VMI the first event that tells, for each lookup the pods it lists, and for the informer
 * the API calls it made. Nothing here is said through the functions that model the code.
 */
module StartupLaws {
  import opened Wrappers
  import opened VmiStartup

  // ---- What is delivered ----

  /** The delivery is an event of this VMI. */
  predicate About(d: Delivery, name: string) {
    d.Deliver? && d.event.isObject && d.event.name == name
  }

  /** The event says that its VMI runs. */
  predicate SaysRunning(d: Delivery) {
    d.Deliver? && d.event.eventType != Deleted && d.event.converts && d.event.phase == Running
  }

  /** The event says that its VMI is gone, unreadable or failed. */
  predicate SaysLost(d: Delivery) {
    d.Deliver? && (d.event.eventType == Deleted || !d.event.converts || d.event.phase == Failed)
  }

  /** Delivery `i` is the first that tells about this VMI. */
  ghost predicate TellsFirst(feed: seq<Delivery>, name: string, i: int) {
    && 0 <= i < |feed| && About(feed[i], name) && (SaysRunning(feed[i]) || SaysLost(feed[i]))
    && forall j :: 0 <= j < i && About(feed[j], name) ==> !SaysRunning(feed[j]) && !SaysLost(feed[j])
  }

  ghost predicate RunsFirst(feed: seq<Delivery>, name: string) {
    exists i :: TellsFirst(feed, name, i) && SaysRunning(feed[i])
  }

  ghost predicate LostFirst(feed: seq<Delivery>, name: string) {
    exists i :: TellsFirst(feed, name, i) && SaysLost(feed[i])
  }

  ghost predicate NothingTold(feed: seq<Delivery>, name: string) {
    forall i :: 0 <= i < |feed| && About(feed[i], name) ==> !SaysRunning(feed[i]) && !SaysLost(feed[i])
  }

  /** No API call failed while the context was alive. */
  ghost predicate NoApiError(feed: seq<Delivery>) {
    forall i :: 0 <= i < |feed| && feed[i].ApiCall? && feed[i].ctxAlive ==> feed[i].err.None?
  }

  /** The pod's scheduled condition is false. */
  ghost predicate SaysUnscheduled(pod: LauncherPod) {
    exists j :: 0 <= j < |pod.conditions| && pod.conditions[j].podScheduled && pod.conditions[j].isFalse
  }

  /** Pod `i` is the first that is undecodable or unscheduled; an undecodable one is not looked into. */
  ghost predicate PodTells(list: seq<LauncherPod>, i: int) {
    && 0 <= i < |list| && (!list[i].decodes || SaysUnscheduled(list[i]))
    && forall j :: 0 <= j < i ==> list[j].decodes && !SaysUnscheduled(list[j])
  }

  /** The scheduling lookup fails: the list does, or it comes to an undecodable pod. */
  ghost predicate LookupFails(pods: Fetch<seq<LauncherPod>>) {
    pods.Err? || exists i :: PodTells(pods.value, i) && !pods.value[i].decodes
  }

  /** The VMI could be read, and its launcher pods looked up. */
  ghost predicate ProbeClean(probes: map<string, Probe>, name: string) {
    name in probes && probes[name].Readable? && !LookupFails(probes[name].launchers)
  }

  // ---- The code against it ----

  /** A lookup reports an unscheduled pod, or an error, exactly on that; the error is the list's own. */
  lemma SchedulingIff(pods: Fetch<seq<LauncherPod>>)
    ensures Scheduling(pods).1.Some? <==> LookupFails(pods)
    ensures Scheduling(pods).0 <==> pods.Ok? && exists i :: PodTells(pods.value, i) && pods.value[i].decodes
    ensures Scheduling(pods).1.Some? ==> Scheduling(pods).1 == Some(if pods.Err? then pods.error else ApiErr(false))
  {
    if pods.Ok? {
      var i := FirstTellingPod(pods.value);
      if i >= 0 {
        forall j | PodTells(pods.value, j) ensures j == i {
        }
      }
    }
  }

  lemma {:induction false} FirstTellingPod(list: seq<LauncherPod>) returns (i: int)
    ensures i == -1 ==> FirstVerdict(list) == (false, None) && forall j :: !PodTells(list, j)
    ensures i != -1 ==>
      && PodTells(list, i)
      && FirstVerdict(list) == if list[i].decodes then (true, None) else (false, Some(ApiErr(false)))
  {
    if list == [] {
      i := -1;
    } else {
      UnscheduledIff(list[0]);
      if !list[0].decodes || Unscheduled(list[0]) {
        i := 0;
      } else {
        i := FirstTellingPod(list[1..]);
        if i == -1 {
          forall j ensures !PodTells(list, j) {
            if PodTells(list, j) {
              assert PodTells(list[1..], j - 1);
            }
          }
        } else {
          assert list[1..][i] == list[i + 1];
          assert forall j :: 0 < j <= i ==> list[j] == list[1..][j - 1];
          i := i + 1;
        }
      }
    }
  }

  lemma UnscheduledIff(pod: LauncherPod)
    ensures Unscheduled(pod) <==> SaysUnscheduled(pod)
  {
    if Unscheduled(pod) {
      var c :| c in pod.conditions && c.podScheduled && c.isFalse;
      var j :| 0 <= j < |pod.conditions| && pod.conditions[j] == c;
    }
    if SaysUnscheduled(pod) {
      var j :| 0 <= j < |pod.conditions| && pod.conditions[j].podScheduled && pod.conditions[j].isFalse;
      assert pod.conditions[j] in pod.conditions;
    }
  }

  lemma ProbeCleanIff(probes: map<string, Probe>, name: string)
    ensures ProbeError(probes, name).None? <==> ProbeClean(probes, name)
  {
    if name in probes && probes[name].Readable? {
      SchedulingIff(probes[name].launchers);
    }
  }

  /** The error kept for a timeout is the first of an API call that failed while the context was alive. */
  lemma {:induction false} RecordedFirst(feed: seq<Delivery>)
    ensures Recorded(feed).None? <==> NoApiError(feed)
    ensures Recorded(feed).Some? ==>
      exists i :: 0 <= i < |feed| && feed[i] == ApiCall(Recorded(feed), true) && NoApiError(feed[..i])
  {
    if feed != [] {
      var rest := feed[1..];
      RecordedFirst(rest);
      if feed[0].ApiCall? && feed[0].ctxAlive && feed[0].err.Some? {
        assert NoApiError(feed[..0]);
      } else {
        assert forall i :: 0 < i < |feed| ==> feed[i] == rest[i - 1];
        if !NoApiError(rest) {
          var i :| 0 <= i < |rest| && rest[i] == ApiCall(Recorded(rest), true) && NoApiError(rest[..i]);
          assert forall j :: 0 < j <= i ==> feed[j] == rest[..i][j - 1];
          assert feed[i + 1] == ApiCall(Recorded(feed), true) && NoApiError(feed[..i + 1]);
          assert !NoApiError(feed);
        } else {
          assert forall i :: 0 <= i < |feed| ==> i == 0 || feed[i] == rest[i - 1];
        }
      }
    }
  }

  /** The events of a feed decide about a VMI as the first delivery that tells about it. */
  lemma {:induction false} FateOnFeed(feed: seq<Delivery>, name: string) returns (i: int)
    ensures var fate := FateOf(Own(Events(feed), name));
            if i == -1 then fate == Silent && NothingTold(feed, name)
            else
              && TellsFirst(feed, name, i)
              && fate == (if SaysLost(feed[i]) then Lost(CauseOf(feed[i].event)) else Ran)
              && (SaysRunning(feed[i]) <==> !SaysLost(feed[i]))
    decreases |feed|
  {
    if feed == [] {
      i := -1;
    } else {
      var rest := feed[1..];
      var d := feed[0];
      var k := FateOnFeed(rest, name);
      if d.Deliver? {
        assert Events(feed) == [d.event] + Events(rest);
        OwnStep(d.event, Events(rest), name);
      }
      if About(d, name) && (SaysRunning(d) || SaysLost(d)) {
        i := 0;
      } else if k == -1 {
        i := -1;
        assert forall j :: 0 < j < |feed| ==> feed[j] == rest[j - 1];
      } else {
        i := k + 1;
        assert forall j :: 0 < j < |feed| ==> feed[j] == rest[j - 1];
      }
    }
  }

  /** Why the event of a lost VMI breaks the wait. */
  function CauseOf(e: Event): Cause {
    if e.eventType == Deleted then WasDeleted
    else if !e.converts then NotConvertible
    else VmiFailed(Scheduling(e.launchers).1)
  }

  lemma TellsOnce(feed: seq<Delivery>, name: string, i: int, j: int)
    requires TellsFirst(feed, name, i) && TellsFirst(feed, name, j)
    ensures i == j
  {
  }

  /** A VMI's events come to running, or to a loss, exactly if the first that tells says so. */
  lemma FateIff(feed: seq<Delivery>, name: string)
    ensures FateOf(Own(Events(feed), name)) == Ran <==> RunsFirst(feed, name)
    ensures FateOf(Own(Events(feed), name)).Lost? <==> LostFirst(feed, name)
    ensures !(RunsFirst(feed, name) && LostFirst(feed, name))
  {
    var i := FateOnFeed(feed, name);
    forall j | TellsFirst(feed, name, j) ensures i == j {
      if i != -1 {
        TellsOnce(feed, name, i, j);
      }
    }
  }

  // ---- When a wait succeeds, and when it counts as a clean startup timeout ----

  /** Each VMI runs before it is lost. */
  ghost predicate EachRan(names: seq<string>, run: WatchRun) {
    forall n :: n in names ==> RunsFirst(run.feed, n)
  }

  /** Then the wait succeeds, and only then. */
  lemma WaitSucceedsIff(names: seq<string>, run: WatchRun)
    ensures Outcome(names, run).None? <==> EachRan(names, run)
  {
    if names != [] {
      var fates := Fates(NameSet(names), Events(run.feed));
      OutcomeByName(NameSet(names), Events(run.feed));
      forall n | n in names ensures n in fates && (fates[n] == Ran <==> RunsFirst(run.feed, n)) {
        FateIff(run.feed, n);
      }
    }
  }

  /** No lookup made for a failed VMI was itself cut off by its context. */
  predicate LookupsFinish(feed: seq<Delivery>) {
    forall d :: d in feed && d.Deliver? && d.event.launchers.Err? ==> !d.event.launchers.error.interrupted
  }

  /**
   * A clean startup timeout: the deadline passed, no VMI was lost, some VMI had not run, no API
   * call failed while the context was alive, and every VMI still pending could be probed.
   */
  ghost predicate CleanTimeout(names: seq<string>, run: WatchRun) {
    && run.ctxAtError == Some(DeadlineExceeded) && run.interrupted
    && NoApiError(run.feed)
    && (exists n :: n in names && !RunsFirst(run.feed, n))
    && (forall n :: n in names ==> !LostFirst(run.feed, n))
    && (forall n :: n in names && !RunsFirst(run.feed, n) ==> ProbeClean(run.probes, n))
  }

  /** Delivery `k` is the first that says of some VMI, before it ran, that it is lost. */
  ghost predicate BreaksAt(names: seq<string>, feed: seq<Delivery>, k: int) {
    && 0 <= k < |feed| && LosesOneOf(names, feed, k)
    && forall j :: 0 <= j < k ==> !LosesOneOf(names, feed, j)
  }

  ghost predicate LosesOneOf(names: seq<string>, feed: seq<Delivery>, k: int)
    requires 0 <= k < |feed|
  {
    SaysLost(feed[k]) && exists n :: n in names && TellsFirst(feed, n, k)
  }

  /** The lookup made for a failed VMI was cut off. */
  predicate SaysCutOff(e: Event) {
    e.eventType != Deleted && e.converts && e.phase == Failed && e.launchers.Err? && e.launchers.error.interrupted
  }

  /**
   * The wait was broken by a failed VMI whose scheduling lookup was cut off, with the deadline
   * past, no API error, and every VMI that had not run by then probed.
   */
  ghost predicate CutOff(names: seq<string>, run: WatchRun) {
    exists k :: BreaksAt(names, run.feed, k) && CutOffAt(names, run, k)
  }

  ghost predicate CutOffAt(names: seq<string>, run: WatchRun, k: int) {
    && 0 <= k < |run.feed| && run.feed[k].Deliver?
    && SaysCutOff(run.feed[k].event)
    && run.ctxAtError == Some(DeadlineExceeded)
    && NoApiError(run.feed)
    && forall n :: n in names && !RunsFirst(run.feed[..k], n) ==> ProbeClean(run.probes, n)
  }

  /** A wait that breaks off does so at the first event of a pending VMI that says it is lost. */
  lemma {:induction false} BrokenOff(names: set<string>, feed: seq<Delivery>) returns (k: int)
    requires names != {} && Fold(names, Events(feed)).Broken?
    ensures 0 <= k < |feed| && feed[k].Deliver? && feed[k].event.isObject && SaysLost(feed[k])
    ensures var w := Fold(names, Events(feed));
            && Fold(names, Events(feed[..k])) == Waiting(w.pending)
            && feed[k].event.name in w.pending && w.cause == CauseOf(feed[k].event)
    decreases |feed|
  {
    var d, rest := feed[0], feed[1..];
    if d.ApiCall? {
      k := BrokenOff(names, rest);
      assert feed[..k + 1][0] == d && feed[..k + 1][1..] == rest[..k];
      k := k + 1;
    } else {
      assert Events(feed) == [d.event] + Events(rest);
      match Step(names, d.event)
      case Waiting(left) =>
        StillPending(names, d.event);
        k := BrokenOff(left, rest);
        assert feed[..k + 1][0] == d && feed[..k + 1][1..] == rest[..k];
        assert Events(feed[..k + 1]) == [d.event] + Events(rest[..k]);
        k := k + 1;
      case Broken(_, _) =>
        k := 0;
        assert feed[..0] == [];
    }
  }

  lemma StillPending(names: set<string>, e: Event)
    requires names != {} && Step(names, e).Waiting?
    ensures Step(names, e).pending != {}
  {
    if e.isObject && e.name in names && Reading(e) == Ran {
      assert names == {e.name} + (names - {e.name});
    }
  }

  /** Where a broken wait broke, and for whom it was still waiting. */
  lemma BrokenOnFeed(names: seq<string>, feed: seq<Delivery>) returns (k: int)
    requires names != [] && Fold(NameSet(names), Events(feed)).Broken?
    ensures BreaksAt(names, feed, k)
    ensures var w := Fold(NameSet(names), Events(feed));
            && w.cause == CauseOf(feed[k].event)
            && forall n :: n in w.pending <==> n in names && !RunsFirst(feed[..k], n)
  {
    var w := Fold(NameSet(names), Events(feed));
    k := BrokenOff(NameSet(names), feed);
    PendingOnFeed(names, feed[..k], w.pending);
    FirstAfter(feed, k, feed[k].event.name);
    forall j | 0 <= j < k ensures !LosesOneOf(names, feed, j) {
      forall n | n in names && TellsFirst(feed, n, j) ensures !SaysLost(feed[j]) {
        assert TellsFirst(feed[..k], n, j);
      }
    }
  }

  /** A wait that goes on waits for the VMIs that have not run, and none has been lost. */
  lemma PendingOnFeed(names: seq<string>, feed: seq<Delivery>, pending: set<string>)
    requires names != [] && Fold(NameSet(names), Events(feed)) == Waiting(pending)
    ensures forall n :: n in pending <==> n in names && !RunsFirst(feed, n)
    ensures forall n :: n in names ==> !LostFirst(feed, n)
  {
    OutcomeByName(NameSet(names), Events(feed));
    var fates := Fates(NameSet(names), Events(feed));
    forall n | n in names
      ensures (fates[n] == Ran <==> RunsFirst(feed, n)) && (fates[n].Lost? <==> LostFirst(feed, n))
    {
      FateIff(feed, n);
    }
  }

  /** A VMI about which nothing has been told is told about first by the next event that tells. */
  lemma FirstAfter(feed: seq<Delivery>, k: int, name: string)
    requires 0 <= k < |feed| && About(feed[k], name) && (SaysRunning(feed[k]) || SaysLost(feed[k]))
    requires !RunsFirst(feed[..k], name) && !LostFirst(feed[..k], name)
    ensures TellsFirst(feed, name, k)
  {
    var i := FateOnFeed(feed[..k], name);
    assert forall j :: 0 <= j < k ==> feed[..k][j] == feed[j];
  }

  lemma BreaksOnce(names: seq<string>, feed: seq<Delivery>, k: int, l: int)
    requires BreaksAt(names, feed, k) && BreaksAt(names, feed, l)
    ensures k == l
  {
  }

  lemma CutOffLoses(names: seq<string>, run: WatchRun)
    requires CutOff(names, run)
    ensures exists n :: n in names && LostFirst(run.feed, n)
    ensures !LookupsFinish(run.feed)
  {
    var k :| BreaksAt(names, run.feed, k) && CutOffAt(names, run, k);
    NoLossNoBreak(names, run.feed, k);
    assert run.feed[k] in run.feed;
  }

  lemma NoLossNoBreak(names: seq<string>, feed: seq<Delivery>, k: int)
    requires BreaksAt(names, feed, k)
    ensures exists n :: n in names && LostFirst(feed, n)
  {
    var n :| n in names && TellsFirst(feed, n, k);
    assert LostFirst(feed, n);
  }

  /** A cause is an interruption exactly if the lookup for a failed VMI was cut off. */
  lemma InterruptedIff(e: Event)
    ensures CauseInterrupted(CauseOf(e)) <==>
            e.eventType != Deleted && e.converts && e.launchers.Err? && e.launchers.error.interrupted
  {
    SchedulingIff(e.launchers);
  }

  /** What a deadline past needs besides. */
  lemma CleanDeadlineIff(run: WatchRun, pending: set<string>, interrupted: bool)
    requires Sticky(run)
    ensures CleanDeadline(run, pending, interrupted) <==>
            && run.ctxAtError == Some(DeadlineExceeded) && interrupted && NoApiError(run.feed)
            && forall n :: n in pending ==> ProbeClean(run.probes, n)
  {
    RecordedFirst(run.feed);
    forall n ensures ProbeError(run.probes, n).None? <==> ProbeClean(run.probes, n) {
      ProbeCleanIff(run.probes, n);
    }
  }

  /** Every wait: a startup timeout is a clean one, except exactly when a cut-off lookup broke the wait. */
  lemma StartupTimeoutIff(names: seq<string>, run: WatchRun)
    requires Sticky(run) && names != []
    ensures var err := Outcome(names, run);
            (err.Some? && err.value.startupTimeout) <==> CleanTimeout(names, run) || CutOff(names, run)
    ensures !(CleanTimeout(names, run) && CutOff(names, run))
  {
    hide RunsFirst, LostFirst, ProbeClean, NoApiError, BreaksAt, CleanDeadline, Fold;
    var w := Fold(NameSet(names), Events(run.feed));
    if CutOff(names, run) {
      CutOffLoses(names, run);
    }
    match w
    case Started => StartedNoTimeout(names, run);
    case Broken(pending, cause) => BrokenTimeoutIff(names, run);
    case Waiting(pending) =>
      PendingOnFeed(names, run.feed, pending);
      CleanDeadlineIff(run, pending, run.interrupted);
      SomePending(NameSet(names), Events(run.feed));
      var n :| n in pending;
  }

  lemma SomePending(names: set<string>, events: seq<Event>)
    requires names != {} && Fold(names, events).Waiting?
    ensures Fold(names, events).pending != {}
  {
    OutcomeByName(names, events);
  }

  lemma StartedNoTimeout(names: seq<string>, run: WatchRun)
    requires names != [] && Fold(NameSet(names), Events(run.feed)) == Started
    ensures !CleanTimeout(names, run) && !CutOff(names, run)
  {
    WaitSucceedsIff(names, run);
    forall n | n in names ensures !LostFirst(run.feed, n) {
      FateIff(run.feed, n);
    }
    if CutOff(names, run) {
      CutOffLoses(names, run);
    }
  }

  lemma BrokenTimeoutIff(names: seq<string>, run: WatchRun)
    requires Sticky(run) && names != [] && Fold(NameSet(names), Events(run.feed)).Broken?
    ensures !CleanTimeout(names, run)
    ensures Outcome(names, run).value.startupTimeout <==> CutOff(names, run)
  {
    hide RunsFirst, ProbeClean, NoApiError, CleanDeadline, TellsFirst, CauseInterrupted, CauseOf;
    var w := Fold(NameSet(names), Events(run.feed));
    var k := BrokenOnFeed(names, run.feed);
    NoLossNoBreak(names, run.feed, k);
    InterruptedIff(run.feed[k].event);
    CleanDeadlineIff(run, w.pending, CauseInterrupted(w.cause));
    if run.feed[k].event.eventType != Deleted && run.feed[k].event.converts {
      FailedIfLost(run.feed[k]);
    }
    forall l | BreaksAt(names, run.feed, l) ensures l == k {
      BreaksOnce(names, run.feed, k, l);
    }
  }

  lemma FailedIfLost(d: Delivery)
    requires SaysLost(d) && d.event.eventType != Deleted && d.event.converts
    ensures d.event.phase == Failed
  {
  }

  /** Provided no scheduling lookup is cut off, startup timeouts are the clean ones. */
  lemma CleanTimeoutIff(names: seq<string>, run: WatchRun)
    requires Sticky(run) && LookupsFinish(run.feed)
    ensures var err := Outcome(names, run);
            (err.Some? && err.value.startupTimeout) <==> CleanTimeout(names, run)
  {
    if names != [] {
      StartupTimeoutIff(names, run);
      if CutOff(names, run) {
        CutOffLoses(names, run);
      }
    }
  }

  /**
   * The comment on `ErrStartupTimeout` promises a clean deadline. It fails when the scheduling
   * lookup for a failed VMI is cut off by its own five seconds and the batch deadline has
   * passed by then: the failed VMI is reported as a startup timeout, that is, as capacity.
   */
  lemma FailedVmiReadAsTimeout(name: string) returns (run: WatchRun)
    ensures Sticky(run)
    ensures exists e :: run.feed == [Deliver(e)] && e.isObject && e.name == name && e.phase == Failed && SaysCutOff(e)
    ensures Outcome([name], run).Some? && Outcome([name], run).value.startupTimeout
  {
    var failed := Event(Modified, true, name, true, Failed, Err(ApiErr(true)));
    var feed := [Deliver(failed)];
    run := WatchRun(feed, true, Some(DeadlineExceeded), Some(DeadlineExceeded), map[name := Readable(Ok([]))]);
    assert feed[1..] == [] && Events([]) == [];
    assert feed[0] == Deliver(failed) && Events(feed) == [failed] + Events(feed[1..]);
    assert [failed] + [] == [failed];
    assert NameSet([name]) == {name};
    assert Recorded(feed) == None && Scheduling(Ok([])).1 == None;
    assert Scheduling(failed.launchers) == (false, Some(ApiErr(true)));
    assert Step({name}, failed) == Broken({name}, VmiFailed(Some(ApiErr(true))));
    assert [failed][0] == failed && Fold({name}, [failed]) == Step({name}, failed);
  }
}
