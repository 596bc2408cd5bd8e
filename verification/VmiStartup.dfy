/**
 * Waiting for VMIs to run (pkg/resource/vmi.go: `WaitRunning`, `vmiRunningCondition`,
 * `labelListWatch`, `probeStartupErrors`, `vmiSchedulingError`).
 *
 * Everything the API server and the clock answer during one wait is in a `WatchRun`; the code
 * is then a function of it, and the theorems hold for every `WatchRun`.
 */
module VmiStartup {
  import opened Wrappers

  datatype CtxErr = Canceled | DeadlineExceeded

  datatype Phase = Running | Failed | OtherPhase

  /** An API error. `interrupted` says whether a context error is in its chain (`wait.Interrupted`). */
  datatype ApiErr = ApiErr(interrupted: bool)

  type Fetch<T> = Result<T, ApiErr>

  datatype PodCondition = PodCondition(podScheduled: bool, isFalse: bool)

  datatype LauncherPod = LauncherPod(decodes: bool, conditions: seq<PodCondition>)

  datatype EventType = Added | Modified | Deleted | Bookmark | Error

  /**
   * A watch event. `isObject`: the payload is an unstructured object; `launchers`: what the
   * scheduling lookup would answer, should the event make the code ask.
   */
  datatype Event = Event(
    eventType: EventType,
    isObject: bool,
    name: string,
    converts: bool,
    phase: Phase,
    launchers: Fetch<seq<LauncherPod>>)

  datatype Cause = WasDeleted | NotConvertible | VmiFailed(lookup: Option<ApiErr>)

  // ---- vmiSchedulingError ----

  predicate Unscheduled(pod: LauncherPod) {
    exists c :: c in pod.conditions && c.podScheduled && c.isFalse
  }

  /** Whether a launcher is unscheduled, and the error of the lookup; the first telling pod decides. */
  function Scheduling(pods: Fetch<seq<LauncherPod>>): (bool, Option<ApiErr>) {
    match pods
    case Err(e) => (false, Some(e))
    case Ok(list) => FirstVerdict(list)
  }

  function FirstVerdict(list: seq<LauncherPod>): (bool, Option<ApiErr>) {
    if list == [] then (false, None)
    else if !list[0].decodes then (false, Some(ApiErr(false)))
    else if Unscheduled(list[0]) then (true, None)
    else FirstVerdict(list[1..])
  }

  method SchedulingError(pods: Fetch<seq<LauncherPod>>) returns (unscheduled: bool, runErr: Option<ApiErr>)
    ensures (unscheduled, runErr) == Scheduling(pods)
  {
    if pods.Err? {
      return false, Some(pods.error);
    }
    var list := pods.value;
    for i := 0 to |list|
      invariant FirstVerdict(list) == FirstVerdict(list[i..])
    {
      if !list[i].decodes {
        return false, Some(ApiErr(false));
      }
      for j := 0 to |list[i].conditions|
        invariant forall c :: c in list[i].conditions[..j] ==> !(c.podScheduled && c.isFalse)
      {
        var c := list[i].conditions[j];
        if c.podScheduled && c.isFalse {
          return true, None;
        }
        assert list[i].conditions[..j + 1] == list[i].conditions[..j] + [c];
      }
      assert list[i].conditions[..|list[i].conditions|] == list[i].conditions;
      assert list[i..][1..] == list[i + 1..];
    }
    return false, None;
  }

  // ---- vmiRunningCondition ----

  /** How the event stream stands: still waiting for `pending`, all started, or broken off. */
  datatype Watch =
    | Waiting(pending: set<string>)
    | Started
    | Broken(pending: set<string>, cause: Cause)

  function Step(pending: set<string>, e: Event): Watch {
    if !e.isObject || e.name !in pending then Waiting(pending)
    else match Reading(e)
      case Ran => if pending == {e.name} then Started else Waiting(pending - {e.name})
      case Lost(cause) => Broken(pending, cause)
      case Silent => Waiting(pending)
  }

  /** What an event says about the VMI it names. */
  datatype Fate = Silent | Ran | Lost(cause: Cause)

  function Reading(e: Event): Fate {
    if e.eventType == Deleted then Lost(WasDeleted)
    else if !e.converts then Lost(NotConvertible)
    else match e.phase
      case Running => Ran
      case Failed => Lost(VmiFailed(Scheduling(e.launchers).1))
      case OtherPhase => Silent
  }

  /** The events in order, up to the first that ends the wait. */
  function Fold(pending: set<string>, events: seq<Event>): Watch
    decreases |events|
  {
    if events == [] then Waiting(pending)
    else match Step(pending, events[0])
      case Waiting(left) => Fold(left, events[1..])
      case w => w
  }

  /** The closure over the shared `pending` map. */
  class RunningWatch {
    var pending: set<string>

    constructor (names: seq<string>)
      ensures pending == set n | n in names
    {
      var p: set<string> := {};
      for i := 0 to |names|
        invariant p == set n | n in names[..i]
      {
        assert names[..i + 1] == names[..i] + [names[i]];
        p := p + {names[i]};
      }
      assert names[..|names|] == names;
      pending := p;
    }

    method OnEvent(e: Event) returns (done: bool, err: Option<Cause>)
      modifies this
      ensures match Step(old(pending), e)
              case Waiting(left) => !done && err.None? && pending == left
              case Started => done && err.None? && pending == {}
              case Broken(left, cause) => !done && err == Some(cause) && pending == left
    {
      if !e.isObject || e.name !in pending {
        return false, None;
      }
      if e.eventType == Deleted {
        return false, Some(WasDeleted);
      }
      if !e.converts {
        return false, Some(NotConvertible);
      }
      match e.phase {
        case Running =>
          pending := pending - {e.name};
          return pending == {}, None;
        case Failed =>
          var unscheduled, lookup := SchedulingError(e.launchers);
          return false, Some(VmiFailed(lookup));
        case OtherPhase =>
          return false, None;
      }
    }
  }

  // ---- The outcome does not depend on how the streams of different VMIs interleave ----

  /** The events of one VMI. */
  function Own(events: seq<Event>, name: string): seq<Event> {
    if events == [] then []
    else (if events[0].isObject && events[0].name == name then [events[0]] else []) + Own(events[1..], name)
  }

  /** What its own events make of a VMI: the first that is not silent decides. */
  function FateOf(own: seq<Event>): Fate {
    if own == [] then Silent
    else if Reading(own[0]) == Silent then FateOf(own[1..])
    else Reading(own[0])
  }

  function Fates(names: set<string>, events: seq<Event>): map<string, Fate> {
    map n | n in names :: FateOf(Own(events, n))
  }

  /** How the fates of the single VMIs decide a wait. */
  ghost predicate DecidedBy(w: Watch, fates: map<string, Fate>) {
    match w
    case Started => forall n :: n in fates ==> fates[n] == Ran
    case Broken(pending, cause) => exists n :: n in pending && n in fates && fates[n] == Lost(cause)
    case Waiting(pending) =>
      && pending != {}
      && (forall n :: n in pending <==> n in fates && fates[n] != Ran)
      && (forall n :: n in fates ==> !fates[n].Lost?)
  }

  lemma OwnStep(e: Event, rest: seq<Event>, name: string)
    ensures FateOf(Own([e] + rest, name)) ==
            if e.isObject && e.name == name && Reading(e) != Silent then Reading(e)
            else FateOf(Own(rest, name))
  {
    var own := Own(rest, name);
    assert ([e] + rest)[1..] == rest;
    assert ([e] + own)[1..] == own && [] + own == own;
  }

  /**
   * The wait succeeds exactly if every VMI runs before any failure or deletion of its own, fails
   * exactly if some VMI is lost before it runs, and otherwise still waits for those that have
   * not run (the three cases of `DecidedBy` exclude one another). Each VMI's own events decide,
   * whatever the interleaving.
   */
  lemma {:induction false} OutcomeByName(names: set<string>, events: seq<Event>)
    requires names != {}
    ensures DecidedBy(Fold(names, events), Fates(names, events))
    decreases |events|
  {
    if events == [] {
      assert forall n :: n in names ==> FateOf(Own(events, n)) == Silent;
    } else {
      var e, rest := events[0], events[1..];
      assert events == [e] + rest;
      StepByName(names, e, rest);
      if Step(names, e).Waiting? {
        var left := Step(names, e).pending;
        OutcomeByName(left, rest);
        DecidedOneMore(Fold(left, rest), left, Fates(left, rest), Fates(names, events));
      }
    }
  }

  lemma StepByName(names: set<string>, e: Event, rest: seq<Event>)
    requires names != {}
    ensures var fates := Fates(names, [e] + rest);
            match Step(names, e)
            case Waiting(left) =>
              && {} < left <= names
              && (forall n :: n in left ==> fates[n] == FateOf(Own(rest, n)))
              && (forall n :: n in names && n !in left ==> fates[n] == Ran)
            case w => DecidedBy(w, fates)
  {
    forall n | n in names ensures FateOf(Own([e] + rest, n)) ==
      if e.isObject && e.name == n && Reading(e) != Silent then Reading(e) else FateOf(Own(rest, n))
    {
      OwnStep(e, rest, n);
    }
    if Step(names, e).Broken? {
      assert Fates(names, [e] + rest)[e.name] == Reading(e);
    }
  }

  /** VMIs that ran are out of the picture. */
  lemma DecidedOneMore(w: Watch, left: set<string>, fates: map<string, Fate>, more: map<string, Fate>)
    requires DecidedBy(w, fates) && fates.Keys == left <= more.Keys
    requires forall n :: n in left ==> more[n] == fates[n]
    requires forall n :: n in more && n !in left ==> more[n] == Ran
    ensures DecidedBy(w, more)
  {
  }

  /** The three cases exclude one another, so the fates determine the kind of outcome. */
  lemma DecidedOneWay(w: Watch, w': Watch, fates: map<string, Fate>)
    requires DecidedBy(w, fates) && DecidedBy(w', fates)
    ensures Judged(w) == Judged(w')
  {
    if w.Waiting? && w'.Waiting? {
      assert w.pending == w'.pending;
    }
  }

  /** The kind of outcome, and the names still waited for. */
  datatype Verdict = AllRan | SomeLost | StillWaiting(pending: set<string>)

  function Judged(w: Watch): Verdict {
    match w
    case Started => AllRan
    case Broken(_, _) => SomeLost
    case Waiting(pending) => StillWaiting(pending)
  }

  lemma InterleavingDoesNotMatter(names: set<string>, events: seq<Event>, events': seq<Event>)
    requires names != {}
    requires forall n :: n in names ==> Own(events, n) == Own(events', n)
    ensures Judged(Fold(names, events)) == Judged(Fold(names, events'))
  {
    OutcomeByName(names, events);
    OutcomeByName(names, events');
    assert Fates(names, events) == Fates(names, events');
    DecidedOneWay(Fold(names, events), Fold(names, events'), Fates(names, events));
  }

  // ---- WaitRunning ----

  /** What the informer does during the wait: API calls that may fail, and events. */
  datatype Delivery =
    | ApiCall(err: Option<ApiErr>, ctxAlive: bool)
    | Deliver(event: Event)

  /** What a probe of one pending VMI answers. */
  datatype Probe = Unreadable(err: ApiErr) | Readable(launchers: Fetch<seq<LauncherPod>>)

  /**
   * One wait as seen by the code: `interrupted` is the class of the error `UntilWithSync` gives
   * when the stream ends undecided, and the two contexts are what `ctx.Err()` answers when the
   * error is classified and when the probes are considered.
   */
  datatype WatchRun = WatchRun(
    feed: seq<Delivery>,
    interrupted: bool,
    ctxAtError: Option<CtxErr>,
    ctxAtProbe: Option<CtxErr>,
    probes: map<string, Probe>)

  /** A context error, once set, stays. */
  predicate Sticky(run: WatchRun) {
    run.ctxAtError.Some? ==> run.ctxAtProbe == run.ctxAtError
  }

  /** The error of a wait; `startupTimeout` says whether it wraps `ErrStartupTimeout`. */
  datatype WaitError = WaitError(startupTimeout: bool, cause: Option<Cause>)

  function Events(feed: seq<Delivery>): seq<Event> {
    if feed == [] then []
    else match feed[0]
      case ApiCall(_, _) => Events(feed[1..])
      case Deliver(e) => [e] + Events(feed[1..])
  }

  /** The error the one-slot channel holds: the first one recorded while the context was alive. */
  function Recorded(feed: seq<Delivery>): Option<ApiErr> {
    if feed == [] then None
    else match feed[0]
      case ApiCall(Some(e), true) => Some(e)
      case _ => Recorded(feed[1..])
  }

  function ProbeError(probes: map<string, Probe>, name: string): Option<ApiErr> {
    if name !in probes then Some(ApiErr(true))
    else match probes[name]
      case Unreadable(e) => Some(e)
      case Readable(pods) => Scheduling(pods).1
  }

  predicate CauseInterrupted(cause: Cause) {
    cause.VmiFailed? && cause.lookup.Some? && cause.lookup.value.interrupted
  }

  predicate ProbesFail(run: WatchRun, pending: set<string>) {
    run.ctxAtProbe == Some(DeadlineExceeded) && exists n :: n in pending && ProbeError(run.probes, n).Some?
  }

  predicate CleanDeadline(run: WatchRun, pending: set<string>, interrupted: bool) {
    && run.ctxAtError == Some(DeadlineExceeded)
    && interrupted
    && Recorded(run.feed) == None
    && !ProbesFail(run, pending)
  }

  function NameSet(names: seq<string>): (s: set<string>)
    ensures names != [] ==> s != {}
    ensures forall n :: n in s <==> n in names
  {
    var s := set n | n in names;
    assert names != [] ==> names[0] in s;
    s
  }

  function Outcome(names: seq<string>, run: WatchRun): Option<WaitError> {
    if names == [] then None
    else match Fold(NameSet(names), Events(run.feed))
      case Started => None
      case Broken(pending, cause) =>
        Some(WaitError(CleanDeadline(run, pending, CauseInterrupted(cause)), Some(cause)))
      case Waiting(pending) =>
        Some(WaitError(CleanDeadline(run, pending, run.interrupted), None))
  }

  class ErrorSlot {
    var slot: Option<ApiErr>

    constructor ()
      ensures slot == None
    {
      slot := None;
    }

    /** `record`: a send that is dropped when the slot is full. */
    method Record(err: Option<ApiErr>, ctxAlive: bool)
      modifies this
      ensures slot == if old(slot).None? && ctxAlive then err else old(slot)
    {
      if err.Some? && ctxAlive && slot.None? {
        slot := err;
      }
    }
  }

  /** `UntilWithSync` with the running condition. */
  method UntilRunning(watch: RunningWatch, slot: ErrorSlot, feed: seq<Delivery>)
    returns (done: bool, cause: Option<Cause>)
    requires watch.pending != {} && slot.slot == None
    modifies watch, slot
    ensures slot.slot == Recorded(feed)
    ensures match Fold(old(watch.pending), Events(feed))
            case Started => done && cause.None?
            case Broken(left, c) => !done && cause == Some(c) && watch.pending == left
            case Waiting(left) => !done && cause.None? && watch.pending == left
  {
    done, cause := false, None;
    ghost var names := watch.pending;
    for i := 0 to |feed|
      invariant Recorded(feed) == if slot.slot.Some? then slot.slot else Recorded(feed[i..])
      invariant done ==> cause.None? && Fold(names, Events(feed)) == Started
      invariant cause.Some? ==> Fold(names, Events(feed)) == Broken(watch.pending, cause.value)
      invariant !done && cause.None? ==> Fold(names, Events(feed)) == Fold(watch.pending, Events(feed[i..]))
    {
      assert feed[i..][0] == feed[i] && feed[i..][1..] == feed[i + 1..];
      match feed[i] {
        case ApiCall(err, alive) =>
          slot.Record(err, alive);
        case Deliver(e) =>
          assert Events(feed[i..]) == [e] + Events(feed[i + 1..]);
          if !done && cause.None? {
            done, cause := watch.OnEvent(e);
          }
      }
    }
  }

  method ProbeStartupErrors(probes: map<string, Probe>, pending: set<string>)
    returns (unscheduled: set<string>, apiErrs: seq<ApiErr>)
    ensures apiErrs == [] <==> forall n :: n in pending ==> ProbeError(probes, n).None?
  {
    unscheduled, apiErrs := {}, [];
    var rest := pending;
    while rest != {}
      invariant rest <= pending
      invariant apiErrs == [] <==> forall n :: n in pending && n !in rest ==> ProbeError(probes, n).None?
      decreases rest
    {
      var name :| name in rest;
      rest := rest - {name};
      var answer := if name in probes then probes[name] else Unreadable(ApiErr(true));
      if answer.Unreadable? {
        apiErrs := apiErrs + [answer.err];
        continue;
      }
      var sched, runErr := SchedulingError(answer.launchers);
      if sched {
        unscheduled := unscheduled + {name};
      }
      if runErr.Some? {
        apiErrs := apiErrs + [runErr.value];
      }
    }
  }

  method WaitRunning(names: seq<string>, run: WatchRun) returns (err: Option<WaitError>)
    ensures err == Outcome(names, run)
  {
    if |names| == 0 {
      return None;
    }
    var watch, slot := NewWatch(names);
    var done, cause := UntilRunning(watch, slot, run.feed);
    if done {
      return None;
    }
    var interrupted := if cause.Some? then CauseInterrupted(cause.value) else run.interrupted;
    var timedOut := run.ctxAtError == Some(DeadlineExceeded) && interrupted;
    var apiErr := slot.slot.Some?;
    if run.ctxAtProbe == Some(DeadlineExceeded) {
      var unscheduled, probeAPIErrs := ProbeStartupErrors(run.probes, watch.pending);
      apiErr := apiErr || probeAPIErrs != [];
    }
    return Some(WaitError(timedOut && !apiErr, cause));
  }

  method NewWatch(names: seq<string>) returns (watch: RunningWatch, slot: ErrorSlot)
    ensures fresh(watch) && fresh(slot)
    ensures watch.pending == NameSet(names) && slot.slot == None
  {
    watch := new RunningWatch(names);
    slot := new ErrorSlot();
  }
}
