/** Case and suite results (pkg/suites/result.go). */
module Results {
  import opened Wrappers

  datatype State = Passed | Errored | Skipped | Unknown

  // The records below carry only the error text of the source's records; an empty text means
  // no error.
  datatype CmdResult = CmdResult(err: string)
  datatype MetricResult = MetricResult(err: string)
  datatype K8sResourceResult = K8sResourceResult(err: string)
  datatype PodLogResult = PodLogResult(err: string)

  // ---- Specification: one case as a value ----

  datatype Case = Case(
    err: string,
    cleanupErrs: seq<string>,
    cmds: seq<CmdResult>,
    metrics: seq<MetricResult>,
    resources: seq<K8sResourceResult>,
    logs: seq<PodLogResult>,
    state: State)

  /** Some error field of the case is set. A capacity's own `Err` is not one of them. */
  predicate HasError(c: Case) {
    || c.err != ""
    || (exists e :: e in c.cleanupErrs && e != "")
    || (exists r :: r in c.cmds && r.err != "")
    || (exists r :: r in c.metrics && r.err != "")
    || (exists r :: r in c.resources && r.err != "")
    || (exists r :: r in c.logs && r.err != "")
  }

  function Finalized(c: Case): Case {
    c.(state := if c.state == Skipped then Skipped else if HasError(c) then Errored else Passed)
  }

  /** A call on a case; errors are given by their message. */
  datatype Call =
    | Finalize
    | SetError(err: Option<string>)
    | SetResources(resources: seq<K8sResourceResult>)
    | SetLogs(logs: seq<PodLogResult>)

  function Apply(c: Case, call: Call): Case {
    match call
    case Finalize => Finalized(c)
    case SetError(None) => c
    case SetError(Some(text)) => Finalized(c.(err := text))
    case SetResources(rs) => Finalized(c.(resources := rs))
    case SetLogs(ls) => Finalized(c.(logs := ls))
  }

  function ApplyAll(c: Case, calls: seq<Call>): Case
    decreases |calls|
  {
    if calls == [] then c else ApplyAll(Apply(c, calls[0]), calls[1..])
  }

  function NewCase(cmds: seq<CmdResult>, metrics: seq<MetricResult>): Case {
    Finalized(Case("", [], cmds, metrics, [], [], Unknown))
  }

  function ErroredCase(text: string): Case {
    Case(text, [], [], [], [], [], Errored)
  }

  function SkippedCase(text: string): Case {
    Case(text, [], [], [], [], [], Skipped)
  }

  /** A case whose state says what its fields say. */
  predicate Settled(c: Case) {
    c.state == Skipped || c.state == if HasError(c) then Errored else Passed
  }

  /** Cases that the constructors make. Error messages are not empty. */
  ghost predicate Constructed(c: Case) {
    || (exists cmds, metrics :: c == NewCase(cmds, metrics))
    || (c == ErroredCase(c.err) && c.err != "")
    || (c == SkippedCase(c.err) && c.err != "")
  }

  /**
   * Any calls on any constructed case: SKIP is permanent and only there if it was there first;
   * otherwise the state is ERROR exactly if some error field is set, and PASS if none is.
   */
  lemma {:induction false} StateFollowsFields(c: Case, calls: seq<Call>)
    requires Settled(c)
    ensures var d := ApplyAll(c, calls);
            && (d.state == Skipped <==> c.state == Skipped)
            && Settled(d)
            && Finalized(d) == d
            && d.cleanupErrs == c.cleanupErrs && d.cmds == c.cmds && d.metrics == c.metrics
    decreases |calls|
  {
    if calls != [] {
      StateFollowsFields(Apply(c, calls[0]), calls[1..]);
    }
  }

  /** Such cases start settled. */
  lemma ConstructedIsSettled(c: Case)
    requires Constructed(c)
    ensures Settled(c)
  {
    if cmds, metrics :| c == NewCase(cmds, metrics) {
      assert HasError(c) == HasError(c.(state := Unknown));
    }
  }

  /** The message matters: without one, an errored case is turned into a PASS by the next call. */
  lemma ErroredCaseSettledIff(text: string)
    ensures Settled(ErroredCase(text)) <==> text != ""
    ensures Finalized(ErroredCase(text)).state == if text == "" then Passed else Errored
  {
  }

  // ---- What the fields say ----

  /** A case that is not skipped passes exactly if every one of its messages is empty. */
  lemma PassesIff(c: Case)
    requires c.state != Skipped
    ensures Finalized(c).state == (if
              && c.err == ""
              && (forall i :: 0 <= i < |c.cleanupErrs| ==> c.cleanupErrs[i] == "")
              && (forall i :: 0 <= i < |c.cmds| ==> c.cmds[i].err == "")
              && (forall i :: 0 <= i < |c.metrics| ==> c.metrics[i].err == "")
              && (forall i :: 0 <= i < |c.resources| ==> c.resources[i].err == "")
              && (forall i :: 0 <= i < |c.logs| ==> c.logs[i].err == "")
              then Passed else Errored)
  {
    assert forall i :: 0 <= i < |c.cleanupErrs| ==> c.cleanupErrs[i] in c.cleanupErrs;
    assert forall i :: 0 <= i < |c.cmds| ==> c.cmds[i] in c.cmds;
    assert forall i :: 0 <= i < |c.metrics| ==> c.metrics[i] in c.metrics;
    assert forall i :: 0 <= i < |c.resources| ==> c.resources[i] in c.resources;
    assert forall i :: 0 <= i < |c.logs| ==> c.logs[i] in c.logs;
  }

  /** What each call stores, last call first: it survives until a call of the same kind. */
  lemma {:induction false} LastSetStays(c: Case, calls: seq<Call>)
    ensures var d := ApplyAll(c, calls);
            && d.err == LastError(c.err, calls)
            && d.resources == LastResources(c.resources, calls)
            && d.logs == LastLogs(c.logs, calls)
    decreases |calls|
  {
    if calls != [] {
      var front, last := calls[..|calls| - 1], calls[|calls| - 1];
      ApplyLast(c, calls);
      LastSetStays(c, front);
    }
  }

  lemma {:induction false} ApplyLast(c: Case, calls: seq<Call>)
    requires calls != []
    ensures ApplyAll(c, calls) == Apply(ApplyAll(c, calls[..|calls| - 1]), calls[|calls| - 1])
    decreases |calls|
  {
    if |calls| > 1 {
      ApplyLast(Apply(c, calls[0]), calls[1..]);
      assert calls[1..][..|calls| - 2] == calls[..|calls| - 1][1..];
    }
  }

  function LastError(before: string, calls: seq<Call>): string {
    if calls == [] then before
    else match calls[|calls| - 1]
      case SetError(Some(text)) => text
      case _ => LastError(before, calls[..|calls| - 1])
  }

  function LastResources(before: seq<K8sResourceResult>, calls: seq<Call>): seq<K8sResourceResult> {
    if calls == [] then before
    else match calls[|calls| - 1]
      case SetResources(resources) => resources
      case _ => LastResources(before, calls[..|calls| - 1])
  }

  function LastLogs(before: seq<PodLogResult>, calls: seq<Call>): seq<PodLogResult> {
    if calls == [] then before
    else match calls[|calls| - 1]
      case SetLogs(logs) => logs
      case _ => LastLogs(before, calls[..|calls| - 1])
  }

  /** What the constructors put in a case. */
  lemma ConstructorsStore(cmds: seq<CmdResult>, metrics: seq<MetricResult>, text: string)
    ensures var c := NewCase(cmds, metrics);
            && c.cmds == cmds && c.metrics == metrics && c.err == ""
            && c.cleanupErrs == [] && c.resources == [] && c.logs == []
    ensures ErroredCase(text).err == SkippedCase(text).err == text
    ensures ErroredCase(text).state == Errored && SkippedCase(text).state == Skipped
  {
  }

  /** The counts of a summary are numbers of occurrences. */
  lemma {:induction false} CountIsMultiplicity(states: seq<State>, s: State)
    ensures Count(states, s) == multiset(states)[s]
  {
    if states != [] {
      CountIsMultiplicity(states[..|states| - 1], s);
      assert states == states[..|states| - 1] + [states[|states| - 1]];
    }
  }

  function Count(states: seq<State>, s: State): nat {
    if states == [] then 0
    else Count(states[..|states| - 1], s) + if states[|states| - 1] == s then 1 else 0
  }

  /** The counts add up exactly if no case is left in the unknown state; a settled case never is. */
  lemma {:induction false} SummaryAddsUp(states: seq<State>)
    ensures Count(states, Passed) + Count(states, Errored) + Count(states, Skipped) == |states| <==> Unknown !in states
    ensures Count(states, Passed) + Count(states, Errored) + Count(states, Skipped) <= |states|
  {
    if states != [] {
      var front, last := states[..|states| - 1], states[|states| - 1];
      SummaryAddsUp(front);
      assert states == front + [last];
    }
  }

  // ---- The objects ----

  class CapacityResult {
    var Max: nat
    var Err: string
    var CleanupErr: string

    constructor (max: nat, err: string)
      ensures Max == max && Err == err && CleanupErr == ""
    {
      Max, Err, CleanupErr := max, err, "";
    }
  }

  ghost function CleanupErrs(capacities: seq<CapacityResult>): (errs: seq<string>)
    reads capacities
    ensures |errs| == |capacities|
    ensures forall i :: 0 <= i < |errs| ==> errs[i] == capacities[i].CleanupErr
  {
    seq(|capacities|, i requires 0 <= i < |capacities| reads capacities => capacities[i].CleanupErr)
  }

  class CaseResult {
    const CaseName: string
    var Err: string
    var CapacityResults: seq<CapacityResult>
    var CmdResults: seq<CmdResult>
    var MetricResults: seq<MetricResult>
    var K8sResourceResults: seq<K8sResourceResult>
    var PodLogResults: seq<PodLogResult>
    var State: State

    ghost function View(): Case
      reads this, CapacityResults
    {
      Case(Err, CleanupErrs(CapacityResults), CmdResults, MetricResults, K8sResourceResults, PodLogResults, State)
    }

    /** `NewCaseResult`. */
    constructor New(name: string, cmds: seq<CmdResult>, metrics: seq<MetricResult>)
      ensures CaseName == name && CapacityResults == []
      ensures View() == NewCase(cmds, metrics)
    {
      CaseName, Err := name, "";
      CapacityResults, CmdResults, MetricResults := [], cmds, metrics;
      K8sResourceResults, PodLogResults, State := [], [], Unknown;
      new;
      FinalizeState();
    }

    constructor NewErrored(name: string, text: string)
      ensures CaseName == name && CapacityResults == []
      ensures View() == ErroredCase(text)
    {
      CaseName, Err, State := name, text, Errored;
      CapacityResults, CmdResults, MetricResults, K8sResourceResults, PodLogResults := [], [], [], [], [];
    }

    constructor NewSkipped(name: string, text: string)
      ensures CaseName == name && CapacityResults == []
      ensures View() == SkippedCase(text)
    {
      CaseName, Err, State := name, text, Skipped;
      CapacityResults, CmdResults, MetricResults, K8sResourceResults, PodLogResults := [], [], [], [], [];
    }

    method FinalizeState()
      modifies this`State
      ensures View() == Finalized(old(View()))
    {
      if State == Skipped {
        return;
      }
      if Err != "" {
        State := Errored;
        return;
      }
      var failed := AnyCleanupError();
      if failed {
        State := Errored;
        return;
      }
      for i := 0 to |CmdResults|
        invariant forall j :: 0 <= j < i ==> CmdResults[j].err == ""
      {
        if CmdResults[i].err != "" {
          State := Errored;
          return;
        }
      }
      for i := 0 to |MetricResults|
        invariant forall j :: 0 <= j < i ==> MetricResults[j].err == ""
      {
        if MetricResults[i].err != "" {
          State := Errored;
          return;
        }
      }
      for i := 0 to |K8sResourceResults|
        invariant forall j :: 0 <= j < i ==> K8sResourceResults[j].err == ""
      {
        if K8sResourceResults[i].err != "" {
          State := Errored;
          return;
        }
      }
      for i := 0 to |PodLogResults|
        invariant forall j :: 0 <= j < i ==> PodLogResults[j].err == ""
      {
        if PodLogResults[i].err != "" {
          State := Errored;
          return;
        }
      }
      State := Passed;
    }

    method AnyCleanupError() returns (failed: bool)
      ensures failed <==> exists e :: e in View().cleanupErrs && e != ""
    {
      for i := 0 to |CapacityResults|
        invariant forall j :: 0 <= j < i ==> CapacityResults[j].CleanupErr == ""
      {
        if CapacityResults[i].CleanupErr != "" {
          assert View().cleanupErrs[i] in View().cleanupErrs;
          return true;
        }
      }
      return false;
    }

    method WithK8sResourceResults(results: seq<K8sResourceResult>)
      modifies this
      ensures View() == Apply(old(View()), SetResources(results))
      ensures CapacityResults == old(CapacityResults)
    {
      K8sResourceResults := results;
      FinalizeState();
    }

    method WithPodLogResults(results: seq<PodLogResult>)
      modifies this
      ensures View() == Apply(old(View()), SetLogs(results))
      ensures CapacityResults == old(CapacityResults)
    {
      PodLogResults := results;
      FinalizeState();
    }

    /** `None` is a nil error. */
    method WithError(err: Option<string>)
      modifies this
      ensures View() == Apply(old(View()), SetError(err))
      ensures CapacityResults == old(CapacityResults)
    {
      if err.Some? {
        Err := err.value;
        assert View() == old(View()).(err := err.value);
        FinalizeState();
      }
    }
  }

  /** `SuiteResult`, a value that the `With*` methods return modified copies of. */
  datatype SuiteResult = SuiteResult(Name: string, RunID: string, Results: seq<CaseResult>, Err: string)
  {
    function WithResults(results: seq<CaseResult>): SuiteResult {
      this.(Results := results)
    }

    function WithError(err: string): SuiteResult {
      this.(Err := err)
    }
  }

  /** The capacity records that cases hold. */
  ghost function Capacities(cases: seq<CaseResult>): set<CapacityResult>
    reads cases
  {
    set x, y | x in cases && y in x.CapacityResults :: y
  }

  ghost function States(cases: seq<CaseResult>): (states: seq<State>)
    reads cases
    ensures |states| == |cases|
    ensures forall i :: 0 <= i < |cases| ==> states[i] == cases[i].State
  {
    seq(|cases|, i requires 0 <= i < |cases| reads cases => cases[i].State)
  }

  /** `summary`. */
  method Summary(cases: seq<CaseResult>) returns (passed: nat, errored: nat, skipped: nat, total: nat)
    ensures total == |cases|
    ensures passed == Count(States(cases), Passed)
    ensures errored == Count(States(cases), Errored)
    ensures skipped == Count(States(cases), Skipped)
    ensures passed + errored + skipped == total <==> forall c :: c in cases ==> c.State != Unknown
  {
    total := |cases|;
    passed, errored, skipped := 0, 0, 0;
    ghost var states := States(cases);
    for i := 0 to |cases|
      invariant passed == Count(states[..i], Passed)
      invariant errored == Count(states[..i], Errored)
      invariant skipped == Count(states[..i], Skipped)
    {
      assert states[..i + 1][..i] == states[..i];
      match cases[i].State {
        case Passed => passed := passed + 1;
        case Errored => errored := errored + 1;
        case Skipped => skipped := skipped + 1;
        case Unknown =>
      }
    }
    assert states[..|cases|] == states;
    SummaryAddsUp(states);
    if Unknown in states {
      var i :| 0 <= i < |states| && states[i] == Unknown;
      assert cases[i] in cases;
    }
  }
}
