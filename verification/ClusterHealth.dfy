/**
 * The health gate of the density suite (internal/suites/density/density.go: `healthPods`,
 * `captureBaseline`, `checkNodes`, `checkControlPlanePods`, `checkClusterHealth`).
 */
module ClusterHealth {
  import opened Wrappers
  import opened VmiStartup

  datatype ConditionType = NodeReady | MemoryPressure | DiskPressure | PIDPressure | OtherCondition

  datatype Status = True | False | Indeterminate

  datatype NodeCondition = NodeCondition(conditionType: ConditionType, status: Status)

  datatype Node = Node(conditions: seq<NodeCondition>)

  // A non-negative int32, so that the difference of two counts does not wrap.
  type RestartCount = n: int | 0 <= n < 0x8000_0000

  datatype Container = Container(name: string, restarts: RestartCount)

  datatype Pod = Pod(
    namespace: string,
    name: string,
    uid: string,
    running: bool,
    ready: bool,
    deleting: bool,
    ownedByJob: bool,
    containers: seq<Container>)

  // The source joins these parts with "/", which no Kubernetes name contains.
  datatype Instance = Instance(namespace: string, pod: string, uid: string, container: string)
  datatype Service = Service(namespace: string, pod: string, container: string)

  /** One container status as one check sees it. */
  datatype Sample = Sample(instance: Instance, service: Service, restarts: RestartCount)

  /** What one inspection of the cluster answers. */
  datatype Inspection = Inspection(
    nodes: Fetch<seq<Node>>,
    etcd: Option<ApiErr>,
    controlPlane: Fetch<seq<Pod>>,
    harvester: Fetch<seq<Pod>>)

  datatype Health = Healthy | Unhealthy | InspectionFailed

  const HARVESTER := "harvester-system"

  // ---- Specification: nodes ----

  function LastReady(conditions: seq<NodeCondition>): bool {
    if conditions == [] then false
    else if conditions[|conditions| - 1].conditionType == NodeReady then conditions[|conditions| - 1].status == True
    else LastReady(conditions[..|conditions| - 1])
  }

  predicate UnderPressure(c: NodeCondition) {
    (c.conditionType == MemoryPressure || c.conditionType == DiskPressure || c.conditionType == PIDPressure) &&
    c.status != False
  }

  predicate NodeHealthy(n: Node) {
    LastReady(n.conditions) && forall c :: c in n.conditions ==> !UnderPressure(c)
  }

  function NodesHealth(nodes: Fetch<seq<Node>>): Health {
    if nodes.Err? || nodes.value == [] then InspectionFailed
    else if forall n :: n in nodes.value ==> NodeHealthy(n) then Healthy
    else Unhealthy
  }

  method CheckNodes(nodes: Fetch<seq<Node>>) returns (h: Health)
    ensures h == NodesHealth(nodes)
  {
    if nodes.Err? {
      return InspectionFailed;
    }
    var items := nodes.value;
    if |items| == 0 {
      return InspectionFailed;
    }
    for i := 0 to |items|
      invariant forall k :: 0 <= k < i ==> NodeHealthy(items[k])
    {
      var ready := false;
      var conditions := items[i].conditions;
      for j := 0 to |conditions|
        invariant ready == LastReady(conditions[..j])
        invariant forall k :: 0 <= k < j ==> !UnderPressure(conditions[k])
      {
        assert conditions[..j + 1][..j] == conditions[..j];
        if conditions[j].conditionType == NodeReady {
          ready := conditions[j].status == True;
        }
        if UnderPressure(conditions[j]) {
          assert conditions[j] in items[i].conditions && items[i] in items;
          return Unhealthy;
        }
      }
      assert conditions[..|conditions|] == conditions;
      if !ready {
        assert items[i] in items;
        return Unhealthy;
      }
    }
    return Healthy;
  }

  // ---- Specification: pods ----

  predicate HasPrefix(s: string, prefix: string) {
    prefix <= s
  }

  predicate Watched(p: Pod) {
    (HasPrefix(p.name, "harvester-") || HasPrefix(p.name, "virt-")) && !p.ownedByJob
  }

  function WatchedPods(pods: seq<Pod>): seq<Pod> {
    if pods == [] then []
    else WatchedPods(pods[..|pods| - 1]) + if Watched(pods[|pods| - 1]) then [pods[|pods| - 1]] else []
  }

  /** The control-plane pods, then the Harvester and KubeVirt service pods. */
  function HealthPods(controlPlane: Fetch<seq<Pod>>, harvester: Fetch<seq<Pod>>): Fetch<seq<Pod>> {
    if controlPlane.Err? then Err(controlPlane.error)
    else if harvester.Err? then Err(harvester.error)
    else Ok(controlPlane.value + WatchedPods(harvester.value))
  }

  method ListHealthPods(controlPlane: Fetch<seq<Pod>>, harvester: Fetch<seq<Pod>>) returns (pods: Fetch<seq<Pod>>)
    ensures pods == HealthPods(controlPlane, harvester)
  {
    if controlPlane.Err? {
      return Err(controlPlane.error);
    }
    if harvester.Err? {
      return Err(harvester.error);
    }
    var list := controlPlane.value;
    for i := 0 to |harvester.value|
      invariant list == controlPlane.value + WatchedPods(harvester.value[..i])
    {
      assert harvester.value[..i + 1][..i] == harvester.value[..i];
      if Watched(harvester.value[i]) {
        list := list + [harvester.value[i]];
      }
    }
    assert harvester.value[..|harvester.value|] == harvester.value;
    return Ok(list);
  }

  predicate Up(p: Pod) {
    p.running && p.ready && !p.deleting
  }

  function SampleOf(p: Pod, c: Container): Sample {
    Sample(Instance(p.namespace, p.name, p.uid, c.name), Service(p.namespace, p.name, c.name), c.restarts)
  }

  function PodSamples(p: Pod, containers: seq<Container>): seq<Sample> {
    if containers == [] then []
    else PodSamples(p, containers[..|containers| - 1]) + [SampleOf(p, containers[|containers| - 1])]
  }

  function Samples(pods: seq<Pod>): seq<Sample> {
    if pods == [] then []
    else
      var last := pods[|pods| - 1];
      Samples(pods[..|pods| - 1]) + PodSamples(last, last.containers)
  }

  function Services(samples: seq<Sample>): set<Service> {
    set s | s in samples :: s.service
  }

  type Ledger = map<Instance, RestartCount>

  /** The ledger after a series of samples: an instance is entered when first seen, and never again. */
  function Absorb(ledger: Ledger, samples: seq<Sample>): Ledger {
    if samples == [] then ledger
    else
      var before, s := Absorb(ledger, samples[..|samples| - 1]), samples[|samples| - 1];
      if s.instance in before then before else before[s.instance := s.restarts]
  }

  /** No sample shows more restarts than the ledger holds when the sample is taken. */
  predicate Steady(ledger: Ledger, samples: seq<Sample>) {
    samples == [] ||
    (var before, s := Absorb(ledger, samples[..|samples| - 1]), samples[|samples| - 1];
     Steady(ledger, samples[..|samples| - 1]) && (s.instance in before ==> s.restarts <= before[s.instance]))
  }

  predicate PodsHealthy(ledger: Ledger, containers: set<Service>, pods: seq<Pod>) {
    && (forall p :: p in pods ==> Up(p))
    && Steady(ledger, Samples(pods))
    && containers <= Services(Samples(pods))
  }

  ghost predicate Grows(before: Ledger, after: Ledger) {
    before.Keys <= after.Keys && forall k :: k in before ==> after[k] == before[k]
  }

  // ---- The objects ----

  /** The baseline that all checks of a run share and write to. */
  class HealthBaseline {
    var restarts: Ledger
    var containers: set<Service>

    constructor ()
      ensures restarts == map[] && containers == {}
    {
      restarts, containers := map[], {};
    }

    /** The loops of `captureBaseline`. */
    method Capture(pods: seq<Pod>)
      modifies this
      ensures containers == old(containers) + Services(Samples(pods))
      ensures restarts == Overwrite(old(restarts), Samples(pods))
    {
      ghost var seen: seq<Sample> := [];
      for i := 0 to |pods|
        invariant seen == Samples(pods[..i])
        invariant containers == old(containers) + Services(seen)
        invariant restarts == Overwrite(old(restarts), seen)
      {
        var p := pods[i];
        assert pods[..i + 1][..i] == pods[..i];
        ghost var done := seen;
        for j := 0 to |p.containers|
          invariant seen == done + PodSamples(p, p.containers[..j])
          invariant containers == old(containers) + Services(seen)
          invariant restarts == Overwrite(old(restarts), seen)
        {
          var s := SampleOf(p, p.containers[j]);
          OneMoreCaptured(p, j, done, old(restarts), seen, s);
          restarts := restarts[s.instance := s.restarts];
          containers := containers + {s.service};
          seen := seen + [s];
        }
        assert p.containers[..|p.containers|] == p.containers;
      }
      assert pods[..|pods|] == pods;
    }

    /** `checkControlPlanePods`, on the pods listed. */
    method CheckPods(pods: seq<Pod>) returns (healthy: bool)
      modifies this`restarts
      ensures healthy <==> PodsHealthy(old(restarts), containers, pods)
      ensures healthy ==> restarts == Absorb(old(restarts), Samples(pods))
      ensures Grows(old(restarts), restarts)
    {
      var seen: set<Service> := {};
      ghost var ledger, taken := restarts, Samples([]);
      for i := 0 to |pods|
        invariant taken == Samples(pods[..i]) && seen == Services(taken)
        invariant Steady(ledger, taken) && restarts == Absorb(ledger, taken) && Grows(ledger, restarts)
        invariant forall k :: 0 <= k < i ==> Up(pods[k])
      {
        assert pods[..i + 1][..i] == pods[..i];
        if !Up(pods[i]) {
          assert pods[i] in pods;
          return false;
        }
        var steady;
        steady, seen, taken := CheckContainers(pods[i], seen, ledger, taken);
        if !steady {
          SteadyPrefix(ledger, pods, i + 1);
          return false;
        }
      }
      assert pods[..|pods|] == pods;
      return containers <= seen;
    }

    /** The inner loop of `checkControlPlanePods`. */
    method CheckContainers(p: Pod, seen: set<Service>, ghost ledger: Ledger, ghost taken: seq<Sample>)
      returns (steady: bool, seen': set<Service>, ghost taken': seq<Sample>)
      requires seen == Services(taken)
      requires Steady(ledger, taken) && restarts == Absorb(ledger, taken) && Grows(ledger, restarts)
      modifies this`restarts
      ensures Grows(ledger, restarts)
      ensures steady <==> Steady(ledger, taken + PodSamples(p, p.containers))
      ensures steady ==>
        && taken' == taken + PodSamples(p, p.containers) && seen' == Services(taken')
        && restarts == Absorb(ledger, taken')
    {
      hide Absorb, Steady, Services;
      seen', taken' := seen, taken;
      for j := 0 to |p.containers|
        invariant taken' == taken + PodSamples(p, p.containers[..j]) && seen' == Services(taken')
        invariant Steady(ledger, taken') && restarts == Absorb(ledger, taken') && Grows(ledger, restarts)
      {
        var s := SampleOf(p, p.containers[j]);
        OneMoreSample(p, j, taken, ledger, taken', s);
        seen' := seen' + {s.service};
        if s.instance in restarts {
          if s.restarts - restarts[s.instance] > 0 {
            TooManyRestarts(p, j, taken, ledger, s);
            return false, seen', taken';
          }
        } else {
          restarts := restarts[s.instance := s.restarts];
        }
        taken' := taken' + [s];
      }
      assert p.containers[..|p.containers|] == p.containers;
      return true, seen', taken';
    }
  }

  lemma OneMoreCaptured(p: Pod, j: nat, done: seq<Sample>, ledger: Ledger, seen: seq<Sample>, s: Sample)
    requires j < |p.containers| && s == SampleOf(p, p.containers[j])
    requires seen == done + PodSamples(p, p.containers[..j])
    ensures seen + [s] == done + PodSamples(p, p.containers[..j + 1])
    ensures Services(seen + [s]) == Services(seen) + {s.service}
    ensures Overwrite(ledger, seen + [s]) == Overwrite(ledger, seen)[s.instance := s.restarts]
  {
    assert p.containers[..j + 1][..j] == p.containers[..j];
    assert (seen + [s])[..|seen|] == seen;
  }

  lemma OneMoreSample(p: Pod, j: nat, taken: seq<Sample>, ledger: Ledger, taken': seq<Sample>, s: Sample)
    requires j < |p.containers| && s == SampleOf(p, p.containers[j])
    requires taken' == taken + PodSamples(p, p.containers[..j])
    ensures taken' + [s] == taken + PodSamples(p, p.containers[..j + 1])
    ensures Services(taken' + [s]) == Services(taken') + {s.service}
    ensures Absorb(ledger, taken' + [s]) ==
            var before := Absorb(ledger, taken');
            if s.instance in before then before else before[s.instance := s.restarts]
    ensures Steady(ledger, taken' + [s]) <==>
            var before := Absorb(ledger, taken');
            Steady(ledger, taken') && (s.instance in before ==> s.restarts <= before[s.instance])
  {
    assert p.containers[..j + 1][..j] == p.containers[..j];
    assert (taken' + [s])[..|taken'|] == taken';
  }

  lemma TooManyRestarts(p: Pod, j: nat, taken: seq<Sample>, ledger: Ledger, s: Sample)
    requires j < |p.containers| && s == SampleOf(p, p.containers[j])
    requires !Steady(ledger, taken + PodSamples(p, p.containers[..j + 1]))
    ensures !Steady(ledger, taken + PodSamples(p, p.containers))
  {
    PodSamplesSplit(p, p.containers, j + 1);
    var upTo, rest := taken + PodSamples(p, p.containers[..j + 1]), PodSamples(p, p.containers[j + 1..]);
    assert taken + PodSamples(p, p.containers) == upTo + rest;
    SteadyShorter(ledger, upTo, rest);
  }

  function Overwrite(ledger: Ledger, samples: seq<Sample>): Ledger {
    if samples == [] then ledger
    else
      var s := samples[|samples| - 1];
      Overwrite(ledger, samples[..|samples| - 1])[s.instance := s.restarts]
  }

  lemma {:induction false} SteadyShorter(ledger: Ledger, a: seq<Sample>, b: seq<Sample>)
    ensures Steady(ledger, a + b) ==> Steady(ledger, a)
    decreases |b|
  {
    if b == [] {
      assert a + b == a;
    } else {
      var front := b[..|b| - 1];
      assert (a + b)[..|a + b| - 1] == a + front;
      SteadyShorter(ledger, a, front);
    }
  }

  lemma {:induction false} PodSamplesSplit(p: Pod, containers: seq<Container>, j: nat)
    requires j <= |containers|
    ensures PodSamples(p, containers) == PodSamples(p, containers[..j]) + PodSamples(p, containers[j..])
    decreases |containers|
  {
    if j == |containers| {
      assert containers[..j] == containers && containers[j..] == [];
    } else {
      var front, last := containers[..|containers| - 1], containers[|containers| - 1];
      PodSamplesSplit(p, front, j);
      assert front[..j] == containers[..j];
      assert containers[j..][..|containers| - j - 1] == front[j..];
    }
  }

  lemma {:induction false} SamplesPrefix(pods: seq<Pod>, i: nat) returns (rest: seq<Sample>)
    requires i <= |pods|
    ensures Samples(pods) == Samples(pods[..i]) + rest
    decreases |pods|
  {
    if i == |pods| {
      rest := [];
      assert pods[..i] == pods;
    } else {
      var front, last := pods[..|pods| - 1], pods[|pods| - 1];
      assert front[..i] == pods[..i];
      rest := SamplesPrefix(front, i);
      rest := rest + PodSamples(last, last.containers);
    }
  }

  lemma SteadyPrefix(ledger: Ledger, pods: seq<Pod>, i: nat)
    requires i <= |pods|
    ensures Steady(ledger, Samples(pods)) ==> Steady(ledger, Samples(pods[..i]))
  {
    var rest := SamplesPrefix(pods, i);
    SteadyShorter(ledger, Samples(pods[..i]), rest);
  }

  /** What `captureBaseline` leaves. */
  datatype Baseline = Baseline(ledger: Ledger, containers: set<Service>)

  /** The baseline in an inspection; none when the pods cannot be listed or no service pod is found. */
  function BaselineOf(i: Inspection): Option<Baseline> {
    var pods := HealthPods(i.controlPlane, i.harvester);
    if pods.Err? || !exists p :: p in pods.value && p.namespace == HARVESTER then None
    else Some(Baseline(Overwrite(map[], Samples(pods.value)), Services(Samples(pods.value))))
  }

  /** `captureBaseline`, on what it is told of the pods. */
  method CaptureBaseline(i: Inspection) returns (baseline: HealthBaseline?)
    ensures baseline == null <==> BaselineOf(i).None?
    ensures baseline != null ==>
      fresh(baseline) && BaselineOf(i) == Some(Baseline(baseline.restarts, baseline.containers))
  {
    var pods := ListHealthPods(i.controlPlane, i.harvester);
    if pods.Err? {
      return null;
    }
    if !exists p :: p in pods.value && p.namespace == HARVESTER {
      return null;
    }
    baseline := new HealthBaseline();
    baseline.Capture(pods.value);
    assert {} + Services(Samples(pods.value)) == Services(Samples(pods.value));
  }

  /** The verdict of `checkClusterHealth`: an unhealthy state seen, or an inspection not completed. */
  function ClusterVerdict(ledger: Ledger, containers: set<Service>, i: Inspection): Health {
    if NodesHealth(i.nodes) != Healthy then NodesHealth(i.nodes)
    else if i.etcd.Some? then InspectionFailed
    else
      var pods := HealthPods(i.controlPlane, i.harvester);
      if pods.Err? then InspectionFailed
      else if PodsHealthy(ledger, containers, pods.value) then Healthy
      else Unhealthy
  }

  /** The samples a healthy check has entered in the ledger. */
  function Taken(i: Inspection): seq<Sample> {
    var pods := HealthPods(i.controlPlane, i.harvester);
    if pods.Ok? then Samples(pods.value) else []
  }

  method CheckClusterHealth(baseline: HealthBaseline, i: Inspection) returns (h: Health)
    modifies baseline`restarts
    ensures h == ClusterVerdict(old(baseline.restarts), baseline.containers, i)
    ensures h == Healthy ==> baseline.restarts == Absorb(old(baseline.restarts), Taken(i))
    ensures Grows(old(baseline.restarts), baseline.restarts)
  {
    h := CheckNodes(i.nodes);
    if h != Healthy {
      return;
    }
    if i.etcd.Some? {
      return InspectionFailed;
    }
    var pods := ListHealthPods(i.controlPlane, i.harvester);
    if pods.Err? {
      return InspectionFailed;
    }
    var healthy := baseline.CheckPods(pods.value);
    return if healthy then Healthy else Unhealthy;
  }

  // ---- The gate over a whole run ----

  /** Every check of a series is healthy, each against the ledger the earlier ones left. */
  predicate GateHolds(ledger: Ledger, containers: set<Service>, checks: seq<Inspection>) {
    checks == [] ||
    (var front := checks[..|checks| - 1];
     && GateHolds(ledger, containers, front)
     && ClusterVerdict(LedgerAfter(ledger, front), containers, checks[|checks| - 1]) == Healthy)
  }

  function LedgerAfter(ledger: Ledger, checks: seq<Inspection>): Ledger {
    Absorb(ledger, AllTaken(checks))
  }

  /** All samples of a series of checks, in the order taken. */
  function AllTaken(checks: seq<Inspection>): seq<Sample> {
    if checks == [] then [] else AllTaken(checks[..|checks| - 1]) + Taken(checks[|checks| - 1])
  }

  lemma {:induction false} AbsorbConcat(ledger: Ledger, a: seq<Sample>, b: seq<Sample>)
    ensures Absorb(ledger, a + b) == Absorb(Absorb(ledger, a), b)
    ensures Steady(ledger, a + b) <==> Steady(ledger, a) && Steady(Absorb(ledger, a), b)
    decreases |b|
  {
    if b == [] {
      assert a + b == a;
    } else {
      var front := b[..|b| - 1];
      assert (a + b)[..|a + b| - 1] == a + front;
      AbsorbConcat(ledger, a, front);
    }
  }

  /** One more healthy check. */
  lemma GateExtends(ledger: Ledger, containers: set<Service>, checks: seq<Inspection>, i: Inspection)
    requires GateHolds(ledger, containers, checks)
    requires ClusterVerdict(LedgerAfter(ledger, checks), containers, i) == Healthy
    ensures GateHolds(ledger, containers, checks + [i])
    ensures LedgerAfter(ledger, checks + [i]) == Absorb(LedgerAfter(ledger, checks), Taken(i))
  {
    assert (checks + [i])[..|checks|] == checks;
    AbsorbConcat(ledger, AllTaken(checks), Taken(i));
  }

  lemma HealthyVerdict(ledger: Ledger, containers: set<Service>, i: Inspection)
    requires ClusterVerdict(ledger, containers, i) == Healthy
    ensures Steady(ledger, Taken(i)) && containers <= Services(Taken(i))
  {
  }

  /** A run of healthy checks is one long steady series of samples. */
  lemma {:induction false} GateIsSteady(ledger: Ledger, containers: set<Service>, checks: seq<Inspection>)
    requires GateHolds(ledger, containers, checks)
    ensures Steady(ledger, AllTaken(checks))
    decreases |checks|
  {
    if checks != [] {
      var front, last := checks[..|checks| - 1], checks[|checks| - 1];
      GateIsSteady(ledger, containers, front);
      HealthyVerdict(LedgerAfter(ledger, front), containers, last);
      AbsorbConcat(ledger, AllTaken(front), Taken(last));
    }
  }

  lemma {:induction false} GateSeesServices(ledger: Ledger, containers: set<Service>, checks: seq<Inspection>, i: nat)
    requires GateHolds(ledger, containers, checks) && i < |checks|
    ensures containers <= Services(Taken(checks[i]))
    decreases |checks|
  {
    hide ClusterVerdict, Services, Taken, LedgerAfter;
    var front, last := checks[..|checks| - 1], checks[|checks| - 1];
    if i < |front| {
      GateSeesServices(ledger, containers, front, i);
    } else {
      HealthyVerdict(LedgerAfter(ledger, front), containers, last);
    }
  }

  /** Entries are only added, and every sampled instance has one. */
  lemma {:induction false} AbsorbGrows(ledger: Ledger, samples: seq<Sample>)
    ensures Grows(ledger, Absorb(ledger, samples))
    ensures forall i :: 0 <= i < |samples| ==> samples[i].instance in Absorb(ledger, samples)
    decreases |samples|
  {
    if samples != [] {
      var front := samples[..|samples| - 1];
      AbsorbGrows(ledger, front);
      assert forall i :: 0 <= i < |front| ==> samples[i] == front[i];
    }
  }

  ghost predicate FirstSample(samples: seq<Sample>, k: Instance, i: int) {
    0 <= i < |samples| && samples[i].instance == k && forall j :: 0 <= j < i ==> samples[j].instance != k
  }

  /** A new entry holds the count the instance was first seen with. */
  lemma {:induction false} EntryIsFirstSeen(ledger: Ledger, samples: seq<Sample>, k: Instance) returns (i: int)
    requires k in Absorb(ledger, samples) && k !in ledger
    ensures FirstSample(samples, k, i) && samples[i].restarts == Absorb(ledger, samples)[k]
    decreases |samples|
  {
    var front := samples[..|samples| - 1];
    if k in Absorb(ledger, front) {
      i := EntryIsFirstSeen(ledger, front, k);
      assert samples[i] == front[i];
    } else {
      i := |front|;
      AbsorbGrows(ledger, front);
      assert forall j :: 0 <= j < i ==> samples[j] == front[j];
    }
  }

  /** A series is steady exactly if no sample exceeds its entry in the final ledger. */
  lemma {:induction false} SteadyIff(ledger: Ledger, samples: seq<Sample>)
    ensures (forall i :: 0 <= i < |samples| ==> samples[i].instance in Absorb(ledger, samples))
    ensures Steady(ledger, samples) <==>
            forall i :: 0 <= i < |samples| ==> samples[i].restarts <= Absorb(ledger, samples)[samples[i].instance]
    decreases |samples|
  {
    AbsorbGrows(ledger, samples);
    if samples != [] {
      var front, s := samples[..|samples| - 1], samples[|samples| - 1];
      var before, after := Absorb(ledger, front), Absorb(ledger, samples);
      SteadyIff(ledger, front);
      forall i | 0 <= i < |front|
        ensures samples[i] == front[i] && after[samples[i].instance] == before[samples[i].instance]
      {
      }
      assert Steady(ledger, samples) <==> Steady(ledger, front) && s.restarts <= after[s.instance];
    }
  }

  /** Restart counts of an instance never go down, from the ledger on. */
  ghost predicate CountsNeverDrop(ledger: Ledger, samples: seq<Sample>) {
    && (forall i, j :: 0 <= i < j < |samples| && samples[i].instance == samples[j].instance ==>
          samples[i].restarts <= samples[j].restarts)
    && (forall i :: 0 <= i < |samples| && samples[i].instance in ledger ==>
          ledger[samples[i].instance] <= samples[i].restarts)
  }

  /**
   * Over any series of healthy checks that share one baseline: the ledger only grows; no
   * container instance ever shows more restarts than its entry; and every container of the
   * baseline is present in every check.
   */
  lemma HealthOverRun(ledger: Ledger, containers: set<Service>, checks: seq<Inspection>)
    requires GateHolds(ledger, containers, checks)
    ensures Grows(ledger, LedgerAfter(ledger, checks))
    ensures var after, samples := LedgerAfter(ledger, checks), AllTaken(checks);
            forall i :: 0 <= i < |samples| ==>
              samples[i].instance in after && samples[i].restarts <= after[samples[i].instance]
    ensures forall i :: 0 <= i < |checks| ==> containers <= Services(Taken(checks[i]))
  {
    GateIsSteady(ledger, containers, checks);
    AbsorbGrows(ledger, AllTaken(checks));
    SteadyIff(ledger, AllTaken(checks));
    forall i | 0 <= i < |checks| ensures containers <= Services(Taken(checks[i])) {
      GateSeesServices(ledger, containers, checks, i);
    }
  }

  lemma NoRestartsInSeries(ledger: Ledger, samples: seq<Sample>, i: int)
    requires Steady(ledger, samples) && CountsNeverDrop(ledger, samples)
    requires 0 <= i < |samples|
    ensures samples[i].instance in Absorb(ledger, samples)
    ensures samples[i].restarts == Absorb(ledger, samples)[samples[i].instance]
  {
    var k := samples[i].instance;
    AbsorbGrows(ledger, samples);
    SteadyIff(ledger, samples);
    if k !in ledger {
      var j := EntryIsFirstSeen(ledger, samples, k);
    }
  }

  /** If counts never drop, no watched container restarts at all between healthy checks. */
  lemma NoRestartsOverRun(ledger: Ledger, containers: set<Service>, checks: seq<Inspection>, i: int)
    requires GateHolds(ledger, containers, checks) && CountsNeverDrop(ledger, AllTaken(checks))
    requires 0 <= i < |AllTaken(checks)|
    ensures var after, s := LedgerAfter(ledger, checks), AllTaken(checks)[i];
            s.instance in after && s.restarts == after[s.instance]
  {
    GateIsSteady(ledger, containers, checks);
    NoRestartsInSeries(ledger, AllTaken(checks), i);
  }
}
