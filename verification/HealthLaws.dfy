/**
 * What the health gate looks at (internal/suites/density/density.go), in terms of the nodes, pods
 * and container statuses of an inspection. Nothing here is said through the functions that model
 * the code, but for the order in which container statuses are read.
 */
module HealthLaws {
  import opened Wrappers
  import opened VmiStartup
  import opened ClusterHealth

  // ---- Nodes ----

  /** The last Ready condition is True, and memory, disk and PID pressure are all ruled out. */
  ghost predicate NodeFine(n: Node) {
    && (exists k :: 0 <= k < |n.conditions| && LastReadyAt(n.conditions, k) && n.conditions[k].status == True)
    && (forall k :: 0 <= k < |n.conditions| ==>
          n.conditions[k].conditionType in {MemoryPressure, DiskPressure, PIDPressure} ==>
            n.conditions[k].status == False)
  }

  ghost predicate LastReadyAt(conditions: seq<NodeCondition>, k: int) {
    && 0 <= k < |conditions| && conditions[k].conditionType == NodeReady
    && forall l :: k < l < |conditions| ==> conditions[l].conditionType != NodeReady
  }

  lemma {:induction false} LastReadyIff(conditions: seq<NodeCondition>)
    ensures LastReady(conditions) <==>
            exists k :: 0 <= k < |conditions| && LastReadyAt(conditions, k) && conditions[k].status == True
    decreases |conditions|
  {
    if conditions != [] {
      var last := |conditions| - 1;
      if conditions[last].conditionType == NodeReady {
        assert LastReadyAt(conditions, last);
      } else {
        var front := conditions[..last];
        LastReadyIff(front);
        forall k ensures LastReadyAt(conditions, k) <==> LastReadyAt(front, k) {
          assert 0 <= k < last ==> front[k] == conditions[k];
        }
      }
    }
  }

  lemma NodeHealthyIff(n: Node)
    ensures NodeHealthy(n) <==> NodeFine(n)
  {
    LastReadyIff(n.conditions);
    if NodeFine(n) {
      forall c | c in n.conditions ensures !UnderPressure(c) {
        var k :| 0 <= k < |n.conditions| && n.conditions[k] == c;
      }
    }
    if NodeHealthy(n) {
      forall k | 0 <= k < |n.conditions| && n.conditions[k].conditionType in {MemoryPressure, DiskPressure, PIDPressure}
        ensures n.conditions[k].status == False
      {
        assert n.conditions[k] in n.conditions;
      }
    }
  }

  // ---- Pods and container statuses ----

  /** A control-plane pod, or a "harvester-" or "virt-" pod of the Harvester namespace that no job owns. */
  ghost predicate Inspects(i: Inspection, p: Pod) {
    || (i.controlPlane.Ok? && p in i.controlPlane.value)
    || (i.harvester.Ok? && p in i.harvester.value && ("harvester-" <= p.name || "virt-" <= p.name) && !p.ownedByJob)
  }

  /** One of these pods shows this container. */
  ghost predicate Shows(i: Inspection, p: Pod, c: Container) {
    Inspects(i, p) && c in p.containers
  }

  lemma {:induction false} WatchedPodsAre(pods: seq<Pod>, p: Pod)
    ensures p in WatchedPods(pods) <==>
            p in pods && ("harvester-" <= p.name || "virt-" <= p.name) && !p.ownedByJob
    ensures multiset(WatchedPods(pods))[p] <= multiset(pods)[p]
    decreases |pods|
  {
    if pods != [] {
      var front, last := pods[..|pods| - 1], pods[|pods| - 1];
      WatchedPodsAre(front, p);
      assert pods == front + [last];
    }
  }

  /** The pods judged, once both lists are answered. */
  lemma HealthPodsAre(i: Inspection, p: Pod)
    ensures HealthPods(i.controlPlane, i.harvester).Ok? <==> i.controlPlane.Ok? && i.harvester.Ok?
    ensures HealthPods(i.controlPlane, i.harvester).Ok? ==>
      (p in HealthPods(i.controlPlane, i.harvester).value <==> Inspects(i, p))
  {
    if i.harvester.Ok? {
      WatchedPodsAre(i.harvester.value, p);
    }
  }

  lemma {:induction false} PodSamplesAre(p: Pod, containers: seq<Container>, s: Sample)
    ensures s in PodSamples(p, containers) <==> exists c :: c in containers && s == SampleOf(p, c)
    decreases |containers|
  {
    if containers != [] {
      var front, last := containers[..|containers| - 1], containers[|containers| - 1];
      PodSamplesAre(p, front, s);
      assert containers == front + [last];
      if c :| c in containers && s == SampleOf(p, c) {
        assert c in front || c == last;
      }
    }
  }

  lemma {:induction false} SamplesAre(pods: seq<Pod>, s: Sample)
    ensures s in Samples(pods) <==> exists p, c :: p in pods && c in p.containers && s == SampleOf(p, c)
    decreases |pods|
  {
    if pods != [] {
      var front, last := pods[..|pods| - 1], pods[|pods| - 1];
      SamplesAre(front, s);
      PodSamplesAre(last, last.containers, s);
      assert pods == front + [last];
      if p, c :| p in pods && c in p.containers && s == SampleOf(p, c) {
        assert p in front || p == last;
      }
    }
  }

  /** The container statuses sampled are those of the pods looked at, each under its own name. */
  lemma TakenAre(i: Inspection, s: Sample)
    requires i.controlPlane.Ok? && i.harvester.Ok?
    ensures s in Taken(i) <==>
            exists p, c :: Shows(i, p, c) && s == Sample(Instance(p.namespace, p.name, p.uid, c.name),
                                                        Service(p.namespace, p.name, c.name), c.restarts)
  {
    var pods := HealthPods(i.controlPlane, i.harvester).value;
    SamplesAre(pods, s);
    forall p ensures p in pods <==> Inspects(i, p) {
      HealthPodsAre(i, p);
    }
    if p, c :| p in pods && c in p.containers && s == SampleOf(p, c) {
      assert Shows(i, p, c);
    }
    if p, c :| Shows(i, p, c) && s == SampleOf(p, c) {
      assert p in pods && c in p.containers;
    }
  }

  // ---- Restart counts ----

  ghost predicate FirstOf(samples: seq<Sample>, a: int, b: int) {
    && 0 <= a <= b < |samples| && samples[a].instance == samples[b].instance
    && forall j :: 0 <= j < a ==> samples[j].instance != samples[b].instance
  }

  /**
   * No sample shows more restarts than the ledger says, or, for an instance new to the ledger,
   * than its first sample.
   */
  ghost predicate NoneRestarted(ledger: Ledger, samples: seq<Sample>) {
    && (forall b :: 0 <= b < |samples| && samples[b].instance in ledger ==>
          samples[b].restarts <= ledger[samples[b].instance])
    && (forall a, b :: FirstOf(samples, a, b) && samples[b].instance !in ledger ==>
          samples[b].restarts <= samples[a].restarts)
  }

  lemma SteadyIsNoneRestarted(ledger: Ledger, samples: seq<Sample>)
    ensures Steady(ledger, samples) <==> NoneRestarted(ledger, samples)
  {
    SteadyIff(ledger, samples);
    AbsorbGrows(ledger, samples);
    var after := Absorb(ledger, samples);
    forall a, b | FirstOf(samples, a, b) && samples[b].instance !in ledger
      ensures after[samples[b].instance] == samples[a].restarts
    {
      var i := EntryIsFirstSeen(ledger, samples, samples[b].instance);
      assert i == a;
    }
    forall b | 0 <= b < |samples| ensures samples[b].instance !in ledger ==> exists a :: FirstOf(samples, a, b) {
      if samples[b].instance !in ledger {
        var i := EntryIsFirstSeen(ledger, samples, samples[b].instance);
        assert FirstOf(samples, i, b);
      }
    }
  }

  // ---- The verdict ----

  /** Everything was answered, and there is a node. */
  ghost predicate Answered(i: Inspection) {
    i.nodes.Ok? && i.nodes.value != [] && i.etcd.None? && i.controlPlane.Ok? && i.harvester.Ok?
  }

  /**
   * What makes a cluster healthy: everything was answered; every node is fine; every pod looked at
   * is running, ready and not being deleted; no container status shows a restart; and every
   * container of the baseline is shown by some pod.
   */
  ghost predicate Sound(ledger: Ledger, containers: set<Service>, i: Inspection) {
    && Answered(i)
    && (forall k :: 0 <= k < |i.nodes.value| ==> NodeFine(i.nodes.value[k]))
    && (forall p :: Inspects(i, p) ==> p.running && p.ready && !p.deleting)
    && NoneRestarted(ledger, Taken(i))
    && (forall s :: s in containers ==> exists p, c :: Shows(i, p, c) && s == Service(p.namespace, p.name, c.name))
  }

  lemma HealthyIff(ledger: Ledger, containers: set<Service>, i: Inspection)
    ensures ClusterVerdict(ledger, containers, i) == Healthy <==> Sound(ledger, containers, i)
  {
    hide NodeHealthy, NodeFine, Steady, NoneRestarted, Samples, Inspects, WatchedPods;
    NodesIff(i);
    if i.controlPlane.Ok? && i.harvester.Ok? {
      PodsIff(ledger, containers, i);
    } else {
      HealthPodsFail(i);
    }
  }

  lemma NodesIff(i: Inspection)
    ensures NodesHealth(i.nodes) == Healthy <==>
            i.nodes.Ok? && i.nodes.value != [] && forall k :: 0 <= k < |i.nodes.value| ==> NodeFine(i.nodes.value[k])
    ensures NodesHealth(i.nodes) == InspectionFailed <==> i.nodes.Err? || i.nodes.value == []
  {
    hide NodeHealthy, NodeFine;
    if i.nodes.Ok? {
      forall k | 0 <= k < |i.nodes.value| ensures i.nodes.value[k] in i.nodes.value &&
        (NodeHealthy(i.nodes.value[k]) <==> NodeFine(i.nodes.value[k]))
      {
        NodeHealthyIff(i.nodes.value[k]);
      }
    }
  }

  lemma HealthPodsFail(i: Inspection)
    requires i.controlPlane.Err? || i.harvester.Err?
    ensures HealthPods(i.controlPlane, i.harvester).Err?
  {
  }

  lemma PodsIff(ledger: Ledger, containers: set<Service>, i: Inspection)
    requires i.controlPlane.Ok? && i.harvester.Ok?
    ensures HealthPods(i.controlPlane, i.harvester).Ok?
    ensures PodsHealthy(ledger, containers, HealthPods(i.controlPlane, i.harvester).value) <==>
            && (forall p :: Inspects(i, p) ==> p.running && p.ready && !p.deleting)
            && NoneRestarted(ledger, Taken(i))
            && (forall s :: s in containers ==>
                  exists p, c :: Shows(i, p, c) && s == Service(p.namespace, p.name, c.name))
  {
    hide Steady, NoneRestarted, Samples, Inspects, WatchedPods, Shows;
    var pods := HealthPods(i.controlPlane, i.harvester).value;
    SteadyIsNoneRestarted(ledger, Taken(i));
    forall p ensures p in pods <==> Inspects(i, p) {
      HealthPodsAre(i, p);
    }
    forall s: Service
      ensures s in Services(Taken(i)) <==> exists p, c :: Shows(i, p, c) && s == Service(p.namespace, p.name, c.name)
    {
      ServiceShown(i, s);
    }
  }

  lemma ServiceShown(i: Inspection, s: Service)
    requires i.controlPlane.Ok? && i.harvester.Ok?
    ensures s in Services(Taken(i)) <==> exists p, c :: Shows(i, p, c) && s == Service(p.namespace, p.name, c.name)
  {
    hide Shows, Taken;
    if s in Services(Taken(i)) {
      var x :| x in Taken(i) && x.service == s;
      TakenAre(i, x);
    }
    if p, c :| Shows(i, p, c) && s == Service(p.namespace, p.name, c.name) {
      var x := Sample(Instance(p.namespace, p.name, p.uid, c.name), s, c.restarts);
      TakenAre(i, x);
    }
  }

  /** The nodes were not answered or there is none, or all are fine and etcd or one of the pod lists failed. */
  ghost predicate NotInspected(i: Inspection) {
    || i.nodes.Err? || i.nodes.value == []
    || (&& (forall k :: 0 <= k < |i.nodes.value| ==> NodeFine(i.nodes.value[k]))
        && (i.etcd.Some? || i.controlPlane.Err? || i.harvester.Err?))
  }

  /** The inspection got far enough to see that the cluster is not sound. */
  ghost predicate Ill(ledger: Ledger, containers: set<Service>, i: Inspection) {
    !Sound(ledger, containers, i) && !NotInspected(i)
  }

  /** The inspection itself has failed exactly then. */
  lemma InspectionFailedIff(ledger: Ledger, containers: set<Service>, i: Inspection)
    ensures ClusterVerdict(ledger, containers, i) == InspectionFailed <==> NotInspected(i)
  {
    hide NodesHealth, NodeFine, PodsHealthy, WatchedPods;
    NodesIff(i);
  }

  lemma VerdictIff(ledger: Ledger, containers: set<Service>, i: Inspection)
    ensures match ClusterVerdict(ledger, containers, i)
            case Healthy => Sound(ledger, containers, i)
            case InspectionFailed => NotInspected(i)
            case Unhealthy => Ill(ledger, containers, i)
    ensures !(Sound(ledger, containers, i) && NotInspected(i))
  {
    hide ClusterVerdict, NodeFine, NoneRestarted, Inspects, Shows;
    HealthyIff(ledger, containers, i);
    InspectionFailedIff(ledger, containers, i);
  }

  // ---- The baseline ----

  /** `k`'s last status in the order read. */
  ghost predicate LastOf(samples: seq<Sample>, k: Instance, a: int) {
    && 0 <= a < |samples| && samples[a].instance == k
    && forall j :: a < j < |samples| ==> samples[j].instance != k
  }

  lemma {:induction false} OverwriteIsLast(samples: seq<Sample>, k: Instance)
    ensures k in Overwrite(map[], samples) <==> exists a :: LastOf(samples, k, a)
    ensures forall a :: LastOf(samples, k, a) && k in Overwrite(map[], samples) ==>
              Overwrite(map[], samples)[k] == samples[a].restarts
    decreases |samples|
  {
    if samples != [] {
      var last := |samples| - 1;
      var front := samples[..last];
      OverwriteIsLast(front, k);
      if samples[last].instance == k {
        assert LastOf(samples, k, last);
      } else {
        forall a ensures LastOf(samples, k, a) <==> LastOf(front, k, a) {
          assert 0 <= a < last ==> front[a] == samples[a];
        }
      }
    }
  }

  /** A baseline is captured exactly if both lists were answered and a pod looked at is in the Harvester namespace. */
  lemma BaselineIff(i: Inspection)
    ensures BaselineOf(i).Some? <==>
            i.controlPlane.Ok? && i.harvester.Ok? && exists p :: Inspects(i, p) && p.namespace == "harvester-system"
  {
    hide Samples, Inspects, WatchedPods, Overwrite;
    if i.controlPlane.Ok? && i.harvester.Ok? {
      HealthPodsFit(i);
      forall p ensures p in HealthPods(i.controlPlane, i.harvester).value <==> Inspects(i, p) {
        HealthPodsAre(i, p);
      }
    } else {
      HealthPodsFail(i);
    }
  }

  lemma HealthPodsFit(i: Inspection)
    requires i.controlPlane.Ok? && i.harvester.Ok?
    ensures HealthPods(i.controlPlane, i.harvester).Ok?
  {
  }

  /** It holds the containers shown, and for each instance the count of its last status. */
  lemma BaselineHolds(i: Inspection, s: Service, k: Instance)
    requires BaselineOf(i).Some?
    ensures s in BaselineOf(i).value.containers <==>
            exists p, c :: Shows(i, p, c) && s == Service(p.namespace, p.name, c.name)
    ensures k in BaselineOf(i).value.ledger <==> exists a :: LastOf(Taken(i), k, a)
    ensures forall a :: LastOf(Taken(i), k, a) && k in BaselineOf(i).value.ledger ==>
              BaselineOf(i).value.ledger[k] == Taken(i)[a].restarts
  {
    hide Samples, Inspects, WatchedPods, Shows, Overwrite;
    BaselineIff(i);
    ServiceShown(i, s);
    OverwriteIsLast(Taken(i), k);
  }

  /** What a healthy check adds to the ledger: each instance new to it, with its first count. */
  lemma HealthyCheckEnters(ledger: Ledger, i: Inspection, k: Instance)
    ensures k in ledger ==> k in Absorb(ledger, Taken(i)) && Absorb(ledger, Taken(i))[k] == ledger[k]
    ensures k !in ledger ==> (k in Absorb(ledger, Taken(i)) <==> exists a :: FirstSample(Taken(i), k, a))
    ensures forall a :: k !in ledger && FirstSample(Taken(i), k, a) ==>
              k in Absorb(ledger, Taken(i)) && Absorb(ledger, Taken(i))[k] == Taken(i)[a].restarts
  {
    AbsorbGrows(ledger, Taken(i));
    if k !in ledger && k in Absorb(ledger, Taken(i)) {
      var a := EntryIsFirstSeen(ledger, Taken(i), k);
      forall b | FirstSample(Taken(i), k, b) ensures a == b {
      }
    }
  }
}
