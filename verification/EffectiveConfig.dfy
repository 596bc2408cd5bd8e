/**
 * The default options (internal/suites/options/default.go) and the configuration a suite
 * actually runs with: `runSuites` (cmd/run.go) layers the user's sections and the tools
 * directory, and `NewOptions` (internal/suites/density/options.go) merges them over the
 * defaults.
 */
module EffectiveConfig {
  import opened Wrappers
  import opened OptionTree
  import opened Keys
  import opened Canonicalization
  import opened CanonicalLaws

  const TOOLS_DIR := "toolsDir"

  function DefaultGlobalOptions(): Options {
    map[
      "etcdNamespace" := Leaf(Text("kube-system")),
      "etcdReadyTimeout" := Leaf(Duration(300)),
      "jobActiveDeadline" := Leaf(Duration(3600)),
      "jobPodImageName" := Leaf(Text("registry.suse.com/bci/bci-base")),
      "jobPodImageTag" := Leaf(Text("latest")),
      "jobPodNode" := Leaf(Text("")),
      "jobPodTTLAfterFinished" := Leaf(Duration(300)),
      "jobPodReadyTimeout" := Leaf(Duration(3600)),
      "jobSuspend" := Leaf(Flag(false)),
      "longhornNamespace" := Leaf(Text("longhorn-system")),
      "monitoringAddonName" := Leaf(Text("rancher-monitoring")),
      "monitoringNamespace" := Leaf(Text("cattle-monitoring-system")),
      "monitoringRangeDuration" := Leaf(Duration(300)),
      "monitoringWaitPodMonitorTimeout" := Leaf(Duration(600)),
      "namespaceReadyTimeout" := Leaf(Duration(300))
    ]
  }

  function DefaultVMDensityOptions(): Options {
    map[
      "batchSize" := Leaf(Number(10)),
      "batchWaitTimeout" := Leaf(Duration(300)),
      "vmi" := Nested(map[
        "containerDisk" := Leaf(Text("quay.io/kubevirt/cirros-container-disk-demo:latest")),
        "memory" := Leaf(Text("90Mi")),
        "cpu" := Leaf(Text("100m"))
      ])
    ]
  }

  ghost predicate Flat(o: Options) {
    forall k :: k in o ==> o[k].Leaf?
  }

  /** The layering of `runSuites`: two shallow copies, then the tools directory. */
  function Overlay(global: Options, section: Options, toolsDir: string): Options {
    (global + section)[TOOLS_DIR := Leaf(Text(toolsDir))]
  }

  /** `NewOptions`, up to decoding. */
  function Effective(globalDefaults: Options, suiteDefaults: Options, override: Options): Options {
    Merge(Merge(globalDefaults, suiteDefaults), override)
  }

  function OrElse(setting: Option<Scalar>, fallback: Option<Scalar>): Option<Scalar> {
    if setting.Some? then setting else fallback
  }

  /** What the setting at a path should be: the most specific layer that has one wins. */
  function Precedence(toolsDir: string, section: Options, global: Options,
                      suiteDefaults: Options, globalDefaults: Options, p: Path): Option<Scalar> {
    if p == [TOOLS_DIR] then Some(Text(toolsDir))
    else OrElse(LeafAt(section, p),
         OrElse(LeafAt(global, p),
         OrElse(LeafAt(suiteDefaults, p), LeafAt(globalDefaults, p))))
  }

  /** A suite's schema may repeat a global key, or declare the tools directory, only as a plain setting. */
  ghost predicate NoShadowedSection(globalDefaults: Options, suiteDefaults: Options) {
    forall k :: k in suiteDefaults && (k in globalDefaults || k == TOOLS_DIR) ==> suiteDefaults[k].Leaf?
  }

  /** A flat global section makes the shallow copies of `runSuites` a deep merge. */
  lemma OverlayIsMerge(global: Options, section: Options)
    requires Flat(global)
    ensures global + section == Merge(global, section)
  {
    ShallowIsDeepIff(global, section);
  }

  lemma EffectiveByPath(globalDefaults: Options, suiteDefaults: Options, global: Options, section: Options,
                        toolsDir: string, p: Path)
    requires Flat(globalDefaults) && NoShadowedSection(globalDefaults, suiteDefaults)
    requires Conforms(global, globalDefaults) && Conforms(section, suiteDefaults)
    ensures LeafAt(Effective(globalDefaults, suiteDefaults, Overlay(global, section, toolsDir)), p)
         == Precedence(toolsDir, section, global, suiteDefaults, globalDefaults, p)
  {
    var defaults, over := Merge(globalDefaults, suiteDefaults), Overlay(global, section, toolsDir);
    MergeByPath(defaults, over, p);
    MergeByPath(globalDefaults, suiteDefaults, p);
    if p != [] {
      LookFlat(global, p);
      LookFlat(globalDefaults, p);
      ConformingLook(section, suiteDefaults, p);
      LookOverlay(global, section, toolsDir, p);
      if p[0] in globalDefaults || p[0] == TOOLS_DIR {
        LookFlat(section, p);
        LookFlat(suiteDefaults, p);
      }
    }
  }

  lemma LookFlat(o: Options, p: Path)
    requires p != [] && (p[0] in o ==> o[p[0]].Leaf?)
    ensures Look(o, p) == if p[0] !in o then Absent else if |p| == 1 then At(o[p[0]]) else Blocked
  {
  }

  /** Below a conforming tree a path is blocked or ends in a section only where the schema's is. */
  lemma {:induction false} ConformingLook(o: Options, schema: Options, p: Path)
    requires Conforms(o, schema)
    ensures match Look(o, p)
            case Absent => true
            case Blocked => Look(schema, p).Blocked?
            case At(v) => Look(schema, p).At? && Look(schema, p).value.Nested? == v.Nested?
    decreases |p|
  {
    if |p| > 1 && p[0] in o && o[p[0]].Nested? {
      ConformingLook(o[p[0]].options, schema[p[0]].options, p[1..]);
    }
  }

  lemma LookOverlay(global: Options, section: Options, toolsDir: string, p: Path)
    requires p != []
    ensures Look(Overlay(global, section, toolsDir), p) ==
            if p[0] == TOOLS_DIR then (if |p| == 1 then At(Leaf(Text(toolsDir))) else Blocked)
            else if p[0] in section then Look(section, p)
            else Look(global, p)
  {
  }

  /**
   * The condition on the schemas is needed: a global setting that a suite declares as a section
   * hides the suite's defaults below it.
   */
  lemma ShadowedSectionLost(globalDefaults: Options, suiteDefaults: Options, toolsDir: string, k: string, q: Path)
    requires k in globalDefaults && globalDefaults[k].Leaf? && k != TOOLS_DIR
    requires k in suiteDefaults && suiteDefaults[k].Nested? && LeafAt(suiteDefaults[k].options, q).Some?
    ensures (var global: Options, p := map[k := globalDefaults[k]], [k] + q;
             LeafAt(Effective(globalDefaults, suiteDefaults, Overlay(global, map[], toolsDir)), p)
               != Precedence(toolsDir, map[], global, suiteDefaults, globalDefaults, p))
  {
    var global: Options, p := map[k := globalDefaults[k]], [k] + q;
    LeafStep(suiteDefaults[k].options, q);
    LeafBelow(suiteDefaults, k, q);
    MergeByPath(Merge(globalDefaults, suiteDefaults), Overlay(global, map[], toolsDir), p);
    LookOverlay(global, map[], toolsDir, p);
    LookFlat(global, p);
  }

  // ---- The density suite ----

  /** Two characters tell the global keys apart, whatever their case: a length and a letter. */
  function GlobalKey(length: nat, letter: char): string {
    match length
    case 10 => if letter == 'd' then "jobPodNode" else "jobSuspend"
    case 13 => "etcdNamespace"
    case 14 => "jobPodImageTag"
    case 15 => "jobPodImageName"
    case 16 => "etcdReadyTimeout"
    case 17 => if letter == 'e' then "jobActiveDeadline" else "longhornNamespace"
    case 18 => "jobPodReadyTimeout"
    case 19 => if letter == 'a' then "monitoringAddonName" else "monitoringNamespace"
    case 21 => "namespaceReadyTimeout"
    case 22 => "jobPodTTLAfterFinished"
    case 23 => "monitoringRangeDuration"
    case _ => "monitoringWaitPodMonitorTimeout"
  }

  lemma GlobalKeyKnown(k: string)
    requires k in DefaultGlobalOptions()
    ensures |k| >= 10
    ensures var i := if |k| == 10 then 5 else 10; i < |k| && k == GlobalKey(|k|, LowerChar(k[i]))
  {
  }

  lemma GlobalKeysApart(k: string, l: string)
    requires k in DefaultGlobalOptions() && l in DefaultGlobalOptions() && SameButForCase(k, l)
    ensures k == l
  {
    GlobalKeyKnown(k);
    GlobalKeyKnown(l);
    var i := if |k| == 10 then 5 else 10;
    assert |k| == |Lower(k)| == |Lower(l)| == |l|;
    assert LowerChar(k[i]) == Lower(k)[i] == Lower(l)[i] == LowerChar(l[i]);
  }

  lemma DensitySchemasFit()
    ensures SchemaOk(DefaultGlobalOptions()) && SchemaOk(DefaultVMDensityOptions())
    ensures Flat(DefaultGlobalOptions())
    ensures NoShadowedSection(DefaultGlobalOptions(), DefaultVMDensityOptions())
  {
    GlobalSchemaFits();
    DensitySchemaFits();
    forall k | k in DefaultVMDensityOptions() ensures k !in DefaultGlobalOptions() && k != TOOLS_DIR {
      DensityKeyIsOwn(k);
    }
  }

  lemma DensityKeyIsOwn(k: string)
    requires k in DefaultVMDensityOptions()
    ensures k !in DefaultGlobalOptions() && k != TOOLS_DIR
  {
    assert k == "batchSize" || k == "batchWaitTimeout" || k == "vmi";
    if k in DefaultGlobalOptions() {
      GlobalKeyKnown(k);
    }
  }

  lemma GlobalSchemaFits()
    ensures SchemaOk(DefaultGlobalOptions()) && Flat(DefaultGlobalOptions())
  {
    forall k, l | k in DefaultGlobalOptions() && l in DefaultGlobalOptions() && SameButForCase(k, l) ensures k == l {
      GlobalKeysApart(k, l);
    }
    GlobalIsFlat();
    FlatSchemaOk(DefaultGlobalOptions());
  }

  lemma GlobalIsFlat()
    ensures Flat(DefaultGlobalOptions())
  {
  }

  lemma FlatSchemaOk(o: Options)
    requires Flat(o)
    requires forall k, l {:trigger SameButForCase(k, l)} :: k in o && l in o && SameButForCase(k, l) ==> k == l
    ensures SchemaOk(o)
  {
  }

  lemma DensitySchemaFits()
    ensures SchemaOk(DefaultVMDensityOptions())
  {
    var d := DefaultVMDensityOptions();
    var vmi := d["vmi"].options;
    forall k, l | SameButForCase(k, l) ensures |k| == |l| {
      assert |k| == |Lower(k)| == |Lower(l)| == |l|;
    }
    forall k, l | k in vmi && l in vmi && SameButForCase(k, l) ensures k == l {
      assert vmi.Keys == {"containerDisk", "memory", "cpu"};
    }
    FlatSchemaOk(vmi);
    forall k, l | k in d && l in d && SameButForCase(k, l) ensures k == l {
      assert d.Keys == {"batchSize", "batchWaitTimeout", "vmi"};
    }
  }

  /**
   * The settings a density run uses: for every accepted configuration file and every path, the
   * tools directory, else the suite's section, else the global section, else the defaults.
   */
  lemma DensityEffectiveByPath(global: Options, section: Options, toolsDir: string, p: Path)
    requires Accepts(global, DefaultGlobalOptions()) && Accepts(section, DefaultVMDensityOptions())
    ensures (var g, s := Canonical(global, DefaultGlobalOptions()), Canonical(section, DefaultVMDensityOptions());
             LeafAt(Effective(DefaultGlobalOptions(), DefaultVMDensityOptions(), Overlay(g, s, toolsDir)), p)
               == Precedence(toolsDir, s, g, DefaultVMDensityOptions(), DefaultGlobalOptions(), p))
  {
    DensitySchemasFit();
    CanonicalConforms(global, DefaultGlobalOptions());
    CanonicalConforms(section, DefaultVMDensityOptions());
    EffectiveByPath(DefaultGlobalOptions(), DefaultVMDensityOptions(),
                    Canonical(global, DefaultGlobalOptions()), Canonical(section, DefaultVMDensityOptions()),
                    toolsDir, p);
  }

  /** The tools directory cannot be overridden, whatever the sections hold. */
  lemma ToolsDirWins(global: Options, section: Options, toolsDir: string)
    ensures (var effective :=
               Effective(DefaultGlobalOptions(), DefaultVMDensityOptions(), Overlay(global, section, toolsDir));
             LeafAt(effective, ["toolsDir"]) == Some(Text(toolsDir)))
  {
    hide DefaultGlobalOptions, DefaultVMDensityOptions, Effective, Merge;
    var over := Overlay(global, section, toolsDir);
    MergeByPath(Merge(DefaultGlobalOptions(), DefaultVMDensityOptions()), over, ["toolsDir"]);
    EffectiveIs(DefaultGlobalOptions(), DefaultVMDensityOptions(), over);
  }

  lemma EffectiveIs(globalDefaults: Options, suiteDefaults: Options, over: Options)
    ensures Effective(globalDefaults, suiteDefaults, over) == Merge(Merge(globalDefaults, suiteDefaults), over)
  {
  }

  /** With no file a density run has these settings of its own and of the shared ones it decodes. */
  lemma RunWithoutFile(toolsDir: string)
    ensures (var effective :=
               Effective(DefaultGlobalOptions(), DefaultVMDensityOptions(), Overlay(map[], map[], toolsDir));
             && LeafAt(effective, ["batchSize"]) == Some(Number(10))
             && LeafAt(effective, ["batchWaitTimeout"]) == Some(Duration(5 * 60))
             && LeafAt(effective, ["vmi", "containerDisk"])
                == Some(Text("quay.io/kubevirt/cirros-container-disk-demo:latest"))
             && LeafAt(effective, ["vmi", "memory"]) == Some(Text("90Mi"))
             && LeafAt(effective, ["vmi", "cpu"]) == Some(Text("100m"))
             && LeafAt(effective, ["etcdNamespace"]) == Some(Text("kube-system"))
             && LeafAt(effective, ["namespaceReadyTimeout"]) == Some(Duration(300)))
  {
    DensityDefault(toolsDir, ["batchSize"]);
    DensityDefault(toolsDir, ["batchWaitTimeout"]);
    DensityDefault(toolsDir, ["vmi", "containerDisk"]);
    DensityDefault(toolsDir, ["vmi", "memory"]);
    DensityDefault(toolsDir, ["vmi", "cpu"]);
    DensityDefault(toolsDir, ["etcdNamespace"]);
    DensityDefault(toolsDir, ["namespaceReadyTimeout"]);
    DefaultSettings();
  }

  lemma DensityDefault(toolsDir: string, p: Path)
    requires p != [] && p[0] != TOOLS_DIR
    ensures (var effective :=
               Effective(DefaultGlobalOptions(), DefaultVMDensityOptions(), Overlay(map[], map[], toolsDir));
             LeafAt(effective, p) == OrElse(LeafAt(DefaultVMDensityOptions(), p), LeafAt(DefaultGlobalOptions(), p)))
  {
    hide DefaultGlobalOptions, DefaultVMDensityOptions, Effective, Overlay;
    DensitySchemasFit();
    EffectiveByPath(DefaultGlobalOptions(), DefaultVMDensityOptions(), map[], map[], toolsDir, p);
  }

  lemma DefaultSettings()
    ensures LeafAt(DefaultVMDensityOptions(), ["batchSize"]) == Some(Number(10))
    ensures LeafAt(DefaultVMDensityOptions(), ["batchWaitTimeout"]) == Some(Duration(300))
    ensures LeafAt(DefaultVMDensityOptions(), ["vmi", "containerDisk"])
         == Some(Text("quay.io/kubevirt/cirros-container-disk-demo:latest"))
    ensures LeafAt(DefaultVMDensityOptions(), ["vmi", "memory"]) == Some(Text("90Mi"))
    ensures LeafAt(DefaultVMDensityOptions(), ["vmi", "cpu"]) == Some(Text("100m"))
    ensures LeafAt(DefaultVMDensityOptions(), ["etcdNamespace"]) == None
    ensures LeafAt(DefaultVMDensityOptions(), ["namespaceReadyTimeout"]) == None
    ensures LeafAt(DefaultGlobalOptions(), ["etcdNamespace"]) == Some(Text("kube-system"))
    ensures LeafAt(DefaultGlobalOptions(), ["namespaceReadyTimeout"]) == Some(Duration(300))
  {
    hide LeafAt;
    DensitySettings();
    TopSetting(DefaultVMDensityOptions(), "etcdNamespace");
    TopSetting(DefaultVMDensityOptions(), "namespaceReadyTimeout");
    TopSetting(DefaultGlobalOptions(), "etcdNamespace");
    TopSetting(DefaultGlobalOptions(), "namespaceReadyTimeout");
  }

  lemma DensitySettings()
    ensures LeafAt(DefaultVMDensityOptions(), ["batchSize"]) == Some(Number(10))
    ensures LeafAt(DefaultVMDensityOptions(), ["batchWaitTimeout"]) == Some(Duration(300))
    ensures LeafAt(DefaultVMDensityOptions(), ["vmi", "containerDisk"])
         == Some(Text("quay.io/kubevirt/cirros-container-disk-demo:latest"))
    ensures LeafAt(DefaultVMDensityOptions(), ["vmi", "memory"]) == Some(Text("90Mi"))
    ensures LeafAt(DefaultVMDensityOptions(), ["vmi", "cpu"]) == Some(Text("100m"))
  {
    hide LeafAt;
    var d := DefaultVMDensityOptions();
    TopSetting(d, "batchSize");
    TopSetting(d, "batchWaitTimeout");
    SettingBelow(d, "vmi", "containerDisk");
    SettingBelow(d, "vmi", "memory");
    SettingBelow(d, "vmi", "cpu");
  }

  lemma TopSetting(o: Options, k: string)
    ensures LeafAt(o, [k]) == if k in o && o[k].Leaf? then Some(o[k].scalar) else None
  {
  }

  lemma SettingBelow(o: Options, k: string, l: string)
    requires k in o && o[k].Nested?
    ensures LeafAt(o, [k, l]) == LeafAt(o[k].options, [l])
    ensures LeafAt(o, [k, l]) ==
            if l in o[k].options && o[k].options[l].Leaf? then Some(o[k].options[l].scalar) else None
  {
    assert [k, l] == [k] + [l];
    LeafBelow(o, k, [l]);
    TopSetting(o[k].options, l);
  }

  /** Canonicalization against the default global and density schemas is idempotent. */
  lemma DefaultsIdempotent(o: Options, schema: Options)
    requires schema == DefaultGlobalOptions() || schema == DefaultVMDensityOptions()
    requires Accepts(o, schema)
    ensures Accepts(Canonical(o, schema), schema)
    ensures Canonical(Canonical(o, schema), schema) == Canonical(o, schema)
  {
    DensitySchemasFit();
    forall k | k in DefaultGlobalOptions() ensures k != "" {
      GlobalKeyKnown(k);
    }
    DensityHasNoEmptyKey();
    CanonicalizeIdempotent(o, schema);
  }

  lemma DensityHasNoEmptyKey()
    ensures NoEmptyKey(DefaultVMDensityOptions())
  {
    assert NoEmptyKey(DefaultVMDensityOptions()["vmi"].options);
  }

  /** `maxVMs`, however spelled, is in neither schema: both sections refuse it. */
  lemma MaxVMsNotConfigurable(o: Options, k: string)
    requires k in o && Fold(k) == "maxvms"
    ensures !Accepts(o, DefaultVMDensityOptions())
    ensures !Accepts(o, DefaultGlobalOptions())
  {
    forall s | s in DefaultVMDensityOptions() ensures Lower(s) != Fold(k) {
      assert |Lower(s)| == |s|;
    }
    forall s | s in DefaultGlobalOptions() ensures Lower(s) != Fold(k) {
      GlobalKeyKnown(s);
      assert |Lower(s)| == |s|;
    }
  }

  /** Hence no configuration file can set it: the options that are decoded never hold it. */
  lemma MaxVMsNeverSet(global: Options, section: Options, toolsDir: string)
    requires Accepts(global, DefaultGlobalOptions()) && Accepts(section, DefaultVMDensityOptions())
    ensures (var g, s := Canonical(global, DefaultGlobalOptions()), Canonical(section, DefaultVMDensityOptions());
             var effective := Effective(DefaultGlobalOptions(), DefaultVMDensityOptions(), Overlay(g, s, toolsDir));
             LeafAt(effective, ["maxVMs"]) == None)
  {
    hide LeafAt, DefaultGlobalOptions, DefaultVMDensityOptions, Accepts, Canonical, Effective, Overlay;
    DensityEffectiveByPath(global, section, toolsDir, ["maxVMs"]);
    NoSuchDefault();
    NotASetting(global, DefaultGlobalOptions());
    NotASetting(section, DefaultVMDensityOptions());
  }

  lemma NoSuchDefault()
    ensures "maxVMs" !in DefaultGlobalOptions() && "maxVMs" !in DefaultVMDensityOptions()
    ensures LeafAt(DefaultGlobalOptions(), ["maxVMs"]) == None
    ensures LeafAt(DefaultVMDensityOptions(), ["maxVMs"]) == None
  {
    if "maxVMs" in DefaultGlobalOptions() {
      GlobalKeyKnown("maxVMs");
    }
  }

  lemma NotASetting(o: Options, schema: Options)
    requires Accepts(o, schema) && "maxVMs" !in schema
    ensures LeafAt(Canonical(o, schema), ["maxVMs"]) == None
  {
    CanonicalConforms(o, schema);
  }
}
