/**
 * Reading the configuration file for a run (cmd/run.go) and for `config validate`
 * (cmd/config.go): both call `canonicalizeRunOptions`, with different suites.
 */
module RunConfig {
  import opened Wrappers
  import opened OptionTree
  import opened Canonicalization
  import opened CanonicalLaws
  import opened EffectiveConfig
  import opened Registry

  const GLOBAL := "global"

  /** The configuration file: a section of options for each name. */
  type Sections = map<string, Options>

  datatype ConfigError =
    | BadGlobal(cause: CanonicalError)
    | UnknownSuites(names: set<string>)
    | BadSuite(suite: string, cause: CanonicalError)

  // ---- Specification ----

  /** A missing section reads as a nil map, that is, as no options. */
  function Section(sections: Sections, name: string): Options {
    if name in sections then sections[name] else map[]
  }

  ghost predicate KnownSection(name: string, suites: seq<Suite>) {
    exists s :: s in suites && (name == s.name || name == GLOBAL)
  }

  ghost predicate SuiteAccepted(sections: Sections, s: Suite) {
    Accepts(Section(sections, s.name), s.schema)
  }

  ghost predicate ConfigAccepted(sections: Sections, suites: seq<Suite>, globalSchema: Options) {
    && (GLOBAL in sections ==> Accepts(sections[GLOBAL], globalSchema))
    && (forall name :: name in sections ==> KnownSection(name, suites))
    && (forall s :: s in suites ==> SuiteAccepted(sections, s))
  }

  ghost function GlobalSection(sections: Sections, globalSchema: Options): Sections {
    if GLOBAL in sections && Accepts(sections[GLOBAL], globalSchema)
    then map[GLOBAL := Canonical(sections[GLOBAL], globalSchema)]
    else map[]
  }

  /** What a suite contributes to the canonical sections, if its options are accepted. */
  ghost function SuiteEntry(sections: Sections, s: Suite): Option<Options> {
    if SuiteAccepted(sections, s) then Some(Canonical(Section(sections, s.name), s.schema)) else None
  }

  ghost function SuiteEntries(sections: Sections, suites: seq<Suite>): (entries: seq<Option<Options>>)
    ensures |entries| == |suites|
    ensures forall i :: 0 <= i < |suites| ==> entries[i] == SuiteEntry(sections, suites[i])
  {
    seq(|suites|, i requires 0 <= i < |suites| => SuiteEntry(sections, suites[i]))
  }

  ghost function Collect(base: Sections, suites: seq<Suite>, entries: seq<Option<Options>>): Sections
    requires |suites| == |entries|
  {
    if suites == [] then base
    else
      var last := |suites| - 1;
      var before := Collect(base, suites[..last], entries[..last]);
      if entries[last].Some? then before[suites[last].name := entries[last].value] else before
  }

  /** The canonical sections: the global one, then one for each suite. */
  ghost function CanonicalSections(sections: Sections, suites: seq<Suite>, globalSchema: Options): Sections {
    Collect(GlobalSection(sections, globalSchema), suites, SuiteEntries(sections, suites))
  }

  ghost predicate SchemasOk(suites: seq<Suite>) {
    forall s :: s in suites ==> SchemaOk(s.schema)
  }

  // ---- The code ----

  /** `canonicalizeRunOptions`; `None` is a nil `runOptions`. */
  method CanonicalizeRunOptions(runOptions: Option<Sections>, suites: seq<Suite>, globalSchema: Options)
    returns (canonicalized: Sections, errs: seq<ConfigError>)
    requires SchemasOk(suites) && SchemaOk(globalSchema)
    ensures runOptions.None? ==> canonicalized == map[] && errs == []
    ensures runOptions.Some? ==> canonicalized == CanonicalSections(runOptions.value, suites, globalSchema)
    ensures runOptions.Some? ==> (errs == [] <==> ConfigAccepted(runOptions.value, suites, globalSchema))
  {
    if runOptions.None? {
      return map[], [];
    }
    var sections := runOptions.value;
    ghost var globalOk;
    canonicalized, errs, globalOk := CanonicalizeGlobal(sections, globalSchema);
    var unknown := UnknownSections(sections, suites);
    if unknown != {} {
      errs := errs + [UnknownSuites(unknown)];
    }
    var suiteErrs: seq<ConfigError>;
    canonicalized, suiteErrs := CanonicalizeSuites(sections, suites, canonicalized);
    errs := errs + suiteErrs;
    AcceptedInParts(sections, suites, globalSchema, globalOk, unknown);
  }

  method CanonicalizeGlobal(sections: Sections, globalSchema: Options)
    returns (canonicalized: Sections, errs: seq<ConfigError>, ghost ok: bool)
    requires SchemaOk(globalSchema)
    ensures canonicalized == GlobalSection(sections, globalSchema)
    ensures ok == (GLOBAL in sections ==> Accepts(sections[GLOBAL], globalSchema))
    ensures errs == [] <==> ok
  {
    if GLOBAL !in sections {
      return map[], [], true;
    }
    var r := Canonicalize(sections[GLOBAL], globalSchema);
    if r.Err? {
      return map[], [BadGlobal(r.error)], false;
    }
    return map[GLOBAL := r.value], [], true;
  }

  lemma AcceptedInParts(sections: Sections, suites: seq<Suite>, globalSchema: Options, globalOk: bool,
                        unknown: set<string>)
    requires globalOk == (GLOBAL in sections ==> Accepts(sections[GLOBAL], globalSchema))
    requires forall name :: name in unknown <==> name in sections && !KnownSection(name, suites)
    ensures ConfigAccepted(sections, suites, globalSchema) <==>
            && globalOk && unknown == {}
            && AllSome(SuiteEntries(sections, suites))
  {
    AllEntriesIff(sections, suites);
    if unknown == {} {
      forall name | name in sections ensures KnownSection(name, suites) {
        assert name !in unknown;
      }
    }
  }

  /** The loop of `canonicalizeRunOptions` over the suites. */
  method CanonicalizeSuites(sections: Sections, suites: seq<Suite>, base: Sections)
    returns (canonicalized: Sections, errs: seq<ConfigError>)
    requires SchemasOk(suites)
    ensures canonicalized == Collect(base, suites, SuiteEntries(sections, suites))
    ensures errs == [] <==> AllSome(SuiteEntries(sections, suites))
  {
    canonicalized, errs := base, [];
    for i := 0 to |suites|
      invariant Gathered(sections, suites[..i], base, canonicalized, errs)
    {
      canonicalized, errs := CanonicalizeSuite(sections, suites[..i], suites[i], base, canonicalized, errs);
      NextPrefix(suites, i);
    }
    NextPrefix(suites, |suites|);
  }

  lemma NextPrefix<T>(s: seq<T>, i: nat)
    requires i <= |s|
    ensures if i < |s| then s[..i] + [s[i]] == s[..i + 1] else s[..i] == s
  {
  }

  /** What that loop has gathered after some of the suites. */
  ghost predicate Gathered(sections: Sections, before: seq<Suite>, base: Sections, canonicalized: Sections,
                           errs: seq<ConfigError>)
  {
    && canonicalized == Collect(base, before, SuiteEntries(sections, before))
    && (errs == [] <==> AllSome(SuiteEntries(sections, before)))
  }

  /** One turn of that loop, for suite `s`. */
  method CanonicalizeSuite(sections: Sections, ghost before: seq<Suite>, s: Suite, ghost base: Sections,
                           canonicalized: Sections, errs: seq<ConfigError>)
    returns (canonicalized': Sections, errs': seq<ConfigError>)
    requires SchemaOk(s.schema)
    requires Gathered(sections, before, base, canonicalized, errs)
    ensures Gathered(sections, before + [s], base, canonicalized', errs')
  {
    var c := Canonicalize(Section(sections, s.name), s.schema);
    EntryAdded(sections, before, s, base);
    if c.Err? {
      return canonicalized, errs + [BadSuite(s.name, c.error)];
    }
    return canonicalized[s.name := c.value], errs;
  }

  ghost predicate AllSome(entries: seq<Option<Options>>) {
    forall i :: 0 <= i < |entries| ==> entries[i].Some?
  }

  lemma AllSomeAppend(entries: seq<Option<Options>>, entry: Option<Options>)
    ensures AllSome(entries + [entry]) <==> AllSome(entries) && entry.Some?
  {
    assert (entries + [entry])[|entries|] == entry;
    assert forall i :: 0 <= i < |entries| ==> (entries + [entry])[i] == entries[i];
  }

  lemma EntryAdded(sections: Sections, before: seq<Suite>, s: Suite, base: Sections)
    ensures var entries, entry := SuiteEntries(sections, before), SuiteEntry(sections, s);
            var added := SuiteEntries(sections, before + [s]);
            var collected := Collect(base, before, entries);
            && (AllSome(added) <==> AllSome(entries) && entry.Some?)
            && Collect(base, before + [s], added) == if entry.Some? then collected[s.name := entry.value] else collected
  {
    var entries, entry := SuiteEntries(sections, before), SuiteEntry(sections, s);
    var n := |before|;
    assert SuiteEntries(sections, before + [s]) == entries + [entry];
    AllSomeAppend(entries, entry);
    assert (before + [s])[..n] == before && (entries + [entry])[..n] == entries;
  }

  lemma AllEntriesIff(sections: Sections, suites: seq<Suite>)
    ensures AllSome(SuiteEntries(sections, suites)) <==> forall s :: s in suites ==> SuiteAccepted(sections, s)
  {
    forall i | 0 <= i < |suites|
      ensures SuiteEntries(sections, suites)[i].Some? <==> SuiteAccepted(sections, suites[i])
    {
      assert SuiteEntries(sections, suites)[i] == SuiteEntry(sections, suites[i]);
    }
  }

  method UnknownSections(sections: Sections, suites: seq<Suite>) returns (unknown: set<string>)
    ensures forall name :: name in unknown <==> name in sections && !KnownSection(name, suites)
  {
    unknown := {};
    var rest := sections.Keys;
    while rest != {}
      invariant rest <= sections.Keys
      invariant forall name :: name in unknown <==> name in sections && name !in rest && !KnownSection(name, suites)
      decreases rest
    {
      var name :| name in rest;
      rest := rest - {name};
      var known := false;
      for i := 0 to |suites|
        invariant !known
        invariant forall j :: 0 <= j < i ==> name != suites[j].name && name != GLOBAL
      {
        known := name == suites[i].name || name == GLOBAL;
        if known {
          break;
        }
      }
      if !known {
        unknown := unknown + {name};
      }
    }
  }

  /**
   * The options handed to each selected suite by `runSuites`, given the canonical sections.
   */
  method LayerSuiteOptions(suites: seq<Suite>, toolsDir: string, sections: Sections) returns (layered: seq<Options>)
    ensures |layered| == |suites|
    ensures forall i :: 0 <= i < |suites| ==>
      layered[i] == Overlay(Section(sections, GLOBAL), Section(sections, suites[i].name), toolsDir)
  {
    layered := [];
    for i := 0 to |suites|
      invariant |layered| == i
      invariant forall j :: 0 <= j < i ==>
        layered[j] == Overlay(Section(sections, GLOBAL), Section(sections, suites[j].name), toolsDir)
    {
      var suiteOptions: Options := map[];
      if GLOBAL in sections {
        suiteOptions := suiteOptions + sections[GLOBAL];
      }
      if suites[i].name in sections {
        suiteOptions := suiteOptions + sections[suites[i].name];
      }
      suiteOptions := suiteOptions[TOOLS_DIR := Leaf(Text(toolsDir))];
      assert suiteOptions == Overlay(Section(sections, GLOBAL), Section(sections, suites[i].name), toolsDir);
      layered := layered + [suiteOptions];
    }
  }

  /**
   * Section by section: for suites with names of their own, a file is accepted exactly if each of
   * its sections is a `global` one accepted by the global schema or that of a suite and accepted
   * by the suite's. Without suites, only the empty file is.
   */
  lemma AcceptedBySection(sections: Sections, suites: seq<Suite>, globalSchema: Options)
    requires DistinctNames(suites) && forall s :: s in suites ==> s.name != "global"
    ensures ConfigAccepted(sections, suites, globalSchema) <==>
            if suites == [] then sections == map[]
            else forall name :: name in sections ==>
              if name == "global" then Accepts(sections[name], globalSchema)
              else exists s :: s in suites && s.name == name && Accepts(sections[name], s.schema)
  {
    hide Accepts;
    if suites == [] {
      if sections == map[] {
      } else if name :| name in sections {
        assert !KnownSection(name, suites);
      }
    } else {
      SectionsAccepted(sections, suites, globalSchema);
    }
  }

  lemma SectionsAccepted(sections: Sections, suites: seq<Suite>, globalSchema: Options)
    requires suites != [] && DistinctNames(suites) && forall s :: s in suites ==> s.name != GLOBAL
    ensures ConfigAccepted(sections, suites, globalSchema) <==>
            forall name :: name in sections ==> SectionAccepted(sections, name, suites, globalSchema)
  {
    hide Accepts;
    assert suites[0] in suites;
    if ConfigAccepted(sections, suites, globalSchema) {
      forall name | name in sections ensures SectionAccepted(sections, name, suites, globalSchema) {
        var s :| s in suites && (name == s.name || name == GLOBAL);
        assert SuiteAccepted(sections, s);
      }
    }
    if forall name :: name in sections ==> SectionAccepted(sections, name, suites, globalSchema) {
      forall name | name in sections ensures KnownSection(name, suites) {
        assert SectionAccepted(sections, name, suites, globalSchema);
      }
      forall s | s in suites ensures SuiteAccepted(sections, s) {
        if s.name in sections {
          assert SectionAccepted(sections, s.name, suites, globalSchema);
          var t :| t in suites && t.name == s.name && Accepts(sections[s.name], t.schema);
          var i :| 0 <= i < |suites| && suites[i] == s;
          var j :| 0 <= j < |suites| && suites[j] == t;
        } else {
          NoOptionsAccepted(s.schema);
        }
      }
      if GLOBAL in sections {
        assert SectionAccepted(sections, GLOBAL, suites, globalSchema);
      }
    }
  }

  ghost predicate SectionAccepted(sections: Sections, name: string, suites: seq<Suite>, globalSchema: Options)
    requires name in sections
  {
    if name == GLOBAL then Accepts(sections[name], globalSchema)
    else exists s :: s in suites && s.name == name && Accepts(sections[name], s.schema)
  }

  // ---- The run command ----

  datatype RunFailure = NotFound(cause: FindError) | Misconfigured(causes: seq<ConfigError>)

  /** The sections of the file; no file reads as no sections. */
  function SectionsOf(runOptions: Option<Sections>): Sections {
    match runOptions
    case None => map[]
    case Some(sections) => sections
  }

  /**
   * What the run command does before it runs the suites: it finds them, canonicalizes the file
   * and layers each suite's options. It goes on exactly if the suites are found and the file is
   * accepted.
   */
  method PrepareRun(registry: SuiteRegistry, names: seq<string>, runOptions: Option<Sections>, toolsDir: string)
    returns (r: Result<seq<Options>, RunFailure>, ghost selected: seq<Suite>)
    requires registry.Valid()
    requires forall n :: n in registry.suites ==> SchemaOk(registry.suites[n].schema)
    ensures r.Err? && r.error.NotFound? <==> !Selectable(registry.suites, names)
    ensures r.Ok? || r.error.Misconfigured? ==> Selection(registry.suites, names, selected)
    ensures r.Ok? ==>
      && ConfigAccepted(SectionsOf(runOptions), selected, DefaultGlobalOptions())
      && |r.value| == |selected|
      && forall i :: 0 <= i < |selected| ==>
           r.value[i] == OptionsFor(SectionsOf(runOptions), selected, i, toolsDir)
    ensures r.Err? && r.error.Misconfigured? ==>
      !ConfigAccepted(SectionsOf(runOptions), selected, DefaultGlobalOptions())
  {
    var found := registry.Find(names);
    if found.Err? {
      return Err(RunFailure.NotFound(found.error)), [];
    }
    var suites := found.value;
    selected := suites;
    DensitySchemasFit();
    SelectedSchemasOk(registry.suites, names, suites);
    var sections, errs := CanonicalizeRunOptions(runOptions, suites, DefaultGlobalOptions());
    if errs != [] {
      return Err(Misconfigured(errs)), selected;
    }
    var layered := LayerSuiteOptions(suites, toolsDir, sections);
    if runOptions.None? {
      NoFile(suites, toolsDir);
    }
    return Ok(layered), selected;
  }

  /** The options handed to suite `i` of those selected. */
  ghost function OptionsFor(sections: Sections, suites: seq<Suite>, i: nat, toolsDir: string): Options
    requires i < |suites|
  {
    var c := CanonicalSections(sections, suites, DefaultGlobalOptions());
    Overlay(Section(c, GLOBAL), Section(c, suites[i].name), toolsDir)
  }

  lemma SelectedSchemasOk(suites: map<string, Suite>, names: seq<string>, selected: seq<Suite>)
    requires Selection(suites, names, selected)
    requires forall n :: n in suites ==> SchemaOk(suites[n].schema)
    ensures SchemasOk(selected)
  {
    forall s | s in selected ensures SchemaOk(s.schema) {
      assert s.name in suites && suites[s.name] == s;
    }
  }

  /** Without a file every suite gets the tools directory alone, as with an empty file. */
  lemma NoFile(selected: seq<Suite>, toolsDir: string)
    ensures ConfigAccepted(map[], selected, DefaultGlobalOptions())
    ensures forall i :: 0 <= i < |selected| ==>
      OptionsFor(map[], selected, i, toolsDir) == Overlay(map[], map[], toolsDir)
  {
    hide Accepts, Canonical, DefaultGlobalOptions, CanonicalSections, Overlay;
    forall s | s in selected ensures SuiteAccepted(map[], s) {
      NoOptionsAccepted(s.schema);
    }
    forall i | 0 <= i < |selected| ensures OptionsFor(map[], selected, i, toolsDir) == Overlay(map[], map[], toolsDir) {
      NoSections(selected, DefaultGlobalOptions(), GLOBAL);
      NoSections(selected, DefaultGlobalOptions(), selected[i].name);
    }
  }

  lemma NoSections(suites: seq<Suite>, globalSchema: Options, name: string)
    ensures Section(CanonicalSections(map[], suites, globalSchema), name) == map[]
  {
    hide Accepts, Canonical;
    forall i | 0 <= i < |suites| ensures SuiteEntries(map[], suites)[i] == Some(map[]) {
      NoOptionsAccepted(suites[i].schema);
      CanonicalOfNothing(suites[i].schema);
    }
    CollectsNothing(suites, SuiteEntries(map[], suites), name);
  }

  lemma {:induction false} CollectsNothing(suites: seq<Suite>, entries: seq<Option<Options>>, name: string)
    requires |suites| == |entries|
    requires forall i :: 0 <= i < |entries| ==> entries[i] == Some(map[])
    ensures Section(Collect(map[], suites, entries), name) == map[]
    decreases |suites|
  {
    if suites != [] {
      var last := |suites| - 1;
      assert entries[last] == Some(map[]);
      CollectsNothing(suites[..last], entries[..last], name);
    }
  }

  /**
   * From the file to the options a suite runs with. For every accepted file, every selected suite
   * whose schema (which is also its defaults) does not shadow a global section, and every path:
   * the tools directory, else the suite's section, else the global section, else the defaults.
   */
  lemma FileToEffective(sections: Sections, suites: seq<Suite>, i: nat, toolsDir: string, p: Path)
    requires i < |suites| && DistinctNames(suites) && forall s :: s in suites ==> s.name != GLOBAL
    requires ConfigAccepted(sections, suites, DefaultGlobalOptions())
    requires NoShadowedSection(DefaultGlobalOptions(), suites[i].schema)
    ensures Accepts(Section(sections, GLOBAL), DefaultGlobalOptions())
    ensures Accepts(Section(sections, suites[i].name), suites[i].schema)
    ensures var g := Canonical(Section(sections, GLOBAL), DefaultGlobalOptions());
            var s := Canonical(Section(sections, suites[i].name), suites[i].schema);
            var effective :=
              Effective(DefaultGlobalOptions(), suites[i].schema, OptionsFor(sections, suites, i, toolsDir));
            LeafAt(effective, p) == Precedence(toolsDir, s, g, suites[i].schema, DefaultGlobalOptions(), p)
  {
    hide CanonicalSections, Accepts, Canonical, LeafAt, Effective, Precedence;
    var suite := suites[i];
    assert SuiteAccepted(sections, suite);
    NoOptionsAccepted(DefaultGlobalOptions());
    CanonicalSectionOf(sections, suites, DefaultGlobalOptions(), i);
    GlobalSectionOf(sections, suites, DefaultGlobalOptions());
    var g := Canonical(Section(sections, GLOBAL), DefaultGlobalOptions());
    var s := Canonical(Section(sections, suite.name), suite.schema);
    GlobalIsFlat();
    CanonicalConforms(Section(sections, GLOBAL), DefaultGlobalOptions());
    CanonicalConforms(Section(sections, suite.name), suite.schema);
    EffectiveByPath(DefaultGlobalOptions(), suite.schema, g, s, toolsDir, p);
  }

  lemma GlobalSectionOf(sections: Sections, suites: seq<Suite>, globalSchema: Options)
    requires forall s :: s in suites ==> s.name != GLOBAL
    requires Accepts(Section(sections, GLOBAL), globalSchema)
    ensures Section(CanonicalSections(sections, suites, globalSchema), GLOBAL) ==
            Canonical(Section(sections, GLOBAL), globalSchema)
  {
    hide CanonicalSections;
    CanonicalGlobalOf(sections, suites, globalSchema);
    if GLOBAL !in sections {
      CanonicalOfNothing(globalSchema);
    }
  }

  lemma CanonicalOfNothing(schema: Options)
    requires Accepts(map[], schema)
    ensures Canonical(map[], schema) == map[]
  {
    var c := Canonical(map[], schema);
    if s :| s in c {
      var k := CanonicalFrom(map[], schema, s);
    }
  }

  // ---- Run and validate ----

  ghost predicate DistinctNames(suites: seq<Suite>) {
    forall i, j :: 0 <= i < j < |suites| ==> suites[i].name != suites[j].name
  }

  lemma {:induction false} CollectedEntry(base: Sections, suites: seq<Suite>, entries: seq<Option<Options>>, i: nat)
    requires |suites| == |entries| && i < |suites| && DistinctNames(suites) && entries[i].Some?
    ensures suites[i].name in Collect(base, suites, entries)
    ensures Collect(base, suites, entries)[suites[i].name] == entries[i].value
    decreases |suites|
  {
    var last := |suites| - 1;
    if i < last {
      CollectedEntry(base, suites[..last], entries[..last], i);
      assert suites[last].name != suites[i].name;
    }
  }

  lemma {:induction false} CollectKeeps(base: Sections, suites: seq<Suite>, entries: seq<Option<Options>>, name: string)
    requires |suites| == |entries|
    requires forall s :: s in suites ==> s.name != name
    ensures var c := Collect(base, suites, entries);
            (name in c <==> name in base) && (name in base ==> c[name] == base[name])
    decreases |suites|
  {
    if suites != [] {
      var last := |suites| - 1;
      assert suites[last] in suites;
      CollectKeeps(base, suites[..last], entries[..last], name);
    }
  }

  lemma CanonicalSectionOf(sections: Sections, suites: seq<Suite>, globalSchema: Options, i: nat)
    requires i < |suites| && DistinctNames(suites) && SuiteAccepted(sections, suites[i])
    ensures var c, s := CanonicalSections(sections, suites, globalSchema), suites[i];
            s.name in c && c[s.name] == Canonical(Section(sections, s.name), s.schema)
  {
    assert SuiteEntries(sections, suites)[i] == SuiteEntry(sections, suites[i]);
    CollectedEntry(GlobalSection(sections, globalSchema), suites, SuiteEntries(sections, suites), i);
  }

  lemma CanonicalGlobalOf(sections: Sections, suites: seq<Suite>, globalSchema: Options)
    requires forall s :: s in suites ==> s.name != GLOBAL
    ensures var c, g := CanonicalSections(sections, suites, globalSchema), GlobalSection(sections, globalSchema);
            (GLOBAL in c <==> GLOBAL in g) && (GLOBAL in g ==> c[GLOBAL] == g[GLOBAL])
  {
    CollectKeeps(GlobalSection(sections, globalSchema), suites, SuiteEntries(sections, suites), GLOBAL);
  }

  lemma NoOptionsAccepted(schema: Options)
    ensures Accepts(map[], schema)
  {
  }

  /**
   * `run` on a selection accepts a file exactly when `config validate`, which checks it against
   * every registered suite, does and the file has no section for a suite that is not selected.
   * Then both read the same options for the selected suites.
   */
  lemma RunVersusValidate(sections: Sections, all: seq<Suite>, selected: seq<Suite>, globalSchema: Options)
    requires selected != [] && forall s :: s in selected ==> s in all
    requires DistinctNames(all) && DistinctNames(selected)
    requires forall s :: s in all ==> s.name != GLOBAL
    ensures ConfigAccepted(sections, selected, globalSchema) <==>
            && ConfigAccepted(sections, all, globalSchema)
            && forall name :: name in sections ==> name == GLOBAL || exists s :: s in selected && s.name == name
    ensures ConfigAccepted(sections, selected, globalSchema) ==>
            var run := CanonicalSections(sections, selected, globalSchema);
            var validate := CanonicalSections(sections, all, globalSchema);
            && (forall s :: s in selected ==> s.name in run && s.name in validate && run[s.name] == validate[s.name])
            && (GLOBAL in run <==> GLOBAL in validate)
            && (GLOBAL in run ==> run[GLOBAL] == validate[GLOBAL])
  {
    assert selected[0] in selected;
    if ConfigAccepted(sections, selected, globalSchema) {
      ValidateFollowsRun(sections, all, selected, globalSchema);
      SameSections(sections, all, selected, globalSchema);
    }
  }

  /** What `Find` selects and what `All` lists are such suites. */
  lemma RegistrySelections(suites: map<string, Suite>, names: seq<string>, selected: seq<Suite>, all: seq<Suite>)
    requires Selection(suites, names, selected) && names != []
    requires Ascending(Registry.Names(all)) && forall s :: s in all <==> s in suites.Values
    ensures selected != [] && DistinctNames(selected) && DistinctNames(all)
    ensures forall s :: s in selected ==> s in all
  {
    DedupKeepsFirsts(names);
    assert names[0] in names && names[0] in Dedup(names);
    forall i, j | 0 <= i < j < |selected| ensures selected[i].name != selected[j].name {
      assert Registry.Names(selected)[i] != Registry.Names(selected)[j];
    }
    forall i, j | 0 <= i < j < |all| ensures all[i].name != all[j].name {
      assert StringLess(Registry.Names(all)[i], Registry.Names(all)[j]);
      StringLessIrreflexive(all[i].name);
    }
  }

  /**
   * Hence for a run of suites found by name in a registry with no suite called `global`, whatever
   * is registered: the two commands agree exactly on the files that have no section for a suite
   * outside the selection.
   */
  lemma RunVersusValidateInRegistry(sections: Sections, suites: map<string, Suite>, names: seq<string>,
                                    selected: seq<Suite>, all: seq<Suite>, globalSchema: Options)
    requires Selection(suites, names, selected) && names != []
    requires Ascending(Registry.Names(all)) && forall s :: s in all <==> s in suites.Values
    requires forall n :: n in suites ==> suites[n].name == n != GLOBAL
    ensures ConfigAccepted(sections, selected, globalSchema) <==>
            && ConfigAccepted(sections, all, globalSchema)
            && forall name :: name in sections ==> name == GLOBAL || name in names
  {
    RegistrySelections(suites, names, selected, all);
    RunVersusValidate(sections, all, selected, globalSchema);
    forall name ensures (exists s :: s in selected && s.name == name) <==> name in names {
      SelectedByName(suites, names, selected, name);
    }
  }

  lemma SelectedByName(suites: map<string, Suite>, names: seq<string>, selected: seq<Suite>, name: string)
    requires Selection(suites, names, selected)
    ensures (exists s :: s in selected && s.name == name) <==> name in names
  {
    DedupKeepsFirsts(names);
    if name in names {
      assert name in Dedup(names);
      var i :| 0 <= i < |selected| && Registry.Names(selected)[i] == name;
      assert selected[i] in selected;
    }
    if s :| s in selected && s.name == name {
      var i :| 0 <= i < |selected| && selected[i] == s;
      assert Registry.Names(selected)[i] == name && name in Dedup(names);
    }
  }

  lemma ValidateFollowsRun(sections: Sections, all: seq<Suite>, selected: seq<Suite>, globalSchema: Options)
    requires forall s :: s in selected ==> s in all
    requires DistinctNames(all)
    requires forall s :: s in all ==> s.name != GLOBAL
    requires ConfigAccepted(sections, selected, globalSchema)
    ensures ConfigAccepted(sections, all, globalSchema)
    ensures forall name :: name in sections ==> name == GLOBAL || exists s :: s in selected && s.name == name
  {
    forall name | name in sections
      ensures KnownSection(name, all)
      ensures name == GLOBAL || exists s :: s in selected && s.name == name
    {
      var s :| s in selected && (name == s.name || name == GLOBAL);
      assert s in all;
    }
    forall s | s in all ensures SuiteAccepted(sections, s) {
      if s.name in sections {
        var t :| t in selected && t.name == s.name;
        var i :| 0 <= i < |all| && all[i] == s;
        var j :| 0 <= j < |all| && all[j] == t;
        assert s == t;
      } else {
        NoOptionsAccepted(s.schema);
      }
    }
  }

  lemma SameSections(sections: Sections, all: seq<Suite>, selected: seq<Suite>, globalSchema: Options)
    requires forall s :: s in selected ==> s in all
    requires DistinctNames(all) && DistinctNames(selected)
    requires forall s :: s in all ==> s.name != GLOBAL && SuiteAccepted(sections, s)
    ensures var run := CanonicalSections(sections, selected, globalSchema);
            var validate := CanonicalSections(sections, all, globalSchema);
            && (forall s :: s in selected ==> s.name in run && s.name in validate && run[s.name] == validate[s.name])
            && (GLOBAL in run <==> GLOBAL in validate)
            && (GLOBAL in run ==> run[GLOBAL] == validate[GLOBAL])
  {
    var run := CanonicalSections(sections, selected, globalSchema);
    var validate := CanonicalSections(sections, all, globalSchema);
    forall s | s in selected ensures s.name in run && s.name in validate && run[s.name] == validate[s.name] {
      var i :| 0 <= i < |selected| && selected[i] == s;
      var j :| 0 <= j < |all| && all[j] == s;
      CanonicalSectionOf(sections, selected, globalSchema, i);
      CanonicalSectionOf(sections, all, globalSchema, j);
    }
    CanonicalGlobalOf(sections, selected, globalSchema);
    CanonicalGlobalOf(sections, all, globalSchema);
  }

  /**
   * The developer documentation says that run and validate cannot disagree. They do: a section
   * for a registered suite that is not selected is valid and refused by the run.
   */
  lemma RunAndValidateDisagree() returns (sections: Sections, all: seq<Suite>, selected: seq<Suite>)
    ensures selected != [] && forall s :: s in selected ==> s in all
    ensures forall globalSchema ::
              && ConfigAccepted(sections, all, globalSchema)
              && !ConfigAccepted(sections, selected, globalSchema)
  {
    var etcd, density := Suite("etcd", true, map[]), Suite("density", true, map[]);
    sections, all, selected := map["etcd" := map[]], [etcd, density], [density];
    NoOptionsAccepted(map[]);
    assert etcd in all;
    assert KnownSection("etcd", all);
    assert "etcd" in sections && "etcd" != density.name && "etcd" != GLOBAL;
    assert !KnownSection("etcd", selected);
  }
}
