/**
 * `Canonicalize` and `canonicalizeKeys` (pkg/suites/options.go): user options rewritten to the
 * spelling of a schema, or rejected.
 */
module Canonicalization {
  import opened Wrappers
  import opened OptionTree
  import opened Keys

  datatype KeyError = EmptyKey(key: string) | NotFound(key: string) | Duplicate(key: string)

  datatype CanonicalError =
    | BadKeys(errors: seq<KeyError>)
    | NotNestedInSchema(key: string)
    | NestedInSchema(key: string)

  /**
   * The schemas `Canonicalize` is meant for: no two keys differ only in case (otherwise the
   * spelling chosen depends on Go's map iteration order).
   */
  ghost predicate SchemaOk(schema: Options)
    decreases Nested(schema)
  {
    && (forall k, l {:trigger SameButForCase(k, l)} ::
      k in schema && l in schema && SameButForCase(k, l) ==> k == l)
    && (forall k :: k in schema && schema[k].Nested? ==> SchemaOk(schema[k].options))
  }

  predicate SameButForCase(k: string, l: string) {
    Lower(k) == Lower(l)
  }

  /** Two user keys for the same option. */
  predicate SameFold(k: string, l: string) {
    Fold(k) == Fold(l)
  }

  ghost predicate Knows(schema: Options, key: string) {
    exists s :: s in schema && Lower(s) == Fold(key)
  }

  /** The schema's spelling of a user key. */
  ghost function Spelling(schema: Options, key: string): (s: string)
    requires Knows(schema, key)
    ensures s in schema && Lower(s) == Fold(key)
  {
    var s :| s in schema && Lower(s) == Fold(key);
    s
  }

  // ---- What is accepted, and what it becomes ----

  ghost predicate KeysAccepted(o: Options, schema: Options) {
    && (forall k :: k in o ==> !Blank(k) && Knows(schema, k))
    && (forall k, l {:trigger SameFold(k, l)} :: k in o && l in o && SameFold(k, l) ==> k == l)
  }

  ghost predicate Accepts(o: Options, schema: Options)
    decreases Nested(o), 0
  {
    && KeysAccepted(o, schema)
    && forall k :: k in o ==> ValueAccepted(o[k], schema[Spelling(schema, k)])
  }

  ghost predicate ValueAccepted(v: Value, s: Value)
    decreases v, 1
  {
    v.Nested? == s.Nested? && (v.Nested? ==> Accepts(v.options, s.options))
  }

  /** The user keys in the schema's spelling. */
  ghost function Names(o: Options, schema: Options): (names: map<string, string>)
    requires KeysAccepted(o, schema)
    ensures Injective(names)
  {
    var names := map k | k in o :: Spelling(schema, k);
    assert Injective(names) by {
      forall k, l | k in names && l in names && names[k] == names[l] ensures k == l {
        assert SameFold(k, l);
      }
    }
    names
  }

  ghost predicate Injective(names: map<string, string>) {
    forall k, l :: k in names && l in names && names[k] == names[l] ==> k == l
  }

  /** `o` with every key replaced by its name. */
  ghost function Relabel(o: Options, names: map<string, string>): (r: Options)
    requires o.Keys == names.Keys && Injective(names)
    ensures r.Keys == names.Values
    ensures forall k :: k in o ==> names[k] in r && r[names[k]] == o[k]
  {
    map s | s in names.Values :: o[Holder(names, s)]
  }

  ghost function Holder(names: map<string, string>, s: string): (k: string)
    requires s in names.Values
    ensures k in names && names[k] == s
  {
    var k :| k in names && names[k] == s;
    k
  }

  ghost function Renamed(o: Options, schema: Options): Options
    requires KeysAccepted(o, schema)
  {
    Relabel(o, Names(o, schema))
  }

  ghost function Canonical(o: Options, schema: Options): Options
    requires Accepts(o, schema)
    decreases Nested(o), 0
  {
    Relabel(map k | k in o :: CanonicalValue(o[k], schema[Spelling(schema, k)]), Names(o, schema))
  }

  ghost function CanonicalValue(v: Value, s: Value): Value
    requires ValueAccepted(v, s)
    decreases v, 1
  {
    if v.Nested? then Nested(Canonical(v.options, s.options)) else v
  }

  // ---- The loops ----

  method LowercaseIndex(schema: Options) returns (schemaKeys: map<string, string>)
    requires SchemaOk(schema)
    ensures forall s :: s in schema ==> Lower(s) in schemaKeys && schemaKeys[Lower(s)] == s
    ensures forall l :: l in schemaKeys ==> schemaKeys[l] in schema && Lower(schemaKeys[l]) == l
  {
    schemaKeys := map[];
    var rest := schema.Keys;
    while rest != {}
      invariant rest <= schema.Keys
      invariant forall s :: s in schema && s !in rest ==> Lower(s) in schemaKeys && schemaKeys[Lower(s)] == s
      invariant forall l :: l in schemaKeys ==> schemaKeys[l] in schema && Lower(schemaKeys[l]) == l
      decreases rest
    {
      var k :| k in rest;
      assert forall s :: s in schema && s !in rest && Lower(s) == Lower(k) ==> SameButForCase(s, k);
      schemaKeys := schemaKeys[Lower(k) := k];
      rest := rest - {k};
    }
  }

  /** What the body of the key loop decides about one user key. */
  datatype Fate = IsBlank | IsUnknown | Means(schemaKey: string)

  function Judge(key: string, index: map<string, string>): Fate {
    if Blank(key) then IsBlank
    else if Fold(key) in index then Means(index[Fold(key)])
    else IsUnknown
  }

  /**
   * Where the key loop stands after visiting the keys in `seen`. `origin` remembers which user
   * key was stored under each schema key.
   */
  ghost predicate Sifted(o: Options, fate: map<string, Fate>, seen: set<string>,
                         stored: Options, errs: seq<KeyError>, origin: map<string, string>)
    requires seen <= o.Keys == fate.Keys
  {
    && origin.Keys == stored.Keys
    && (forall s :: s in origin ==> Traced(o, fate, seen, s, origin[s], stored[s]))
    && (forall i :: 0 <= i < |errs| ==> errs[i].key in seen && Deserved(errs[i], fate[errs[i].key], origin))
    && (forall k :: k in seen ==> Settled(k, fate[k], errs, origin))
  }

  ghost predicate Traced(o: Options, fate: map<string, Fate>, seen: set<string>, s: string, user: string, v: Value)
    requires seen <= o.Keys == fate.Keys
  {
    user in seen && fate[user] == Means(s) && v == o[user]
  }

  ghost predicate Deserved(e: KeyError, f: Fate, origin: map<string, string>) {
    match e
    case EmptyKey(_) => f.IsBlank?
    case NotFound(_) => f.IsUnknown?
    case Duplicate(k) => f.Means? && f.schemaKey in origin && origin[f.schemaKey] != k
  }

  ghost predicate Settled(k: string, f: Fate, errs: seq<KeyError>, origin: map<string, string>) {
    match f
    case IsBlank => EmptyKey(k) in errs
    case IsUnknown => NotFound(k) in errs
    case Means(s) => Duplicate(k) in errs || (s in origin && origin[s] == k)
  }

  method SiftKeys(o: Options, index: map<string, string>, ghost fate: map<string, Fate>)
    returns (stored: Options, errs: seq<KeyError>, ghost origin: map<string, string>)
    requires fate == map k | k in o :: Judge(k, index)
    ensures Sifted(o, fate, o.Keys, stored, errs, origin)
  {
    hide TrimSpace, KeepAlphaNumeric;
    stored, errs, origin := map[], [], map[];
    var rest := o.Keys;
    ghost var seen: set<string> := {};
    while rest != {}
      invariant rest <= o.Keys
      invariant seen == o.Keys - rest
      invariant Sifted(o, fate, seen, stored, errs, origin)
      decreases rest
    {
      var k :| k in rest;
      ghost var stored0, errs0, origin0 := stored, errs, origin;
      rest := rest - {k};
      var trimmed := TrimSpace(k);
      if trimmed == "" {
        errs := errs + [EmptyKey(k)];
      } else {
        var safeStr := KeepAlphaNumeric(trimmed);
        if Lower(safeStr) !in index {
          errs := errs + [NotFound(k)];
        } else {
          var canonicalizedKey := index[Lower(safeStr)];
          if canonicalizedKey in stored {
            errs := errs + [Duplicate(k)];
          } else {
            stored := stored[canonicalizedKey := o[k]];
            origin := origin[canonicalizedKey := k];
          }
        }
      }
      assert Visited(k, o[k], Judge(k, index), stored0, errs0, origin0, stored, errs, origin);
      assert fate[k] == Judge(k, index);
      VisitKeepsSifted(o, fate, seen, stored0, errs0, origin0, k, stored, errs, origin);
      seen := seen + {k};
    }
  }

  /** One turn of the key loop. */
  ghost predicate Visited(k: string, v: Value, f: Fate,
                          stored: Options, errs: seq<KeyError>, origin: map<string, string>,
                          stored': Options, errs': seq<KeyError>, origin': map<string, string>) {
    match f
    case IsBlank => (stored', errs', origin') == (stored, errs + [EmptyKey(k)], origin)
    case IsUnknown => (stored', errs', origin') == (stored, errs + [NotFound(k)], origin)
    case Means(s) =>
      if s in stored then (stored', errs', origin') == (stored, errs + [Duplicate(k)], origin)
      else (stored', errs', origin') == (stored[s := v], errs, origin[s := k])
  }

  lemma VisitKeepsSifted(o: Options, fate: map<string, Fate>, seen: set<string>,
                         stored: Options, errs: seq<KeyError>, origin: map<string, string>, k: string,
                         stored': Options, errs': seq<KeyError>, origin': map<string, string>)
    requires seen <= o.Keys == fate.Keys && k in o && k !in seen
    requires Sifted(o, fate, seen, stored, errs, origin)
    requires Visited(k, o[k], fate[k], stored, errs, origin, stored', errs', origin')
    ensures Sifted(o, fate, seen + {k}, stored', errs', origin')
  {
    match fate[k]
    case IsBlank => Reported(o, fate, seen, stored, errs, origin, EmptyKey(k));
    case IsUnknown => Reported(o, fate, seen, stored, errs, origin, NotFound(k));
    case Means(s) =>
      if s in stored {
        assert Traced(o, fate, seen, s, origin[s], stored[s]);
        Reported(o, fate, seen, stored, errs, origin, Duplicate(k));
      } else {
        StoredKey(o, fate, seen, stored, errs, origin, k);
      }
  }

  lemma Reported(o: Options, fate: map<string, Fate>, seen: set<string>,
                 stored: Options, errs: seq<KeyError>, origin: map<string, string>, e: KeyError)
    requires seen <= o.Keys == fate.Keys && e.key in o && e.key !in seen
    requires Sifted(o, fate, seen, stored, errs, origin)
    requires Deserved(e, fate[e.key], origin)
    ensures Sifted(o, fate, seen + {e.key}, stored, errs + [e], origin)
  {
    forall t | t in origin ensures Traced(o, fate, seen + {e.key}, t, origin[t], stored[t]) {
      assert Traced(o, fate, seen, t, origin[t], stored[t]);
    }
    forall k | k in seen + {e.key} ensures Settled(k, fate[k], errs + [e], origin) {
      assert e in errs + [e];
      assert k in seen ==> Settled(k, fate[k], errs, origin);
    }
  }

  lemma StoredKey(o: Options, fate: map<string, Fate>, seen: set<string>,
                  stored: Options, errs: seq<KeyError>, origin: map<string, string>, k: string)
    requires seen <= o.Keys == fate.Keys && k in o && k !in seen
    requires Sifted(o, fate, seen, stored, errs, origin)
    requires fate[k].Means? && fate[k].schemaKey !in stored
    ensures Sifted(o, fate, seen + {k}, stored[fate[k].schemaKey := o[k]], errs, origin[fate[k].schemaKey := k])
  {
    var s := fate[k].schemaKey;
    var stored', origin', seen' := stored[s := o[k]], origin[s := k], seen + {k};
    forall t | t in origin' ensures Traced(o, fate, seen', t, origin'[t], stored'[t]) {
      assert t != s ==> Traced(o, fate, seen, t, origin[t], stored[t]);
    }
    forall l | l in seen' ensures Settled(l, fate[l], errs, origin') {
      assert l in seen ==> Settled(l, fate[l], errs, origin);
    }
    forall i | 0 <= i < |errs| ensures Deserved(errs[i], fate[errs[i].key], origin') {
      assert Deserved(errs[i], fate[errs[i].key], origin);
    }
  }

  /**
   * Whatever the iteration order: every blank and every unknown key is reported, every other
   * key is either stored or reported as a duplicate, and nothing else is reported.
   */
  method CanonicalizeKeys(o: Options, schema: Options) returns (canonicalized: Options, errs: seq<KeyError>)
    requires SchemaOk(schema)
    ensures forall k :: EmptyKey(k) in errs <==> k in o && Blank(k)
    ensures forall k :: NotFound(k) in errs <==> k in o && !Blank(k) && !Knows(schema, k)
    ensures errs == [] <==> KeysAccepted(o, schema)
    ensures errs == [] ==> canonicalized == Renamed(o, schema)
  {
    var schemaKeys := LowercaseIndex(schema);
    ghost var fate := map k | k in o :: Judge(k, schemaKeys);
    ghost var origin;
    canonicalized, errs, origin := SiftKeys(o, schemaKeys, fate);
    JudgeIsSpelling(o, schema, schemaKeys);
    if errs == [] {
      NoErrorsMeansAccepted(o, schema, fate, canonicalized, origin);
    } else {
      ErrorMeansRejected(o, schema, fate, canonicalized, errs, origin);
    }
    forall k
      ensures EmptyKey(k) in errs <==> k in o && Blank(k)
      ensures NotFound(k) in errs <==> k in o && !Blank(k) && !Knows(schema, k)
    {
      assert k in o ==> Settled(k, fate[k], errs, origin);
      assert EmptyKey(k) in errs ==> k in o && Deserved(EmptyKey(k), fate[k], origin);
      assert NotFound(k) in errs ==> k in o && Deserved(NotFound(k), fate[k], origin);
    }
  }

  /** The loop judges a key as the schema does. */
  ghost predicate JudgedBy(schema: Options, key: string, f: Fate) {
    match f
    case IsBlank => Blank(key)
    case IsUnknown => !Blank(key) && !Knows(schema, key)
    case Means(s) => !Blank(key) && Knows(schema, key) && s == Spelling(schema, key)
  }

  lemma JudgeIsSpelling(o: Options, schema: Options, index: map<string, string>)
    requires SchemaOk(schema)
    requires forall s :: s in schema ==> Lower(s) in index && index[Lower(s)] == s
    requires forall l :: l in index ==> index[l] in schema && Lower(index[l]) == l
    ensures forall k :: k in o ==> JudgedBy(schema, k, Judge(k, index))
  {
    forall k | k in o ensures JudgedBy(schema, k, Judge(k, index)) {
      if Fold(k) in index {
        assert index[Fold(k)] in schema;
        assert SameButForCase(index[Fold(k)], Spelling(schema, k));
      }
    }
  }

  lemma NoErrorsMeansAccepted(o: Options, schema: Options, fate: map<string, Fate>,
                              stored: Options, origin: map<string, string>)
    requires SchemaOk(schema)
    requires fate.Keys == o.Keys && forall k :: k in o ==> JudgedBy(schema, k, fate[k])
    requires Sifted(o, fate, o.Keys, stored, [], origin)
    ensures KeysAccepted(o, schema)
    ensures stored == Renamed(o, schema)
  {
    forall k | k in o ensures fate[k].Means? && fate[k].schemaKey in origin && origin[fate[k].schemaKey] == k {
      assert Settled(k, fate[k], [], origin);
    }
    forall k, l | k in o && l in o && SameFold(k, l) ensures k == l {
      SpellingByFold(schema, k, l);
    }
    StoredIsRenamed(o, schema, Names(o, schema), stored, origin);
  }

  lemma StoredIsRenamed(o: Options, schema: Options, names: map<string, string>, stored: Options, origin: map<string,
                        string>)
    requires KeysAccepted(o, schema) && names == Names(o, schema)
    requires origin.Keys == stored.Keys
    requires forall s :: s in stored ==> origin[s] in o && names[origin[s]] == s && stored[s] == o[origin[s]]
    requires forall k :: k in o ==> names[k] in stored && origin[names[k]] == k
    ensures stored == Renamed(o, schema)
  {
  }

  lemma ErrorMeansRejected(o: Options, schema: Options, fate: map<string, Fate>,
                           stored: Options, errs: seq<KeyError>, origin: map<string, string>)
    requires fate.Keys == o.Keys && forall k :: k in o ==> JudgedBy(schema, k, fate[k])
    requires Sifted(o, fate, o.Keys, stored, errs, origin)
    requires errs != []
    ensures !KeysAccepted(o, schema)
  {
    var e := errs[0];
    assert Deserved(e, fate[e.key], origin) && JudgedBy(schema, e.key, fate[e.key]);
    if e.Duplicate? {
      var s := fate[e.key].schemaKey;
      assert Traced(o, fate, o.Keys, s, origin[s], stored[s]);
      assert JudgedBy(schema, origin[s], fate[origin[s]]);
      assert SameFold(origin[s], e.key);
    }
  }

  lemma SpellingByFold(schema: Options, k: string, l: string)
    requires SameFold(k, l)
    requires SchemaOk(schema)
    ensures Knows(schema, k) <==> Knows(schema, l)
    ensures Knows(schema, k) ==> Spelling(schema, k) == Spelling(schema, l)
  {
    if Knows(schema, k) {
      assert SameButForCase(Spelling(schema, k), Spelling(schema, l));
    }
  }

  method Canonicalize(o: Options, schema: Options) returns (r: Result<Options, CanonicalError>)
    requires SchemaOk(schema)
    ensures r.Ok? <==> Accepts(o, schema)
    ensures r.Ok? ==> r.value == Canonical(o, schema)
    decreases Nested(o), 1
  {
    var keys, errs := CanonicalizeKeys(o, schema);
    if errs != [] {
      return Err(BadKeys(errs));
    }
    RenamedSuffices(o, schema);
    r := CanonicalizeValues(keys, schema, o);
  }

  ghost predicate ValuesAccepted(keys: Options, schema: Options)
    requires keys.Keys <= schema.Keys
  {
    forall s :: s in keys ==> ValueAccepted(keys[s], schema[s])
  }

  ghost function CanonicalValues(keys: Options, schema: Options): Options
    requires keys.Keys <= schema.Keys && ValuesAccepted(keys, schema)
  {
    map s | s in keys :: CanonicalValue(keys[s], schema[s])
  }

  /** The second loop of `Canonicalize`, over keys already in the schema's spelling. */
  method CanonicalizeValues(keys: Options, schema: Options, ghost origin: Options)
    returns (r: Result<Options, CanonicalError>)
    requires SchemaOk(schema) && keys.Keys <= schema.Keys
    requires forall s :: s in keys ==> (Nested(origin) decreases to keys[s])
    ensures r.Ok? <==> ValuesAccepted(keys, schema)
    ensures r.Ok? ==> r.value == CanonicalValues(keys, schema)
    decreases Nested(origin), 0
  {
    var canonicalized: Options := map[];
    var rest := keys.Keys;
    while rest != {}
      invariant rest <= keys.Keys && canonicalized.Keys == keys.Keys - rest
      invariant forall k :: k in canonicalized ==>
        && ValueAccepted(keys[k], schema[k])
        && canonicalized[k] == CanonicalValue(keys[k], schema[k])
      decreases rest
    {
      var k :| k in rest;
      rest := rest - {k};
      if keys[k].Nested? {
        if !schema[k].Nested? {
          return Err(NotNestedInSchema(k));
        }
        var nested := Canonicalize(keys[k].options, schema[k].options);
        if nested.Err? {
          return Err(nested.error);
        }
        canonicalized := canonicalized[k := Nested(nested.value)];
        continue;
      }
      if schema[k].Nested? {
        return Err(NestedInSchema(k));
      }
      canonicalized := canonicalized[k := keys[k]];
    }
    return Ok(canonicalized);
  }

  // ---- Reading a canonicalized tree entry by entry ----

  lemma CanonicalAt(o: Options, schema: Options, k: string)
    requires Accepts(o, schema) && k in o
    ensures var s := Spelling(schema, k);
            && s in Canonical(o, schema)
            && ValueAccepted(o[k], schema[s])
            && Canonical(o, schema)[s] == CanonicalValue(o[k], schema[s])
  {
    assert Names(o, schema)[k] == Spelling(schema, k);
  }

  lemma CanonicalFrom(o: Options, schema: Options, s: string) returns (k: string)
    requires Accepts(o, schema) && s in Canonical(o, schema)
    ensures k in o && Spelling(schema, k) == s
  {
    k := Holder(Names(o, schema), s);
  }

  lemma RenamedAt(o: Options, schema: Options, k: string)
    requires KeysAccepted(o, schema) && k in o
    ensures Spelling(schema, k) in Renamed(o, schema) && Renamed(o, schema)[Spelling(schema, k)] == o[k]
  {
    assert Names(o, schema)[k] == Spelling(schema, k);
  }

  lemma RenamedFrom(o: Options, schema: Options, s: string) returns (k: string)
    requires KeysAccepted(o, schema) && s in Renamed(o, schema)
    ensures k in o && Spelling(schema, k) == s && s in schema && Renamed(o, schema)[s] == o[k]
  {
    k := Holder(Names(o, schema), s);
    RenamedAt(o, schema, k);
  }

  /** Renaming the keys first and treating the values afterwards gives the same answer. */
  lemma RenamedSuffices(o: Options, schema: Options)
    requires KeysAccepted(o, schema)
    ensures Renamed(o, schema).Keys <= schema.Keys
    ensures forall s :: s in Renamed(o, schema) ==> (Nested(o) decreases to Renamed(o, schema)[s])
    ensures Accepts(o, schema) <==> ValuesAccepted(Renamed(o, schema), schema)
    ensures Accepts(o, schema) ==> Canonical(o, schema) == CanonicalValues(Renamed(o, schema), schema)
  {
    RenamedFits(o, schema);
    if ValuesAccepted(Renamed(o, schema), schema) {
      forall k | k in o ensures ValueAccepted(o[k], schema[Spelling(schema, k)]) {
        RenamedAt(o, schema, k);
      }
    }
    if Accepts(o, schema) {
      forall s | s in Renamed(o, schema) ensures ValueAccepted(Renamed(o, schema)[s], schema[s]) {
        var k := RenamedFrom(o, schema, s);
        CanonicalAt(o, schema, k);
      }
      CanonicalByRenamed(o, schema);
    }
  }

  lemma RenamedFits(o: Options, schema: Options)
    requires KeysAccepted(o, schema)
    ensures Renamed(o, schema).Keys <= schema.Keys
    ensures forall s :: s in Renamed(o, schema) ==> (Nested(o) decreases to Renamed(o, schema)[s])
  {
    forall s | s in Renamed(o, schema) ensures s in schema && (Nested(o) decreases to Renamed(o, schema)[s]) {
      var k := RenamedFrom(o, schema, s);
    }
  }

  lemma CanonicalByRenamed(o: Options, schema: Options)
    requires Accepts(o, schema)
    requires Renamed(o, schema).Keys <= schema.Keys && ValuesAccepted(Renamed(o, schema), schema)
    ensures Canonical(o, schema) == CanonicalValues(Renamed(o, schema), schema)
  {
    var c, d := Canonical(o, schema), CanonicalValues(Renamed(o, schema), schema);
    forall s ensures s in c <==> s in d ensures s in c ==> c[s] == d[s] {
      if s in c {
        var k := CanonicalFrom(o, schema, s);
        CanonicalAt(o, schema, k);
        RenamedAt(o, schema, k);
      } else if s in d {
        var k := RenamedFrom(o, schema, s);
        CanonicalAt(o, schema, k);
      }
    }
    EqualByEntries(c, d);
  }
}
