/**
 * What canonicalization promises (pkg/suites/options.go): the result fits the schema, so merging
 * it never leaves two spellings of one option; nothing is lost or invented; and the spelling
 * the user chose does not matter.
 */
module CanonicalLaws {
  import opened Wrappers
  import opened OptionTree
  import opened Keys
  import opened Canonicalization

  /** Only schema keys, and sections exactly where the schema has sections. */
  ghost predicate Conforms(o: Options, schema: Options)
    decreases Nested(o)
  {
    forall k :: k in o ==>
      && k in schema
      && o[k].Nested? == schema[k].Nested?
      && (o[k].Nested? ==> Conforms(o[k].options, schema[k].options))
  }

  ghost predicate SameShape(a: Options, b: Options)
    decreases Nested(a)
  {
    && a.Keys == b.Keys
    && forall k :: k in a ==>
         && a[k].Nested? == b[k].Nested?
         && (a[k].Nested? ==> SameShape(a[k].options, b[k].options))
  }

  lemma {:induction false} CanonicalConforms(o: Options, schema: Options)
    requires Accepts(o, schema)
    ensures Conforms(Canonical(o, schema), schema)
    decreases Nested(o)
  {
    var c := Canonical(o, schema);
    forall s | s in c
      ensures s in schema && c[s].Nested? == schema[s].Nested?
      ensures c[s].Nested? ==> Conforms(c[s].options, schema[s].options)
    {
      var k := CanonicalFrom(o, schema, s);
      CanonicalAt(o, schema, k);
      if o[k].Nested? {
        CanonicalConforms(o[k].options, schema[s].options);
      }
    }
  }

  lemma {:induction false} SameShapeReflexive(o: Options)
    ensures SameShape(o, o)
    decreases Nested(o)
  {
    forall k | k in o && o[k].Nested? ensures SameShape(o[k].options, o[k].options) {
      SameShapeReflexive(o[k].options);
    }
  }

  /** Overriding a tree with one that fits it changes settings, never keys or sections. */
  lemma {:induction false} MergeKeepsShape(schema: Options, c: Options)
    requires Conforms(c, schema)
    ensures SameShape(Merge(schema, c), schema)
    decreases Nested(c)
  {
    var m := Merge(schema, c);
    forall k | k in m && m[k].Nested?
      ensures k in schema && schema[k].Nested? && SameShape(m[k].options, schema[k].options)
    {
      if k in c {
        MergeKeepsShape(schema[k].options, c[k].options);
      } else {
        SameShapeReflexive(schema[k].options);
      }
    }
  }

  lemma ShapeTheorem(o: Options, schema: Options)
    requires Accepts(o, schema)
    ensures SameShape(Merge(schema, Canonical(o, schema)), schema)
  {
    CanonicalConforms(o, schema);
    MergeKeepsShape(schema, Canonical(o, schema));
  }

  lemma {:induction false} ConformingTreesAssociate(a: Options, b: Options, c: Options, schema: Options)
    requires Conforms(a, schema) && Conforms(b, schema) && Conforms(c, schema)
    ensures Associates(a, b, c)
    decreases Nested(c)
  {
    forall k | k in c ensures AssociatesAt(a, b, c, k) {
      if k in a && k in b && c[k].Nested? {
        ConformingTreesAssociate(a[k].options, b[k].options, c[k].options, schema[k].options);
      }
    }
  }

  /** Trees accepted by one schema merge in either grouping, unlike trees in general. */
  lemma CanonicalMergeAssociative(a: Options, b: Options, c: Options, schema: Options)
    requires Accepts(a, schema) && Accepts(b, schema) && Accepts(c, schema)
    ensures var x, y, z := Canonical(a, schema), Canonical(b, schema), Canonical(c, schema);
            Merge(Merge(x, y), z) == Merge(x, Merge(y, z))
  {
    var x, y, z := Canonical(a, schema), Canonical(b, schema), Canonical(c, schema);
    CanonicalConforms(a, schema);
    CanonicalConforms(b, schema);
    CanonicalConforms(c, schema);
    ConformingTreesAssociate(x, y, z, schema);
    MergeAssociativeIff(x, y, z);
  }

  // ---- Idempotence ----

  /** No key, at any level, is made of symbols alone. */
  ghost predicate NoBareKey(o: Options)
    decreases Nested(o)
  {
    forall k :: k in o ==> Fold(k) != [] && (o[k].Nested? ==> NoBareKey(o[k].options))
  }

  lemma SpellingOfSpelling(schema: Options, key: string)
    requires SchemaOk(schema) && Knows(schema, key)
    ensures var s := Spelling(schema, key);
            && Knows(schema, s) && Spelling(schema, s) == s
            && Fold(s) == Fold(key)
            && (Blank(s) <==> Fold(key) == [])
  {
    var s := Spelling(schema, key);
    FoldTargetIsPlain(s, key);
    assert SameButForCase(s, Spelling(schema, s));
  }

  /**
   * Canonicalizing twice: accepted the second time exactly if the first input had no key made
   * of symbols alone. Such a key is accepted when the schema has an empty key, is renamed to
   * it, and is then refused as blank.
   */
  lemma {:induction false} CanonicalizeTwice(o: Options, schema: Options)
    requires SchemaOk(schema) && Accepts(o, schema)
    ensures Accepts(Canonical(o, schema), schema) <==> NoBareKey(o)
    ensures NoBareKey(o) ==> Canonical(Canonical(o, schema), schema) == Canonical(o, schema)
    decreases Nested(o), 1
  {
    var c := Canonical(o, schema);
    if NoBareKey(o) {
      forall s | s in c
        ensures !Blank(s) && Knows(schema, s) && Spelling(schema, s) == s && ValueAccepted(c[s], schema[s])
        ensures CanonicalValue(c[s], schema[s]) == c[s]
      {
        var k := TwiceEntry(o, schema, s);
      }
      forall s, t | s in c && t in c && SameFold(s, t) ensures s == t {
        SpellingByFold(schema, s, t);
      }
      assert Accepts(c, schema);
      CanonicalOfSettled(c, schema);
    } else {
      var k :| k in o && !(Fold(k) != [] && (o[k].Nested? ==> NoBareKey(o[k].options)));
      CanonicalAt(o, schema, k);
      TwiceRefused(o, schema, k);
    }
  }

  lemma {:induction false} TwiceEntry(o: Options, schema: Options, s: string) returns (k: string)
    requires SchemaOk(schema) && Accepts(o, schema) && NoBareKey(o)
    requires s in Canonical(o, schema)
    ensures k in o && !Blank(s) && Knows(schema, s) && Spelling(schema, s) == s
    ensures ValueAccepted(Canonical(o, schema)[s], schema[s])
    ensures CanonicalValue(Canonical(o, schema)[s], schema[s]) == Canonical(o, schema)[s]
    decreases Nested(o), 0
  {
    k := CanonicalFrom(o, schema, s);
    CanonicalAt(o, schema, k);
    SpellingOfSpelling(schema, k);
    assert Fold(k) != [];
    if o[k].Nested? {
      CanonicalizeTwice(o[k].options, schema[s].options);
    }
  }

  lemma {:induction false} TwiceRefused(o: Options, schema: Options, k: string)
    requires SchemaOk(schema) && Accepts(o, schema) && k in o
    requires Fold(k) == [] || (o[k].Nested? && !NoBareKey(o[k].options))
    ensures !Accepts(Canonical(o, schema), schema)
    decreases Nested(o), 0
  {
    var c, s := Canonical(o, schema), Spelling(schema, k);
    CanonicalAt(o, schema, k);
    SpellingOfSpelling(schema, k);
    if Accepts(c, schema) {
      assert !Blank(s);
      CanonicalizeTwice(o[k].options, schema[s].options);
      CanonicalAt(c, schema, s);
    }
  }

  /** A tree already in the schema's spelling is returned as it is. */
  lemma CanonicalOfSettled(c: Options, schema: Options)
    requires Accepts(c, schema)
    requires forall s :: s in c ==>
      && Spelling(schema, s) == s
      && ValueAccepted(c[s], schema[s])
      && CanonicalValue(c[s], schema[s]) == c[s]
    ensures Canonical(c, schema) == c
  {
    hide Canonical;
    var d := Canonical(c, schema);
    forall s
      ensures s in d <==> s in c
      ensures s in c ==> s in d && d[s] == c[s]
    {
      if s in d {
        var k := CanonicalFrom(c, schema, s);
      }
      if s in c {
        CanonicalAt(c, schema, s);
      }
    }
    EqualByEntries(d, c);
  }

  /** Canonicalizing an accepted tree once more can fail. */
  lemma CanonicalizeNotIdempotent() returns (o: Options, schema: Options)
    ensures SchemaOk(schema) && Accepts(o, schema) && !Accepts(Canonical(o, schema), schema)
  {
    o, schema := map["-" := Leaf(Null)], map["" := Leaf(Null)];
    BareDashAccepted(o, schema);
    assert Fold("-") == [];
    TwiceRefused(o, schema, "-");
  }

  lemma BareDashAccepted(o: Options, schema: Options)
    requires o == map["-" := Leaf(Null)] && schema == map["" := Leaf(Null)]
    ensures SchemaOk(schema) && Accepts(o, schema) && Fold("-") == []
  {
    KeepIgnoresTrim("-");
    KeepNothing("-");
    BlankIff("-");
    assert "-"[0] == '-';
    assert Lower("") == "" == Fold("-");
    assert "" in schema && Knows(schema, "-");
    assert Spelling(schema, "-") in schema;
  }

  ghost predicate NoEmptyKey(schema: Options)
    decreases Nested(schema)
  {
    forall k :: k in schema ==> k != "" && (schema[k].Nested? ==> NoEmptyKey(schema[k].options))
  }

  /** A schema without empty keys, such as all the defaults, accepts no key made of symbols alone. */
  lemma {:induction false} NoBareKeyAccepted(o: Options, schema: Options)
    requires NoEmptyKey(schema) && Accepts(o, schema)
    ensures NoBareKey(o)
    decreases Nested(o)
  {
    forall k | k in o ensures Fold(k) != [] && (o[k].Nested? ==> NoBareKey(o[k].options)) {
      var s := Spelling(schema, k);
      assert |Lower(s)| == |s|;
      assert ValueAccepted(o[k], schema[s]);
      if o[k].Nested? {
        NoBareKeyAccepted(o[k].options, schema[s].options);
      }
    }
  }

  /** For such a schema canonicalization is idempotent. */
  lemma CanonicalizeIdempotent(o: Options, schema: Options)
    requires SchemaOk(schema) && NoEmptyKey(schema) && Accepts(o, schema)
    ensures Accepts(Canonical(o, schema), schema)
    ensures Canonical(Canonical(o, schema), schema) == Canonical(o, schema)
  {
    NoBareKeyAccepted(o, schema);
    CanonicalizeTwice(o, schema);
  }

  // ---- What is certainly accepted ----

  /** Every key, at every level, is made of letters and digits. */
  ghost predicate PlainKeys(o: Options)
    decreases Nested(o)
  {
    forall k :: k in o ==>
      && k != ""
      && (forall i :: 0 <= i < |k| ==> 'a' <= k[i] <= 'z' || 'A' <= k[i] <= 'Z' || '0' <= k[i] <= '9')
      && (o[k].Nested? ==> PlainKeys(o[k].options))
  }

  lemma PlainKeyFits(schema: Options, k: string)
    requires SchemaOk(schema) && k in schema && k != ""
    requires forall i :: 0 <= i < |k| ==> 'a' <= k[i] <= 'z' || 'A' <= k[i] <= 'Z' || '0' <= k[i] <= '9'
    ensures !Blank(k) && Knows(schema, k) && Spelling(schema, k) == k && Fold(k) == Lower(k)
  {
    KeepIgnoresTrim(k);
    KeepAll(k);
    BlankIff(k);
    assert !IsSpace(k[0]);
    assert SameButForCase(k, Spelling(schema, k));
  }

  /**
   * Options written in the schema's own spelling, with sections where the schema has them, are
   * accepted and returned as they are, whatever their values.
   */
  lemma {:induction false} ConformingUnchanged(o: Options, schema: Options)
    requires SchemaOk(schema) && Conforms(o, schema) && PlainKeys(o)
    ensures Accepts(o, schema) && Canonical(o, schema) == o
    decreases Nested(o), 1
  {
    hide Fold, Blank, Lower, Canonical, Conforms, PlainKeys, SchemaOk;
    forall k | k in o ensures EntryUnchanged(o, schema, k) {
      ConformingEntry(o, schema, k);
    }
    forall k, l | k in o && l in o && SameFold(k, l) ensures k == l {
      assert EntryUnchanged(o, schema, k) && EntryUnchanged(o, schema, l);
      KeysApart(schema, k, l);
    }
    CanonicalOfSettled(o, schema);
  }

  ghost predicate EntryUnchanged(o: Options, schema: Options, k: string) {
    && k in o && k in schema
    && !Blank(k) && Knows(schema, k) && Spelling(schema, k) == k && Fold(k) == Lower(k)
    && ValueAccepted(o[k], schema[k]) && CanonicalValue(o[k], schema[k]) == o[k]
  }

  lemma {:induction false} ConformingEntry(o: Options, schema: Options, k: string)
    requires SchemaOk(schema) && Conforms(o, schema) && PlainKeys(o) && k in o
    ensures EntryUnchanged(o, schema, k)
    decreases Nested(o), 0
  {
    hide Fold, Blank, Lower, Canonical, Accepts;
    PlainKeyFits(schema, k);
    if o[k].Nested? {
      ConformingUnchanged(o[k].options, schema[k].options);
    }
  }

  lemma KeysApart(schema: Options, k: string, l: string)
    requires SchemaOk(schema) && k in schema && l in schema && Lower(k) == Lower(l)
    ensures k == l
  {
    assert SameButForCase(k, l);
  }

  // ---- The user's spelling does not matter ----

  /** New names for the keys of a tree, level by level. */
  datatype Renaming = Renaming(names: map<string, string>, below: map<string, Renaming>)

  /** A renaming that only changes case, separators and outer blanks. */
  ghost predicate Harmless(o: Options, r: Renaming)
    decreases Nested(o)
  {
    && r.names.Keys == r.below.Keys == o.Keys
    && Injective(r.names)
    && (forall k :: k in o ==> SameKey(k, r.names[k]))
    && (forall k :: k in o && o[k].Nested? ==> Harmless(o[k].options, r.below[k]))
  }

  predicate SameKey(k: string, l: string) {
    Fold(k) == Fold(l) && Blank(k) == Blank(l)
  }

  ghost function Respelled(o: Options, r: Renaming): Options
    requires Harmless(o, r)
    decreases Nested(o), 0
  {
    Relabel(map k | k in o :: RespelledValue(o[k], r.below[k]), r.names)
  }

  ghost function RespelledValue(v: Value, r: Renaming): Value
    requires v.Nested? ==> Harmless(v.options, r)
    decreases v, 1
  {
    if v.Nested? then Nested(Respelled(v.options, r)) else v
  }

  lemma RespelledAt(o: Options, r: Renaming, k: string)
    requires Harmless(o, r) && k in o
    ensures var l := r.names[k];
            && l in Respelled(o, r)
            && Respelled(o, r)[l] == RespelledValue(o[k], r.below[k])
            && SameKey(k, l)
  {
  }

  lemma RespelledFrom(o: Options, r: Renaming, l: string) returns (k: string)
    requires Harmless(o, r) && l in Respelled(o, r)
    ensures k in o && r.names[k] == l
  {
    k := Holder(r.names, l);
  }

  /** Acceptance of the keys is a matter of the key set alone. */
  lemma RenamedKeysAccepted(o: Options, o': Options, names: map<string, string>, schema: Options)
    requires SchemaOk(schema)
    requires names.Keys == o.Keys && names.Values == o'.Keys && Injective(names)
    requires forall k :: k in names ==> SameKey(k, names[k])
    ensures KeysAccepted(o, schema) <==> KeysAccepted(o', schema)
  {
    forall k | k in o
      ensures names[k] in o' && (!Blank(k) && Knows(schema, k) <==> !Blank(names[k]) && Knows(schema, names[k]))
    {
      KnownAlike(schema, k, names[k]);
    }
    forall l | l in o' ensures Holder(names, l) in o && names[Holder(names, l)] == l {
    }
    FoldsApart(names);
  }

  lemma KnownAlike(schema: Options, k: string, l: string)
    requires SameKey(k, l)
    ensures !Blank(k) && Knows(schema, k) <==> !Blank(l) && Knows(schema, l)
  {
  }

  /** Keys that fold alike are renamed to keys that fold alike, and to no others. */
  lemma FoldsApart(names: map<string, string>)
    requires Injective(names)
    requires forall k :: k in names ==> SameKey(k, names[k])
    ensures (forall k, l {:trigger SameFold(k, l)} :: k in names && l in names && SameFold(k, l) ==> k == l) <==>
            (forall k, l {:trigger SameFold(k, l)} ::
               k in names.Values && l in names.Values && SameFold(k, l) ==> k == l)
  {
    if k, l :| k in names && l in names && SameFold(k, l) && k != l {
      assert SameKey(k, names[k]) && SameKey(l, names[l]);
      assert SameFold(names[k], names[l]) && names[k] != names[l];
    } else if k, l :| k in names.Values && l in names.Values && SameFold(k, l) && k != l {
      var i, j := Holder(names, k), Holder(names, l);
      assert SameKey(i, k) && SameKey(j, l);
      assert SameFold(i, j);
    }
  }

  /** Case, separators and outer blanks of the keys change neither acceptance nor the result. */
  lemma {:induction false} SpellingDoesNotMatter(o: Options, r: Renaming, schema: Options)
    requires SchemaOk(schema) && Harmless(o, r)
    ensures Accepts(o, schema) <==> Accepts(Respelled(o, r), schema)
    ensures Accepts(o, schema) ==> Canonical(o, schema) == Canonical(Respelled(o, r), schema)
    decreases Nested(o), 1
  {
    var o' := Respelled(o, r);
    RenamedKeysAccepted(o, o', r.names, schema);
    if KeysAccepted(o, schema) {
      if Accepts(o, schema) {
        forall l | l in o' ensures ValueAccepted(o'[l], schema[Spelling(schema, l)]) {
          var k := RespelledFrom(o, r, l);
          RespelledEntry(o, r, schema, k);
        }
        forall k | k in o ensures Paired(o, o', schema, k, r.names[k]) {
          RespelledEntry(o, r, schema, k);
        }
        PairedTreesEqual(o, o', r.names, schema);
      }
      if Accepts(o', schema) {
        forall k | k in o ensures ValueAccepted(o[k], schema[Spelling(schema, k)]) {
          RespelledEntry(o, r, schema, k);
        }
      }
    }
  }

  lemma {:induction false} RespelledEntry(o: Options, r: Renaming, schema: Options, k: string)
    requires SchemaOk(schema) && Harmless(o, r) && KeysAccepted(o, schema) && k in o
    ensures var o', l := Respelled(o, r), r.names[k];
            && l in o' && Knows(schema, l) && Spelling(schema, l) == Spelling(schema, k)
            && var u := schema[Spelling(schema, k)];
               && (ValueAccepted(o[k], u) <==> ValueAccepted(o'[l], u))
               && (ValueAccepted(o[k], u) ==> CanonicalValue(o[k], u) == CanonicalValue(o'[l], u))
    decreases Nested(o), 0
  {
    var l, u := r.names[k], schema[Spelling(schema, k)];
    RespelledAt(o, r, k);
    SpellingByFold(schema, k, l);
    if o[k].Nested? && u.Nested? {
      SpellingDoesNotMatter(o[k].options, r.below[k], u.options);
    }
  }

  /** Two user entries that become the same entry of the schema. */
  ghost predicate Paired(o: Options, o': Options, schema: Options, k: string, l: string) {
    && k in o && Knows(schema, k)
    && l in o' && Knows(schema, l)
    && Spelling(schema, l) == Spelling(schema, k)
    && var u := schema[Spelling(schema, k)];
       && ValueAccepted(o[k], u) && ValueAccepted(o'[l], u)
       && CanonicalValue(o[k], u) == CanonicalValue(o'[l], u)
  }

  lemma PairedTreesEqual(o: Options, o': Options, names: map<string, string>, schema: Options)
    requires Accepts(o, schema) && Accepts(o', schema)
    requires names.Keys == o.Keys && names.Values == o'.Keys
    requires forall k :: k in o ==> Paired(o, o', schema, k, names[k])
    ensures Canonical(o, schema) == Canonical(o', schema)
  {
    var c, c' := Canonical(o, schema), Canonical(o', schema);
    forall s ensures s in c <==> s in c' ensures s in c ==> c[s] == c'[s] {
      if s in c {
        var k := CanonicalFrom(o, schema, s);
        PairedEntry(o, o', schema, k, names[k]);
      } else if s in c' {
        var l := CanonicalFrom(o', schema, s);
        var k :| k in names && names[k] == l;
        PairedEntry(o, o', schema, k, l);
      }
    }
    EqualByEntries(c, c');
  }

  lemma PairedEntry(o: Options, o': Options, schema: Options, k: string, l: string)
    requires Accepts(o, schema) && Accepts(o', schema)
    requires Paired(o, o', schema, k, l)
    ensures var s := Spelling(schema, k);
            && s in Canonical(o, schema) && s in Canonical(o', schema)
            && Canonical(o, schema)[s] == Canonical(o', schema)[s]
  {
    CanonicalAt(o, schema, k);
    CanonicalAt(o', schema, l);
  }

  // ---- Nothing is lost and nothing invented ----

  ghost predicate HasLeaf(o: Options, p: Path) {
    LeafAt(o, p).Some?
  }

  /** Where the setting at path `p` of the input ends up. */
  ghost function NamePath(o: Options, schema: Options, p: Path): (q: Path)
    requires Accepts(o, schema) && HasLeaf(o, p)
    ensures |q| == |p|
    decreases |p|
  {
    LeafStep(o, p);
    CanonicalAt(o, schema, p[0]);
    var s := Spelling(schema, p[0]);
    if |p| == 1 then [s] else [s] + NamePath(o[p[0]].options, schema[s].options, p[1..])
  }

  lemma {:induction false} EveryLeafKept(o: Options, schema: Options, p: Path)
    requires Accepts(o, schema) && HasLeaf(o, p)
    ensures LeafAt(Canonical(o, schema), NamePath(o, schema, p)) == LeafAt(o, p)
    decreases |p|
  {
    var s := Spelling(schema, p[0]);
    LeafStep(o, p);
    CanonicalAt(o, schema, p[0]);
    if |p| > 1 {
      var rest := NamePath(o[p[0]].options, schema[s].options, p[1..]);
      EveryLeafKept(o[p[0]].options, schema[s].options, p[1..]);
      LeafBelow(Canonical(o, schema), s, rest);
    }
  }

  lemma {:induction false} LeavesStayApart(o: Options, schema: Options, p: Path, q: Path)
    requires Accepts(o, schema) && HasLeaf(o, p) && HasLeaf(o, q)
    requires NamePath(o, schema, p) == NamePath(o, schema, q)
    ensures p == q
    decreases |p|
  {
    LeafStep(o, p);
    LeafStep(o, q);
    CanonicalAt(o, schema, p[0]);
    var v, s := o[p[0]], Spelling(schema, p[0]);
    assert NamePath(o, schema, p)[0] == s && NamePath(o, schema, q)[0] == Spelling(schema, q[0]);
    assert SameFold(p[0], q[0]);
    if |p| > 1 {
      NamePathTail(o, schema, p);
      NamePathTail(o, schema, q);
      LeavesStayApart(v.options, schema[s].options, p[1..], q[1..]);
    }
  }

  lemma NamePathTail(o: Options, schema: Options, p: Path)
    requires Accepts(o, schema) && HasLeaf(o, p) && |p| > 1
    ensures var v, s := o[p[0]], Spelling(schema, p[0]);
            && v.Nested? && schema[s].Nested? && Accepts(v.options, schema[s].options)
            && HasLeaf(v.options, p[1..])
            && NamePath(o, schema, p)[1..] == NamePath(v.options, schema[s].options, p[1..])
  {
    LeafStep(o, p);
    CanonicalAt(o, schema, p[0]);
  }

  lemma {:induction false} EveryLeafComesFromInput(o: Options, schema: Options, q: Path) returns (p: Path)
    requires Accepts(o, schema) && HasLeaf(Canonical(o, schema), q)
    ensures HasLeaf(o, p) && NamePath(o, schema, p) == q
    decreases |q|
  {
    LeafStep(Canonical(o, schema), q);
    var k := CanonicalFrom(o, schema, q[0]);
    CanonicalAt(o, schema, k);
    if |q| == 1 {
      p := [k];
    } else {
      var rest := EveryLeafComesFromInput(o[k].options, schema[q[0]].options, q[1..]);
      p := [k] + rest;
      LeafBelow(o, k, rest);
      assert p[1..] == rest;
    }
  }
}
