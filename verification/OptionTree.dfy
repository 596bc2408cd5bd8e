/**
 * Option trees and `Merge` (pkg/suites/options.go).
 *
 * A Go `Options` and a Go `map[string]any` are the same thing to `isOptions`, so both
 * are `Nested`; every other Go value is a `Leaf`.
 */
module OptionTree {
  import opened Wrappers

  datatype Scalar =
    | Null
    | Flag(flag: bool)
    | Number(number: int)
    | Text(text: string)
    | Duration(seconds: int)
    | Other(tag: int)

  datatype Value = Leaf(scalar: Scalar) | Nested(options: map<string, Value>)

  type Options = map<string, Value>

  type Path = seq<string>

  /** What `o.Merge(other)` means: `other` wins, and two nested values merge recursively. */
  function Merge(o: Options, other: Options): Options
    decreases Nested(other)
  {
    map k | k in o.Keys + other.Keys ::
      if k !in other then o[k]
      else if k in o && o[k].Nested? && other[k].Nested? then
        Nested(Merge(o[k].options, other[k].options))
      else other[k]
  }

  /** The loop of `Merge`; Go visits the keys of `other` in an arbitrary order. */
  method MergeOptions(o: Options, other: Options) returns (merged: Options)
    ensures merged == Merge(o, other)
    decreases Nested(other)
  {
    merged := o;
    var rest := other.Keys;
    while rest != {}
      invariant rest <= other.Keys
      invariant merged.Keys == o.Keys + (other.Keys - rest)
      invariant forall k :: k in merged ==>
        merged[k] == if k in rest then o[k] else Merge(o, other)[k]
      decreases rest
    {
      var k :| k in rest;
      if other[k].Nested? && k in merged && merged[k].Nested? {
        var nested := MergeOptions(merged[k].options, other[k].options);
        merged := merged[k := Nested(nested)];
      } else {
        merged := merged[k := other[k]];
      }
      rest := rest - {k};
    }
  }

  // ---- The meaning of a tree, path by path ----

  /** What is met when walking down `o` along a path. */
  datatype Sight =
    | Absent        // some key on the way is missing, and only nested values came before it
    | Blocked       // a scalar sits on the way, above the end of the path
    | At(value: Value)

  function Look(o: Options, p: Path): Sight
    decreases |p|
  {
    if p == [] then At(Nested(o))
    else if p[0] !in o then Absent
    else if |p| == 1 then At(o[p[0]])
    else if o[p[0]].Leaf? then Blocked
    else Look(o[p[0]].options, p[1..])
  }

  /** The setting at a path, if there is one. */
  function LeafAt(o: Options, p: Path): Option<Scalar> {
    match Look(o, p)
    case At(Leaf(s)) => Some(s)
    case _ => None
  }

  lemma LeafStep(o: Options, p: Path)
    requires LeafAt(o, p).Some?
    ensures p != [] && p[0] in o && p == [p[0]] + p[1..]
    ensures |p| == 1 ==> o[p[0]].Leaf? && LeafAt(o, p) == Some(o[p[0]].scalar)
    ensures |p| > 1 ==> o[p[0]].Nested? && LeafAt(o, p) == LeafAt(o[p[0]].options, p[1..])
  {
  }

  lemma LeafBelow(o: Options, k: string, p: Path)
    requires k in o && p != []
    ensures LeafAt(o, [k] + p) == if o[k].Nested? then LeafAt(o[k].options, p) else None
  {
    assert ([k] + p)[1..] == p;
  }

  /**
   * `Merge` by path, with no condition on the trees: the setting of the overriding tree if it
   * has one; the setting of the base where the overriding tree says nothing; and no setting
   * where it puts a section at the path or a scalar above it.
   */
  lemma {:induction false} MergeByPath(o: Options, other: Options, p: Path)
    ensures LeafAt(Merge(o, other), p) ==
            match Look(other, p)
            case Absent => LeafAt(o, p)
            case At(Leaf(s)) => Some(s)
            case _ => None
    decreases |p|
  {
    if |p| > 1 && p[0] in other && p[0] in o && other[p[0]].Nested? && o[p[0]].Nested? {
      MergeByPath(o[p[0]].options, other[p[0]].options, p[1..]);
    }
  }

  /** Two trees that look alike along every path are equal: the path view loses nothing. */
  lemma {:induction false} PathsDetermineTree(a: Options, b: Options)
    requires forall p: Path :: Shape(Look(a, p)) == Shape(Look(b, p))
    ensures a == b
    decreases Nested(a)
  {
    forall k: string
      ensures k in a <==> k in b
      ensures k in a ==> a[k] == b[k]
    {
      assert Shape(Look(a, [k])) == Shape(Look(b, [k]));
      if k in a && k in b && a[k].Nested? {
        forall p: Path
          ensures Shape(Look(a[k].options, p)) == Shape(Look(b[k].options, p))
        {
          if p != [] {
            assert ([k] + p)[1..] == p;
            assert Shape(Look(a, [k] + p)) == Shape(Look(b, [k] + p));
          }
        }
        PathsDetermineTree(a[k].options, b[k].options);
      }
    }
  }

  /** A sight with the contents of a section left out. */
  datatype Outline = Nothing | Under | Setting(scalar: Scalar) | Section

  function Shape(s: Sight): Outline {
    match s
    case Absent => Nothing
    case Blocked => Under
    case At(Leaf(x)) => Setting(x)
    case At(Nested(_)) => Section
  }

  // ---- The algebra of Merge ----

  lemma EqualByEntries(a: Options, b: Options)
    requires forall s :: s in a <==> s in b
    requires forall s :: s in a ==> a[s] == b[s]
    ensures a == b
  {
  }

  lemma MergeEmpty(o: Options)
    ensures Merge(o, map[]) == o
    ensures Merge(map[], o) == o
  {
  }

  /** Every entry of `a` is overridden by `c`, at every level. */
  ghost predicate Absorbed(a: Options, c: Options)
    decreases Nested(a)
  {
    forall k :: k in a ==>
      && k in c
      && (a[k].Nested? && c[k].Nested? ==> Absorbed(a[k].options, c[k].options))
  }

  lemma {:induction false} AbsorbedIffNoEffect(a: Options, c: Options)
    ensures Absorbed(a, c) <==> Merge(a, c) == c
    decreases Nested(a)
  {
    forall k | k in a && k in c && a[k].Nested? && c[k].Nested?
      ensures Absorbed(a[k].options, c[k].options) <==> Merge(a, c)[k] == c[k]
    {
      AbsorbedIffNoEffect(a[k].options, c[k].options);
    }
    var m := Merge(a, c);
    if Absorbed(a, c) {
      assert forall k :: k in m ==> k in c && m[k] == c[k];
      assert m == c;
    } else {
      var k :| k in a && !(k in c && (a[k].Nested? && c[k].Nested? ==> Absorbed(a[k].options, c[k].options)));
      assert k in m && (k !in c || m[k] != c[k]);
    }
  }

  lemma {:induction false} AbsorbedReflexive(o: Options)
    ensures Absorbed(o, o)
    decreases Nested(o)
  {
    forall k | k in o && o[k].Nested? ensures Absorbed(o[k].options, o[k].options) {
      AbsorbedReflexive(o[k].options);
    }
  }

  lemma MergeIdempotent(o: Options)
    ensures Merge(o, o) == o
  {
    AbsorbedReflexive(o);
    AbsorbedIffNoEffect(o, o);
  }

  lemma {:induction false} MergeRepeatedOverride(o: Options, other: Options)
    ensures Merge(Merge(o, other), other) == Merge(o, other)
    decreases Nested(other)
  {
    forall k | k in o && k in other && o[k].Nested? && other[k].Nested?
      ensures Merge(Merge(o, other), other)[k] == Merge(o, other)[k]
    {
      MergeRepeatedOverride(o[k].options, other[k].options);
    }
    forall k | k in other && other[k].Nested? && !(k in o && o[k].Nested?)
      ensures Merge(Merge(o, other), other)[k] == Merge(o, other)[k]
    {
      MergeIdempotent(other[k].options);
    }
    var once, twice := Merge(o, other), Merge(Merge(o, other), other);
    assert forall k :: k in once ==> twice[k] == once[k];
    assert twice == once;
  }

  /**
   * When the three trees may be merged in either grouping. The only obstacle is a key that is
   * nested in the first, scalar in the second and nested in the third: one grouping forgets
   * the first section and the other does not, so the third must override all of the first.
   */
  ghost predicate Associates(a: Options, b: Options, c: Options)
    decreases Nested(c), 1
  {
    forall k :: k in c ==> AssociatesAt(a, b, c, k)
  }

  ghost predicate AssociatesAt(a: Options, b: Options, c: Options, k: string)
    requires k in c
    decreases Nested(c), 0
  {
    k in a && k in b && a[k].Nested? && c[k].Nested? ==>
      match b[k]
      case Leaf(_) => Absorbed(a[k].options, c[k].options)
      case Nested(m) => Associates(a[k].options, m, c[k].options)
  }

  lemma {:induction false} MergeAssociativeIff(a: Options, b: Options, c: Options)
    ensures Associates(a, b, c) <==> Merge(Merge(a, b), c) == Merge(a, Merge(b, c))
    decreases Nested(c), 1
  {
    hide Merge, AssociatesAt;
    var left, right := Merge(Merge(a, b), c), Merge(a, Merge(b, c));
    MergedKeys(a, b);
    MergedKeys(b, c);
    MergedKeys(Merge(a, b), c);
    MergedKeys(a, Merge(b, c));
    forall k | k in left
      ensures left[k] == right[k] <==> (k in c ==> AssociatesAt(a, b, c, k))
    {
      AssociativeAtIff(a, b, c, k);
    }
    if Associates(a, b, c) {
      EqualByEntries(left, right);
    }
  }

  lemma MergedKeys(o: Options, other: Options)
    ensures Merge(o, other).Keys == o.Keys + other.Keys
  {
  }

  lemma {:induction false} AssociativeAtIff(a: Options, b: Options, c: Options, k: string)
    requires k in a || k in b || k in c
    ensures Merge(Merge(a, b), c)[k] == Merge(a, Merge(b, c))[k] <==> (k in c ==> AssociatesAt(a, b, c, k))
    decreases Nested(c), 0
  {
    if k in a && k in b && k in c && a[k].Nested? && c[k].Nested? {
      if b[k].Leaf? {
        AbsorbedIffNoEffect(a[k].options, c[k].options);
      } else {
        MergeAssociativeIff(a[k].options, b[k].options, c[k].options);
      }
    }
  }

  /** Merge is not associative on all trees. */
  lemma MergeNotAssociative() returns (a: Options, b: Options, c: Options)
    ensures Merge(Merge(a, b), c) != Merge(a, Merge(b, c))
  {
    var x: Options := map["x" := Leaf(Null)];
    a, b, c := map["k" := Nested(x)], map["k" := Leaf(Null)], map["k" := Nested(map[])];
    assert "x" in x && "x" !in c["k"].options;
    assert !Absorbed(a["k"].options, c["k"].options);
    assert !AssociatesAt(a, b, c, "k");
    MergeAssociativeIff(a, b, c);
  }

  /** When the shallow overlay of `maps.Copy` gives the same tree as a deep Merge. */
  lemma ShallowIsDeepIff(base: Options, over: Options)
    ensures base + over == Merge(base, over) <==>
            forall k :: k in base && k in over && base[k].Nested? && over[k].Nested? ==>
              Absorbed(base[k].options, over[k].options)
  {
    forall k | k in base && k in over && base[k].Nested? && over[k].Nested?
      ensures Absorbed(base[k].options, over[k].options) <==> (base + over)[k] == Merge(base, over)[k]
    {
      AbsorbedIffNoEffect(base[k].options, over[k].options);
    }
    assert (base + over).Keys == Merge(base, over).Keys;
  }
}
