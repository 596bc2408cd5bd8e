/** The suite registry (pkg/suites/registry.go). */
module Registry {
  import opened Wrappers
  import opened OptionTree

  /** What the registry and the run command read of a suite. */
  datatype Suite = Suite(name: string, exclusive: bool, schema: Options)

  datatype FindError =
    | SuitesNotFound(names: seq<string>)
    | ExclusiveConflict

  // ---- Specification ----

  /** First occurrences, in order. */
  function Dedup(names: seq<string>): seq<string> {
    if names == [] then []
    else
      var front := Dedup(names[..|names| - 1]);
      if names[|names| - 1] in front then front else front + [names[|names| - 1]]
  }

  function Missing(names: seq<string>, known: set<string>): seq<string> {
    if names == [] then []
    else
      var front := Missing(names[..|names| - 1], known);
      if names[|names| - 1] in known then front else front + [names[|names| - 1]]
  }

  function Names(suites: seq<Suite>): (names: seq<string>)
    ensures |names| == |suites|
    ensures forall i :: 0 <= i < |suites| ==> names[i] == suites[i].name
  {
    seq(|suites|, i requires 0 <= i < |suites| => suites[i].name)
  }

  ghost predicate Distinct<T(!new)>(xs: seq<T>) {
    forall i, j :: 0 <= i < j < |xs| ==> xs[i] != xs[j]
  }

  ghost predicate FirstAt(names: seq<string>, name: string, i: nat) {
    i < |names| && names[i] == name && name !in names[..i]
  }

  /** `Dedup` keeps each name once, and the names in the order of their first occurrences. */
  lemma {:induction false} DedupKeepsFirsts(names: seq<string>)
    ensures Distinct(Dedup(names))
    ensures forall name :: name in Dedup(names) <==> name in names
    ensures forall i, j, x, y ::
              && 0 <= x < y < |Dedup(names)|
              && FirstAt(names, Dedup(names)[x], i)
              && FirstAt(names, Dedup(names)[y], j)
              ==> i < j
  {
    if names != [] {
      var front, last := names[..|names| - 1], names[|names| - 1];
      DedupKeepsFirsts(front);
      assert names == front + [last];
      var d := Dedup(names);
      forall i, j, x, y | 0 <= x < y < |d| && FirstAt(names, d[x], i) && FirstAt(names, d[y], j) ensures i < j {
        FirstInFront(names, d[x], i);
        FirstInFront(names, d[y], j);
      }
    }
  }

  lemma FirstInFront(names: seq<string>, name: string, i: nat)
    requires names != [] && FirstAt(names, name, i)
    ensures var front := names[..|names| - 1];
            if name in front then FirstAt(front, name, i) else i == |names| - 1
  {
    var front := names[..|names| - 1];
    if i < |front| {
      assert front[..i] == names[..i] && front[i] == name;
    } else {
      assert names[..i] == front;
    }
  }

  lemma {:induction false} NoneMissingIff(names: seq<string>, known: set<string>)
    ensures Missing(names, known) == [] <==> forall name :: name in names ==> name in known
  {
    if names != [] {
      var front, last := names[..|names| - 1], names[|names| - 1];
      NoneMissingIff(front, known);
      assert names == front + [last];
      assert forall name :: name in names <==> name in front || name == last;
    }
  }

  /** The names reported missing are those not registered, each as often as it was given. */
  lemma {:induction false} MissingAre(names: seq<string>, known: set<string>, name: string)
    ensures multiset(Missing(names, known))[name] == if name in known then 0 else multiset(names)[name]
  {
    if names != [] {
      MissingAre(names[..|names| - 1], known, name);
      assert names == names[..|names| - 1] + [names[|names| - 1]];
    }
  }

  // The byte order of Go strings, on the characters of the model.
  predicate StringLess(a: string, b: string) {
    b != [] && (a == [] || a[0] < b[0] || (a[0] == b[0] && StringLess(a[1..], b[1..])))
  }

  lemma {:induction false} StringLessTransitive(a: string, b: string, c: string)
    requires StringLess(a, b) && StringLess(b, c)
    ensures StringLess(a, c)
  {
    if a != [] && a[0] == b[0] == c[0] {
      StringLessTransitive(a[1..], b[1..], c[1..]);
    }
  }

  lemma {:induction false} StringLessTotal(a: string, b: string)
    ensures StringLess(a, b) || a == b || StringLess(b, a)
  {
    if a != [] && b != [] && a[0] == b[0] {
      StringLessTotal(a[1..], b[1..]);
      assert a == [a[0]] + a[1..] && b == [b[0]] + b[1..];
    }
  }

  /** The order: a proper prefix comes first, and otherwise the first characters that differ decide. */
  lemma {:induction false} StringLessIff(a: string, b: string)
    ensures StringLess(a, b) <==>
            exists i :: 0 <= i <= |a| && i < |b| && a[..i] == b[..i] && (i == |a| || a[i] < b[i])
    decreases |a|
  {
    if a != [] && b != [] && a[0] == b[0] {
      var x, y := a[1..], b[1..];
      StringLessIff(x, y);
      if i :| 0 <= i <= |x| && i < |y| && x[..i] == y[..i] && (i == |x| || x[i] < y[i]) {
        assert a[..i + 1] == [a[0]] + x[..i] && b[..i + 1] == [b[0]] + y[..i];
      }
      if i :| 0 <= i <= |a| && i < |b| && a[..i] == b[..i] && (i == |a| || a[i] < b[i]) {
        assert x[..i - 1] == a[..i][1..] && y[..i - 1] == b[..i][1..];
      }
    } else if b != [] {
      assert a[..0] == b[..0];
      forall i | 0 < i <= |a| && i < |b| && a != [] ensures a[..i] != b[..i] {
        assert a[..i][0] == a[0] && b[..i][0] == b[0];
      }
    }
  }

  ghost predicate Ascending(names: seq<string>) {
    forall i, j :: 0 <= i < j < |names| ==> StringLess(names[i], names[j])
  }

  /** Insertion into an ascending sequence; `sort.Strings` stands for a fold of it. */
  method InsertSorted(names: seq<string>, name: string) returns (sorted: seq<string>)
    requires Ascending(names) && name !in names
    ensures Ascending(sorted)
    ensures forall n :: n in sorted <==> n in names || n == name
  {
    var i := 0;
    while i < |names| && StringLess(names[i], name)
      invariant 0 <= i <= |names|
      invariant forall j :: 0 <= j < i ==> StringLess(names[j], name)
    {
      i := i + 1;
    }
    if i < |names| {
      StringLessTotal(names[i], name);
      forall j | i < j < |names| ensures StringLess(name, names[j]) {
        StringLessTransitive(name, names[i], names[j]);
      }
    }
    sorted := names[..i] + [name] + names[i..];
  }

  /** Every name is registered, and at most one distinct suite is named or none is exclusive. */
  ghost predicate Selectable(suites: map<string, Suite>, names: seq<string>) {
    && (forall name :: name in names ==> name in suites)
    && (|Dedup(names)| <= 1 || forall name :: name in names ==> !suites[name].exclusive)
  }

  /** Names can be selected together exactly if all are registered and no exclusive one is given with another. */
  lemma SelectableIff(suites: map<string, Suite>, names: seq<string>)
    ensures Selectable(suites, names) <==>
            && (forall name :: name in names ==> name in suites)
            && (forall a, b :: a in names && b in names && a != b ==> !suites[a].exclusive && !suites[b].exclusive)
  {
    hide Dedup;
    if |Dedup(names)| <= 1 {
      OneName(names);
    } else {
      forall name | name in names ensures exists other :: other in names && other != name {
        var other := AnotherName(names, name);
      }
    }
  }

  lemma OneName(names: seq<string>)
    requires |Dedup(names)| <= 1
    ensures forall a, b :: a in names && b in names ==> a == b
  {
    hide Dedup;
    DedupKeepsFirsts(names);
    forall a, b | a in names && b in names ensures a == b {
      assert a in Dedup(names) && b in Dedup(names);
    }
  }

  lemma AnotherName(names: seq<string>, name: string) returns (other: string)
    requires |Dedup(names)| > 1
    ensures other in names && other != name
  {
    hide Dedup;
    DedupKeepsFirsts(names);
    var d := Dedup(names);
    assert d[0] in d && d[1] in d;
    other := if d[0] == name then d[1] else d[0];
  }

  class SuiteRegistry {
    var suites: map<string, Suite>

    ghost predicate Valid()
      reads this
    {
      forall n :: n in suites ==> suites[n].name == n
    }

    constructor ()
      ensures Valid() && suites == map[]
    {
      suites := map[];
    }

    /** A suite of the same name is replaced. */
    method Register(suite: Suite)
      requires Valid()
      modifies this
      ensures Valid() && suites == old(suites)[suite.name := suite]
    {
      suites := suites[suite.name := suite];
    }

    /** All suites, ascending by name. */
    method All() returns (all: seq<Suite>)
      requires Valid()
      ensures Ascending(Names(all))
      ensures forall s :: s in all <==> s in suites.Values
    {
      var sortedKey: seq<string> := [];
      var rest := suites.Keys;
      while rest != {}
        invariant rest <= suites.Keys && Ascending(sortedKey)
        invariant forall n :: n in sortedKey <==> n in suites.Keys - rest
        decreases rest
      {
        var n :| n in rest;
        rest := rest - {n};
        sortedKey := InsertSorted(sortedKey, suites[n].name);
      }
      all := [];
      for i := 0 to |sortedKey|
        invariant |all| == i
        invariant forall j :: 0 <= j < i ==> sortedKey[j] in suites && all[j] == suites[sortedKey[j]]
      {
        assert sortedKey[i] in sortedKey;
        all := all + [suites[sortedKey[i]]];
      }
      assert forall j :: 0 <= j < |all| ==> Names(all)[j] == sortedKey[j];
      forall s | s in suites.Values ensures s in all {
        var n :| n in suites && suites[n] == s;
        assert n in sortedKey;
        var j :| 0 <= j < |sortedKey| && sortedKey[j] == n;
        assert all[j] == s;
      }
    }

    /** The suites selected by name: the names in order of first occurrence, or why not. */
    method Find(names: seq<string>) returns (r: Result<seq<Suite>, FindError>)
      requires Valid()
      ensures r.Ok? <==> Selectable(suites, names)
      ensures r.Ok? ==> Selection(suites, names, r.value)
      ensures r.Err? ==>
        var missing := Missing(names, suites.Keys);
        r.error == if missing != [] then SuitesNotFound(missing) else ExclusiveConflict
    {
      var found: seq<Suite>, exclusiveCount: nat, missing: seq<string> := [], 0, [];
      for i := 0 to |names|
        invariant missing == Missing(names[..i], suites.Keys)
        invariant forall s :: s in found ==> s.name in suites && suites[s.name] == s
        invariant forall s :: s in found ==> s.name in names
        invariant missing == [] ==> Names(found) == Dedup(names[..i])
        invariant exclusiveCount > 0 <==> exists s :: s in found && s.exclusive
      {
        assert names[..i + 1][..i] == names[..i];
        var name := names[i];
        if name in suites {
          var s := suites[name];
          assert s in found <==> name in Names(found) by {
            if name in Names(found) {
              var j :| 0 <= j < |found| && Names(found)[j] == name;
              assert found[j] in found;
            }
            if s in found {
              var j :| 0 <= j < |found| && found[j] == s;
              assert Names(found)[j] == name;
            }
          }
          if s !in found {
            assert Names(found + [s]) == Names(found) + [name];
            found := found + [s];
            if s.exclusive {
              exclusiveCount := exclusiveCount + 1;
            }
          }
        } else {
          missing := missing + [name];
        }
      }
      assert names[..|names|] == names;
      NoneMissingIff(names, suites.Keys);
      DedupKeepsFirsts(names);
      if missing != [] {
        return Err(SuitesNotFound(missing));
      }
      forall name | name in names ensures suites[name] in found {
        var j :| 0 <= j < |found| && Names(found)[j] == name;
        assert found[j] in found;
      }
      if |found| > 1 && exclusiveCount > 0 {
        return Err(ExclusiveConflict);
      }
      return Ok(found);
    }
  }

  /** What `Find` promises about a selection. */
  ghost predicate Selection(suites: map<string, Suite>, names: seq<string>, found: seq<Suite>) {
    && (forall name :: name in names ==> name in suites && suites[name].name == name)
    && Names(found) == Dedup(names)
    && (forall s :: s in found ==> s.name in suites && suites[s.name] == s)
    && (|Dedup(names)| <= 1 || forall name :: name in names ==> !suites[name].exclusive)
  }

  /** An exclusive suite is never selected together with another. */
  lemma ExclusiveRunsAlone(suites: map<string, Suite>, names: seq<string>, found: seq<Suite>, s: Suite)
    requires Selection(suites, names, found)
    requires s in found && s.exclusive
    ensures found == [s]
  {
    DedupKeepsFirsts(names);
    var i :| 0 <= i < |found| && found[i] == s;
    assert Names(found)[i] == s.name && s.name in Dedup(names);
    assert |found| == 1;
  }

  /** A sorted listing is determined by its contents. */
  lemma {:induction false} AscendingUnique(a: seq<string>, b: seq<string>)
    requires Ascending(a) && Ascending(b)
    requires forall n :: n in a <==> n in b
    ensures a == b
  {
    assert a != [] ==> a[0] in a;
    assert b != [] ==> b[0] in b;
    if a != [] && b != [] {
      assert a[0] in b && b[0] in a;
      StringLessIrreflexive(a[0]);
      if a[0] != b[0] {
        var i :| 0 < i < |b| && b[i] == a[0];
        var j :| 0 < j < |a| && a[j] == b[0];
        StringLessTransitive(a[0], b[0], a[0]);
      }
      forall n ensures n in a[1..] <==> n in b[1..] {
        HeadApart(a, n);
        HeadApart(b, n);
      }
      AscendingUnique(a[1..], b[1..]);
      assert a == [a[0]] + a[1..] && b == [b[0]] + b[1..];
    }
  }

  lemma HeadApart(a: seq<string>, n: string)
    requires a != [] && Ascending(a)
    ensures n in a[1..] <==> n in a && n != a[0]
  {
    StringLessIrreflexive(a[0]);
    if n in a && n != a[0] {
      var i :| 0 < i < |a| && a[i] == n;
      assert a[1..][i - 1] == n;
    }
    if n in a[1..] {
      var i :| 0 <= i < |a| - 1 && a[1..][i] == n;
      assert a[i + 1] == n;
    }
  }

  lemma {:induction false} StringLessIrreflexive(a: string)
    ensures !StringLess(a, a)
  {
    if a != [] {
      StringLessIrreflexive(a[1..]);
    }
  }
}
