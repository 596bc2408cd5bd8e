/** The names of the VMIs of a density run (internal/suites/density/density.go). */
module VmiNames {

  /** The decimal digits of `%d`. */
  function Decimal(n: nat): (digits: string)
    ensures digits != []
  {
    if n < 10 then [Digit(n)] else Decimal(n / 10) + [Digit(n % 10)]
  }

  function Digit(d: nat): char
    requires d < 10
  {
    ('0' as int + d) as char
  }

  function ValueOf(digits: string): int {
    if digits == [] then 0
    else 10 * ValueOf(digits[..|digits| - 1]) + (digits[|digits| - 1] as int - '0' as int)
  }

  lemma {:induction false} ValueOfDecimal(n: nat)
    ensures ValueOf(Decimal(n)) == n
    ensures forall i :: 0 <= i < |Decimal(n)| ==> '0' <= Decimal(n)[i] <= '9'
    ensures n > 0 ==> Decimal(n)[0] != '0'
  {
    var d := Decimal(n);
    if n < 10 {
      assert d[..0] == [];
    } else {
      ValueOfDecimal(n / 10);
      assert d[..|d| - 1] == Decimal(n / 10);
    }
  }

  function BatchName(run: string): string {
    run + "-density-vmi"
  }

  function VmiName(run: string, i: nat): string {
    BatchName(run) + "-" + Decimal(i)
  }

  function WarmupName(run: string): string {
    run + "-density-warmup"
  }

  lemma VmiNameIs(run: string, i: nat)
    ensures VmiName(run, i) == run + "-density-vmi-" + Decimal(i)
  {
  }

  lemma NamesDiffer(run: string, i: nat, j: nat)
    requires VmiName(run, i) == VmiName(run, j)
    ensures i == j
  {
    var prefix := BatchName(run) + "-";
    assert VmiName(run, i)[|prefix|..] == Decimal(i);
    assert VmiName(run, j)[|prefix|..] == Decimal(j);
    ValueOfDecimal(i);
    ValueOfDecimal(j);
  }

  lemma WarmupNameDiffers(run: string, i: nat)
    ensures VmiName(run, i) != WarmupName(run)
  {
    assert VmiName(run, i)[|run| + 9] == 'v';
    assert WarmupName(run)[|run| + 9] == 'w';
  }

  /** The names of VMIs 0 to n - 1. */
  ghost function NamesUpTo(run: string, n: nat): set<string> {
    set i | 0 <= i < n :: VmiName(run, i)
  }

  lemma {:induction false} NamesUpToSize(run: string, n: nat)
    ensures |NamesUpTo(run, n)| == n
  {
    if n == 0 {
      assert NamesUpTo(run, 0) == {};
    } else {
      NamesUpToSize(run, n - 1);
      var last := VmiName(run, n - 1);
      if last in NamesUpTo(run, n - 1) {
        var i :| 0 <= i < n - 1 && VmiName(run, i) == last;
        NamesDiffer(run, i, n - 1);
      }
      assert NamesUpTo(run, n) == NamesUpTo(run, n - 1) + {last};
    }
  }

  /** Pigeonhole: n names out of the first n are all of them. */
  lemma AllNamesIfAsMany(run: string, n: nat, s: set<string>)
    requires s <= NamesUpTo(run, n) && |s| == n
    ensures s == NamesUpTo(run, n)
  {
    NamesUpToSize(run, n);
    SameSizeSubset(s, NamesUpTo(run, n));
  }

  lemma SameSizeSubset<T>(a: set<T>, b: set<T>)
    requires a <= b && |a| == |b|
    ensures a == b
  {
    assert b == a + (b - a);
    assert |b| == |a| + |b - a|;
  }
}
