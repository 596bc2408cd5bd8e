/**
 * How an option key is compared with the keys of a schema (pkg/suites/options.go,
 * `canonicalizeKeys`): surrounding blanks trimmed, everything but ASCII letters and digits
 * removed, and the rest compared in lower case.
 */
module Keys {

  // The characters that Go's strings.TrimSpace removes.
  predicate IsSpace(c: char) {
    || '\t' <= c <= '\r'
    || c == ' '
    || c == '\U{85}'
    || c == '\U{A0}'
    || c == '\U{1680}'
    || '\U{2000}' <= c <= '\U{200A}'
    || c == '\U{2028}'
    || c == '\U{2029}'
    || c == '\U{202F}'
    || c == '\U{205F}'
    || c == '\U{3000}'
  }

  predicate IsAlphaNumeric(c: char) {
    'a' <= c <= 'z' || 'A' <= c <= 'Z' || '0' <= c <= '9'
  }

  function LowerChar(c: char): char {
    if 'A' <= c <= 'Z' then (c as int + 32) as char else c
  }

  function TrimSpace(s: string): string {
    if s != [] && IsSpace(s[0]) then TrimSpace(s[1..])
    else if s != [] && IsSpace(s[|s| - 1]) then TrimSpace(s[..|s| - 1])
    else s
  }

  /** `[^a-zA-Z0-9]+` replaced by nothing. */
  function KeepAlphaNumeric(s: string): string {
    if s == [] then []
    else (if IsAlphaNumeric(s[0]) then [s[0]] else []) + KeepAlphaNumeric(s[1..])
  }

  /** strings.ToLower, on ASCII text; the keys of every schema in the repository are ASCII. */
  function Lower(s: string): (lowered: string)
    ensures |lowered| == |s|
    ensures forall i :: 0 <= i < |s| ==> lowered[i] == LowerChar(s[i])
  {
    seq(|s|, i requires 0 <= i < |s| => LowerChar(s[i]))
  }

  predicate Blank(key: string) {
    TrimSpace(key) == []
  }

  function Fold(key: string): string {
    Lower(KeepAlphaNumeric(TrimSpace(key)))
  }

  // ---- What the normalisation ignores ----

  lemma {:induction false} KeepConcat(a: string, b: string)
    ensures KeepAlphaNumeric(a + b) == KeepAlphaNumeric(a) + KeepAlphaNumeric(b)
    decreases |a|
  {
    hide IsAlphaNumeric, TrimSpace, Lower;
    if a == [] {
      assert a + b == b;
    } else {
      KeepConcat(a[1..], b);
      var head := if IsAlphaNumeric(a[0]) then [a[0]] else [];
      KeepHead(a);
      KeepHead(a + b);
      assert (a + b)[0] == a[0] && (a + b)[1..] == a[1..] + b;
      Associate(head, KeepAlphaNumeric(a[1..]), KeepAlphaNumeric(b));
    }
  }

  lemma KeepHead(s: string)
    requires s != []
    ensures KeepAlphaNumeric(s) == (if IsAlphaNumeric(s[0]) then [s[0]] else []) + KeepAlphaNumeric(s[1..])
  {
  }

  lemma Associate<T>(a: seq<T>, b: seq<T>, c: seq<T>)
    ensures a + (b + c) == (a + b) + c
  {
  }

  lemma {:induction false} KeepNothing(s: string)
    requires forall i :: 0 <= i < |s| ==> !IsAlphaNumeric(s[i])
    ensures KeepAlphaNumeric(s) == []
  {
    if s != [] {
      KeepNothing(s[1..]);
    }
  }

  lemma {:induction false} KeepAll(s: string)
    requires forall i :: 0 <= i < |s| ==> IsAlphaNumeric(s[i])
    ensures KeepAlphaNumeric(s) == s
  {
    if s != [] {
      KeepAll(s[1..]);
    }
  }

  lemma {:induction false} KeptIsAlphaNumeric(s: string)
    ensures forall i :: 0 <= i < |KeepAlphaNumeric(s)| ==> IsAlphaNumeric(KeepAlphaNumeric(s)[i])
  {
    if s != [] {
      KeptIsAlphaNumeric(s[1..]);
    }
  }

  /** Trimming first changes nothing for a letter or a digit, so `Fold` ignores it. */
  lemma {:induction false} KeepIgnoresTrim(s: string)
    ensures KeepAlphaNumeric(TrimSpace(s)) == KeepAlphaNumeric(s)
    decreases |s|
  {
    if s != [] && IsSpace(s[0]) {
      KeepIgnoresTrim(s[1..]);
    } else if s != [] && IsSpace(s[|s| - 1]) {
      var front, last := s[..|s| - 1], s[|s| - 1..];
      assert s == front + last;
      KeepConcat(front, last);
      KeepNothing(last);
      KeepIgnoresTrim(front);
    }
  }

  // All white space of Unicode, as `unicode.IsSpace` lists it.
  const WHITE_SPACE: set<char> := {
    '\t', '\n', '\U{B}', '\U{C}', '\r', ' ', '\U{85}', '\U{A0}', '\U{1680}',
    '\U{2000}', '\U{2001}', '\U{2002}', '\U{2003}', '\U{2004}', '\U{2005}',
    '\U{2006}', '\U{2007}', '\U{2008}', '\U{2009}', '\U{200A}',
    '\U{2028}', '\U{2029}', '\U{202F}', '\U{205F}', '\U{3000}'}

  lemma SpaceIff(c: char)
    ensures IsSpace(c) <==> c in WHITE_SPACE
  {
  }

  lemma BlankIffAllSpace(key: string)
    ensures Blank(key) <==> forall i :: 0 <= i < |key| ==> key[i] in WHITE_SPACE
  {
    BlankIff(key);
    forall i | 0 <= i < |key| ensures IsSpace(key[i]) <==> key[i] in WHITE_SPACE {
      SpaceIff(key[i]);
    }
  }

  lemma {:induction false} BlankIff(key: string)
    ensures Blank(key) <==> forall i :: 0 <= i < |key| ==> IsSpace(key[i])
    decreases |key|
  {
    if key != [] && IsSpace(key[0]) {
      BlankIff(key[1..]);
      assert forall i :: 0 < i < |key| ==> key[i] == key[1..][i - 1];
    } else if key != [] && IsSpace(key[|key| - 1]) {
      assert !IsSpace(key[0]) && key[..|key| - 1][0] == key[0];
      BlankIff(key[..|key| - 1]);
    }
  }

  /** Two keys that differ only in a run of separators (or in outer blanks) fold alike. */
  lemma FoldIgnoresSeparators(left: string, separators: string, right: string)
    requires forall i :: 0 <= i < |separators| ==>
      !('a' <= separators[i] <= 'z') && !('A' <= separators[i] <= 'Z') && !('0' <= separators[i] <= '9')
    ensures Fold(left + separators + right) == Fold(left + right)
  {
    hide TrimSpace, KeepAlphaNumeric, Lower;
    KeepIgnoresTrim(left + separators + right);
    KeepIgnoresTrim(left + right);
    KeepConcat(left + separators, right);
    KeepConcat(left, separators);
    KeepConcat(left, right);
    KeepNothing(separators);
  }

  /** A key of letters and digits is looked up as it is, but for A to Z, which become a to z. */
  lemma FoldKeepsLettersAndDigits(key: string)
    requires forall i :: 0 <= i < |key| ==>
      'a' <= key[i] <= 'z' || 'A' <= key[i] <= 'Z' || '0' <= key[i] <= '9'
    ensures |Fold(key)| == |key|
    ensures forall i :: 0 <= i < |key| ==>
      Fold(key)[i] == if 'A' <= key[i] <= 'Z' then ('a' as int + key[i] as int - 'A' as int) as char else key[i]
  {
    KeepIgnoresTrim(key);
    KeepAll(key);
  }

  /** The keys of a schema are compared in lower case, every other character kept. */
  lemma LowerIs(s: string)
    ensures |Lower(s)| == |s|
    ensures forall i :: 0 <= i < |s| ==>
      Lower(s)[i] == if 'A' <= s[i] <= 'Z' then ('a' as int + s[i] as int - 'A' as int) as char else s[i]
  {
  }

  lemma {:induction false} KeepIgnoresCase(a: string, b: string)
    requires Lower(a) == Lower(b)
    ensures Lower(KeepAlphaNumeric(a)) == Lower(KeepAlphaNumeric(b))
    decreases |a|
  {
    assert |a| == |Lower(a)| == |b|;
    if a != [] {
      assert Lower(a)[0] == Lower(b)[0];
      assert forall i :: 0 <= i < |a| - 1 ==>
        Lower(a[1..])[i] == Lower(a)[i + 1] && Lower(b[1..])[i] == Lower(b)[i + 1];
      assert Lower(a[1..]) == Lower(b[1..]);
      KeepIgnoresCase(a[1..], b[1..]);
      LowerConcat(if IsAlphaNumeric(a[0]) then [a[0]] else [], KeepAlphaNumeric(a[1..]));
      LowerConcat(if IsAlphaNumeric(b[0]) then [b[0]] else [], KeepAlphaNumeric(b[1..]));
      assert LowerChar(a[0]) == LowerChar(b[0]);
      assert Lower([a[0]]) == Lower([b[0]]);
    }
  }

  lemma LowerConcat(a: string, b: string)
    ensures Lower(a + b) == Lower(a) + Lower(b)
  {
  }

  /** Two keys that differ only in case fold alike. */
  lemma FoldIgnoresCase(a: string, b: string)
    requires Lower(a) == Lower(b)
    ensures Fold(a) == Fold(b)
  {
    KeepIgnoresTrim(a);
    KeepIgnoresTrim(b);
    KeepIgnoresCase(a, b);
  }

  /** A schema key that some user key folds to holds letters and digits only. */
  lemma FoldTargetIsPlain(schemaKey: string, key: string)
    requires Lower(schemaKey) == Fold(key)
    ensures Fold(schemaKey) == Lower(schemaKey)
    ensures Blank(schemaKey) <==> schemaKey == []
  {
    KeptIsAlphaNumeric(TrimSpace(key));
    forall i | 0 <= i < |schemaKey| ensures IsAlphaNumeric(schemaKey[i]) {
      assert Lower(schemaKey)[i] == LowerChar(schemaKey[i]);
      assert |Lower(schemaKey)| == |KeepAlphaNumeric(TrimSpace(key))|;
      assert Fold(key)[i] == LowerChar(KeepAlphaNumeric(TrimSpace(key))[i]);
    }
    KeepAll(schemaKey);
    KeepIgnoresTrim(schemaKey);
    BlankIff(schemaKey);
  }
}
