/** Text primitives the advisor relies on: ASCII lower-casing, Python's substring
    test `p in s`, Python's string ordering (used by `sorted`), `"\n".join` with
    its inverse `split`, and `str(n)` for natural numbers. */
module Strings {

  // ---------------------------------------------------------------------------
  // Lower-casing
  // ---------------------------------------------------------------------------

  predicate IsUpper(c: char) {
    'A' <= c <= 'Z'
  }

  function LowerChar(c: char): char {
    if IsUpper(c) then (c as int - 'A' as int + 'a' as int) as char else c
  }

  /** `s.lower()` restricted to ASCII letters: upper-case ASCII letters become their
      lower-case partners and every other character is kept. */
  function Lower(s: string): (r: string)
    ensures |r| == |s|
    ensures forall i :: 0 <= i < |s| && !IsUpper(s[i]) ==> r[i] == s[i]
    ensures forall i :: 0 <= i < |s| && IsUpper(s[i]) ==> r[i] as int == s[i] as int + 32
    ensures forall i :: 0 <= i < |r| ==> !IsUpper(r[i])
  {
    seq(|s|, i requires 0 <= i < |s| => LowerChar(s[i]))
  }

  lemma LowerIdempotent(s: string)
    ensures Lower(Lower(s)) == Lower(s)
  {
  }

  lemma LowerAppend(a: string, b: string)
    ensures Lower(a + b) == Lower(a) + Lower(b)
  {
  }

  /** Lower-casing a joined text lower-cases each piece, when the separator is
      not an upper-case letter. */
  lemma {:induction false} LowerJoin(ws: seq<string>, sep: char)
    requires !IsUpper(sep)
    ensures Lower(Join(ws, sep)) == Join(seq(|ws|, i requires 0 <= i < |ws| => Lower(ws[i])), sep)
  {
    var lw := seq(|ws|, i requires 0 <= i < |ws| => Lower(ws[i]));
    if |ws| > 1 {
      LowerJoin(ws[1..], sep);
      var lt := seq(|ws[1..]|, i requires 0 <= i < |ws[1..]| => Lower(ws[1..][i]));
      assert lt == lw[1..];
      LowerAppend(ws[0] + [sep], Join(ws[1..], sep));
      LowerAppend(ws[0], [sep]);
      assert Lower([sep]) == [sep];
    }
  }

  // ---------------------------------------------------------------------------
  // Substring test
  // ---------------------------------------------------------------------------

  /** `p` occurs in `s` starting at offset `i`. */
  ghost predicate OccursAt(s: string, p: string, i: int) {
    0 <= i && i + |p| <= |s| && s[i..i + |p|] == p
  }

  ghost predicate Occurs(s: string, p: string) {
    exists i :: OccursAt(s, p, i)
  }

  /** A pattern longer than the text cannot occur in it. */
  lemma TooLongToOccur(s: string, p: string)
    requires |s| < |p|
    ensures !Occurs(s, p)
  {
  }

  /** A pattern with a character the text lacks cannot occur in it. */
  lemma MissingChar(s: string, p: string, k: int)
    requires 0 <= k < |p| && p[k] !in s
    ensures !Occurs(s, p)
  {
    forall i | 0 <= i && i + |p| <= |s| ensures !OccursAt(s, p, i) {
      assert s[i..i + |p|][k] == s[i + k];
      assert s[i + k] in s;
    }
  }

  /** A pattern whose first character appears in `s` only where the pattern
      would run past the end cannot occur in it. */
  lemma FirstCharTooLate(s: string, p: string)
    requires p != [] && |p| <= |s| && p[0] !in s[..|s| - |p| + 1]
    ensures !Occurs(s, p)
  {
    forall i | 0 <= i && i + |p| <= |s| ensures !OccursAt(s, p, i) {
      assert s[i..i + |p|][0] == s[i];
      assert s[..|s| - |p| + 1][i] == s[i];
    }
  }

  /** Compares `p[k..]` with the characters of `s` at offset `i + k` onward. */
  function MatchesFrom(s: string, p: string, i: nat, k: nat): (r: bool)
    requires i + |p| <= |s| && k <= |p|
    ensures r <==> s[i + k..i + |p|] == p[k..]
    decreases |p| - k
  {
    if k == |p| then true
    else
      assert s[i + k..i + |p|] == [s[i + k]] + s[i + k + 1..i + |p|];
      assert p[k..] == [p[k]] + p[k + 1..];
      s[i + k] == p[k] && MatchesFrom(s, p, i, k + 1)
  }

  /** Is there an occurrence of `p` in `s` at some offset `i` or later? */
  function ContainsFrom(s: string, p: string, i: nat): (r: bool)
    ensures r <==> exists j :: i <= j && OccursAt(s, p, j)
    decreases |s| - i
  {
    if i + |p| > |s| then false
    else
      assert p[0..] == p;
      var here := MatchesFrom(s, p, i, 0);
      assert here <==> OccursAt(s, p, i);
      var r := here || ContainsFrom(s, p, i + 1);
      assert (exists j :: i <= j && OccursAt(s, p, j)) ==> r by {
        if j :| i <= j && OccursAt(s, p, j) {
          assert j == i || (i + 1 <= j && OccursAt(s, p, j));
        }
      }
      r
  }

  /** Python's `p in s`. */
  function Contains(s: string, p: string): (r: bool)
    ensures r <==> Occurs(s, p)
  {
    ContainsFrom(s, p, 0)
  }

  /** The empty text contains only the empty pattern. */
  lemma ContainsInEmpty(p: string)
    ensures Contains("", p) <==> p == ""
  {
    if p == "" {
      assert OccursAt("", p, 0);
    }
  }

  /** Whatever occurs inside an occurring pattern occurs in the text too. */
  lemma OccursTransitive(s: string, p: string, q: string)
    requires Occurs(s, p) && Occurs(p, q)
    ensures Occurs(s, q)
  {
    var i :| OccursAt(s, p, i);
    var j :| OccursAt(p, q, j);
    forall k | 0 <= k < |q| ensures s[i + j + k] == q[k] {
      assert s[i..i + |p|][j + k] == p[j + k];
    }
    assert s[i + j..i + j + |q|] == q;
    assert OccursAt(s, q, i + j);
  }

  /** A pattern without the separator occurs in `a + [sep] + b` exactly when it
      occurs in `a` or in `b`. */
  lemma OccursAroundSeparator(a: string, sep: char, b: string, p: string)
    requires sep !in p
    ensures Occurs(a + [sep] + b, p) <==> Occurs(a, p) || Occurs(b, p)
  {
    var s := a + [sep] + b;
    if i :| OccursAt(a, p, i) {
      assert s[i..i + |p|] == a[i..i + |p|];
      assert OccursAt(s, p, i);
    }
    if j :| OccursAt(b, p, j) {
      assert s[|a| + 1 + j..|a| + 1 + j + |p|] == b[j..j + |p|];
      assert OccursAt(s, p, |a| + 1 + j);
    }
    if i :| OccursAt(s, p, i) {
      if i + |p| <= |a| {
        assert a[i..i + |p|] == s[i..i + |p|];
        assert OccursAt(a, p, i);
      } else if i >= |a| + 1 {
        assert b[i - |a| - 1..i - |a| - 1 + |p|] == s[i..i + |p|];
        assert OccursAt(b, p, i - |a| - 1);
      } else {
        OccursAtChar(s, p, i, |a|);
        assert false;
      }
    }
  }

  /** Inside an occurrence, the text and the pattern agree character by character. */
  lemma OccursAtChar(s: string, p: string, i: int, k: int)
    requires OccursAt(s, p, i) && i <= k < i + |p|
    ensures p[k - i] == s[k]
  {
    assert s[i..i + |p|][k - i] == s[k];
  }

  /** A pattern without the separator occurs in a joined text exactly when it
      occurs in one of the pieces. */
  lemma {:induction false} OccursInJoin(ws: seq<string>, sep: char, p: string)
    requires p != "" && sep !in p
    ensures Occurs(Join(ws, sep), p) <==> exists i :: 0 <= i < |ws| && Occurs(ws[i], p)
  {
    if |ws| > 1 {
      OccursInJoin(ws[1..], sep, p);
      OccursAroundSeparator(ws[0], sep, Join(ws[1..], sep), p);
      if i :| 1 <= i < |ws| && Occurs(ws[i], p) {
        assert ws[1..][i - 1] == ws[i];
      }
      if i :| 0 <= i < |ws[1..]| && Occurs(ws[1..][i], p) {
        assert ws[i + 1] == ws[1..][i];
      }
    }
  }

  // ---------------------------------------------------------------------------
  // Python's string ordering: lexicographic by code point, a proper prefix first
  // ---------------------------------------------------------------------------

  predicate Less(a: string, b: string) {
    if a == [] then b != []
    else b != [] && (a[0] < b[0] || (a[0] == b[0] && Less(a[1..], b[1..])))
  }

  lemma {:induction false} LessIrreflexive(a: string)
    ensures !Less(a, a)
  {
    if a != [] {
      LessIrreflexive(a[1..]);
    }
  }

  lemma {:induction false} LessTransitive(a: string, b: string, c: string)
    requires Less(a, b) && Less(b, c)
    ensures Less(a, c)
  {
    if a != [] && a[0] == b[0] && b[0] == c[0] {
      LessTransitive(a[1..], b[1..], c[1..]);
    }
  }

  lemma {:induction false} LessTotal(a: string, b: string)
    ensures a == b || Less(a, b) || Less(b, a)
  {
    if a != [] && b != [] && a[0] == b[0] {
      LessTotal(a[1..], b[1..]);
      if a[1..] == b[1..] {
        assert a == [a[0]] + a[1..] && b == [b[0]] + b[1..];
      }
    }
  }

  lemma {:induction false} LessAsymmetric(a: string, b: string)
    requires Less(a, b)
    ensures !Less(b, a)
  {
    if Less(b, a) {
      LessTransitive(a, b, a);
      LessIrreflexive(a);
    }
  }

  // ---------------------------------------------------------------------------
  // `sep.join(lines)` and its inverse `s.split(sep)`
  // ---------------------------------------------------------------------------

  function Join(lines: seq<string>, sep: char): string {
    if |lines| == 0 then ""
    else if |lines| == 1 then lines[0]
    else lines[0] + [sep] + Join(lines[1..], sep)
  }

  /** Python's `s.split(sep)` for a one-character separator: the pieces between
      separators, never containing one, and always at least one piece. */
  function Split(s: string, sep: char): (parts: seq<string>)
    ensures |parts| >= 1
    ensures forall i :: 0 <= i < |parts| ==> sep !in parts[i]
    decreases |s|
  {
    if s == [] then [""]
    else
      var rest := Split(s[1..], sep);
      if s[0] == sep then [""] + rest
      else [[s[0]] + rest[0]] + rest[1..]
  }

  lemma {:induction false} SplitWithoutSeparator(a: string, sep: char)
    requires sep !in a
    ensures Split(a, sep) == [a]
  {
    if a != [] {
      SplitWithoutSeparator(a[1..], sep);
      assert a == [a[0]] + a[1..];
    }
  }

  lemma {:induction false} SplitAtFirstSeparator(a: string, sep: char, b: string)
    requires sep !in a
    ensures Split(a + [sep] + b, sep) == [a] + Split(b, sep)
  {
    if a == [] {
      assert a + [sep] + b == [sep] + b;
      assert ([sep] + b)[1..] == b;
    } else {
      assert (a + [sep] + b)[1..] == a[1..] + [sep] + b;
      SplitAtFirstSeparator(a[1..], sep, b);
      assert a == [a[0]] + a[1..];
    }
  }

  /** Splitting a join of separator-free lines gives the lines back. */
  lemma {:induction false} SplitJoin(lines: seq<string>, sep: char)
    requires |lines| >= 1
    requires forall i :: 0 <= i < |lines| ==> sep !in lines[i]
    ensures Split(Join(lines, sep), sep) == lines
  {
    if |lines| == 1 {
      SplitWithoutSeparator(lines[0], sep);
    } else {
      SplitJoin(lines[1..], sep);
      SplitAtFirstSeparator(lines[0], sep, Join(lines[1..], sep));
      assert lines == [lines[0]] + lines[1..];
    }
  }

  lemma JoinFirstChar(c: char, x: string, ys: seq<string>, sep: char)
    ensures Join([[c] + x] + ys, sep) == [c] + Join([x] + ys, sep)
  {
    assert ([[c] + x] + ys)[1..] == ys;
    assert ([x] + ys)[1..] == ys;
  }

  /** Joining the pieces of a split gives the text back. */
  lemma {:induction false} JoinSplit(s: string, sep: char)
    ensures Join(Split(s, sep), sep) == s
  {
    if s != [] {
      var rest := Split(s[1..], sep);
      JoinSplit(s[1..], sep);
      if s[0] == sep {
        assert ([""] + rest)[1..] == rest;
        assert s == [sep] + s[1..];
      } else {
        assert rest == [rest[0]] + rest[1..];
        JoinFirstChar(s[0], rest[0], rest[1..], sep);
        assert s == [s[0]] + s[1..];
      }
    }
  }

  // ---------------------------------------------------------------------------
  // `str(n)` for natural numbers
  // ---------------------------------------------------------------------------

  predicate IsDigit(c: char) {
    '0' <= c <= '9'
  }

  function DigitChar(d: nat): char
    requires d < 10
  {
    ('0' as int + d) as char
  }

  /** Python's `str(n)`: decimal digits without leading zeros. */
  function Decimal(n: nat): (r: string)
    ensures |r| >= 1
    ensures forall i :: 0 <= i < |r| ==> IsDigit(r[i])
    ensures r[0] != '0' || n == 0
  {
    if n < 10 then [DigitChar(n)] else Decimal(n / 10) + [DigitChar(n % 10)]
  }

  function ParseDecimal(s: string): nat
    requires forall i :: 0 <= i < |s| ==> IsDigit(s[i])
  {
    if s == [] then 0
    else
      assert IsDigit(s[|s| - 1]);
      10 * ParseDecimal(s[..|s| - 1]) + (s[|s| - 1] as int - '0' as int)
  }

  lemma {:induction false} ParseDecimalInverse(n: nat)
    ensures ParseDecimal(Decimal(n)) == n
  {
    if n >= 10 {
      ParseDecimalInverse(n / 10);
      var r := Decimal(n);
      assert r[..|r| - 1] == Decimal(n / 10);
    }
  }
}
