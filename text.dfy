/**
 * String primitives of ECMAScript that the extension relies on:
 * `String.prototype.trim`, ASCII `toLowerCase` / `toUpperCase`,
 * `startsWith`, `endsWith`, `includes`, `split` on one character, and the
 * character classes `\d` and `\w` of regular expressions.
 */
module Text {

  /** ECMAScript WhiteSpace and LineTerminator code points: what `trim` removes. */
  predicate IsSpace(c: char)
  {
    c == '\t' || c == '\n' || c == '\U{B}' || c == '\U{C}' || c == '\r' || c == ' '
    || c == '\U{A0}' || c == '\U{1680}' || ('\U{2000}' <= c <= '\U{200A}')
    || c == '\U{2028}' || c == '\U{2029}' || c == '\U{202F}' || c == '\U{205F}'
    || c == '\U{3000}' || c == '\U{FEFF}'
  }

  function TrimStart(s: string): (r: string)
    ensures |r| <= |s| && r == s[|s| - |r|..]
    ensures forall i :: 0 <= i < |s| - |r| ==> IsSpace(s[i])
    ensures r == [] || !IsSpace(r[0])
  {
    if s != [] && IsSpace(s[0]) then
      var r := TrimStart(s[1..]);
      assert forall i :: 1 <= i < |s| ==> s[i] == s[1..][i - 1];
      r
    else s
  }

  function TrimEnd(s: string): (r: string)
    ensures |r| <= |s| && r == s[..|r|]
    ensures forall i :: |r| <= i < |s| ==> IsSpace(s[i])
    ensures r == [] || !IsSpace(r[|r| - 1])
  {
    if s != [] && IsSpace(s[|s| - 1]) then TrimEnd(s[..|s| - 1]) else s
  }

  /** `s.trim()`. */
  function Trim(s: string): string
  {
    TrimEnd(TrimStart(s))
  }

  /** No white space at either end: what `trim` leaves behind. */
  predicate Trimmed(s: string)
  {
    s == [] || (!IsSpace(s[0]) && !IsSpace(s[|s| - 1]))
  }

  /** `trim` yields a trimmed string. */
  lemma TrimShape(s: string)
    ensures Trimmed(Trim(s))
  {
  }

  /** A trimmed string is its own `trim`, so `trim` is idempotent. */
  lemma TrimOfTrimmed(s: string)
    requires Trimmed(s)
    ensures Trim(s) == s
  {
  }

  lemma TrimIdempotent(s: string)
    ensures Trim(Trim(s)) == Trim(s)
  {
    TrimShape(s);
    TrimOfTrimmed(Trim(s));
  }

  /** `trim()` is empty exactly for strings made of white space only. */
  lemma BlankIffAllSpace(s: string)
    ensures Trim(s) == [] <==> forall i :: 0 <= i < |s| ==> IsSpace(s[i])
  {
    if forall i :: 0 <= i < |s| ==> IsSpace(s[i]) {
      AllSpaceTrimsEmpty(s);
    }
  }

  /** A string that starts with a non-space character does not trim to nothing. */
  lemma TrimStartsWithNonSpace(s: string)
    requires s != [] && !IsSpace(s[0])
    ensures Trim(s) != [] && Trim(s)[0] == s[0]
  {
    assert TrimStart(s) == s;
  }

  lemma {:induction false} AllSpaceTrimsEmpty(s: string)
    requires forall i :: 0 <= i < |s| ==> IsSpace(s[i])
    ensures TrimStart(s) == []
  {
    if s != [] {
      AllSpaceTrimsEmpty(s[1..]);
    }
  }

  predicate IsUpper(c: char) { 'A' <= c <= 'Z' }

  predicate IsLower(c: char) { 'a' <= c <= 'z' }

  /** ASCII case mapping; the hosts and keywords compared here are ASCII. */
  function LowerChar(c: char): (r: char)
    ensures IsUpper(c) ==> IsLower(r)
    ensures !IsUpper(c) ==> r == c
  {
    if IsUpper(c) then (c as int + 32) as char else c
  }

  function UpperChar(c: char): (r: char)
    ensures IsLower(c) ==> IsUpper(r)
    ensures !IsLower(c) ==> r == c
  {
    if IsLower(c) then (c as int - 32) as char else c
  }

  /** `s.toLowerCase()` restricted to ASCII letters. */
  function Lower(s: string): (r: string)
    ensures |r| == |s|
    ensures forall i :: 0 <= i < |s| ==> r[i] == LowerChar(s[i])
  {
    if s == [] then [] else [LowerChar(s[0])] + Lower(s[1..])
  }

  /** `s.toUpperCase()` restricted to ASCII letters. */
  function Upper(s: string): (r: string)
    ensures |r| == |s|
    ensures forall i :: 0 <= i < |s| ==> r[i] == UpperChar(s[i])
  {
    if s == [] then [] else [UpperChar(s[0])] + Upper(s[1..])
  }

  predicate NoUpper(s: string)
  {
    forall i :: 0 <= i < |s| ==> !IsUpper(s[i])
  }

  lemma LowerIdempotent(s: string)
    ensures NoUpper(Lower(s)) && Lower(Lower(s)) == Lower(s)
  {
  }

  lemma LowerOfLower(s: string)
    requires NoUpper(s)
    ensures Lower(s) == s
  {
  }

  lemma LowerConcat(a: string, b: string)
    ensures Lower(a + b) == Lower(a) + Lower(b)
  {
  }

  predicate StartsWith(s: string, p: string)
  {
    |p| <= |s| && s[..|p|] == p
  }

  predicate EndsWith(s: string, p: string)
  {
    |p| <= |s| && s[|s| - |p|..] == p
  }

  /** `s.includes(p)`: whether `p` occurs in `s` at some position at or after `from`. */
  predicate ContainsFrom(s: string, p: string, from: nat)
    decreases |s| - from
  {
    from + |p| <= |s| && (s[from..from + |p|] == p || ContainsFrom(s, p, from + 1))
  }

  predicate Contains(s: string, p: string)
  {
    ContainsFrom(s, p, 0)
  }

  /** `p` occurs in `s` at position `i`. */
  predicate OccursAt(s: string, p: string, i: nat)
  {
    i + |p| <= |s| && s[i..i + |p|] == p
  }

  /** `includes` holds exactly when `p` occurs at some position. */
  lemma {:induction false} ContainsFromIff(s: string, p: string, from: nat)
    ensures ContainsFrom(s, p, from) <==> exists i: nat :: from <= i && OccursAt(s, p, i)
    decreases |s| - from
  {
    if from + |p| <= |s| {
      ContainsFromIff(s, p, from + 1);
      if s[from..from + |p|] == p {
        assert OccursAt(s, p, from);
      } else if exists i: nat :: from <= i && OccursAt(s, p, i) {
        var i: nat :| from <= i && OccursAt(s, p, i);
        assert from + 1 <= i;
      }
    }
  }

  /** What occurs in a string occurs in any string that ends with it. */
  /** A string contains whatever sits in its middle. */
  lemma ContainsMiddle(a: string, p: string, b: string)
    ensures Contains(a + p + b, p)
  {
    assert (a + p + b)[|a|..|a| + |p|] == p;
    assert OccursAt(a + p + b, p, |a|);
    ContainsFromIff(a + p + b, p, 0);
  }

  lemma ContainsAfter(a: string, b: string, p: string)
    requires Contains(b, p)
    ensures Contains(a + b, p)
  {
    ContainsFromIff(b, p, 0);
    var i: nat :| OccursAt(b, p, i);
    assert (a + b)[|a| + i..|a| + i + |p|] == b[i..i + |p|];
    assert OccursAt(a + b, p, |a| + i);
    ContainsFromIff(a + b, p, 0);
  }

  /** `\d`: the ASCII digits, and only them. */
  predicate IsDigit(c: char) { '0' <= c <= '9' }

  /** `\w`: ASCII letters, digits and underscore. */
  predicate IsWordChar(c: char) { IsDigit(c) || IsUpper(c) || IsLower(c) || c == '_' }

  predicate AllDigits(s: string)
  {
    forall i :: 0 <= i < |s| ==> IsDigit(s[i])
  }

  /** The longest prefix of `s` made of digits: what a greedy `\d+` consumes. */
  function DigitRun(s: string): (r: string)
    ensures |r| <= |s|
  {
    if s != [] && IsDigit(s[0]) then [s[0]] + DigitRun(s[1..]) else []
  }

  lemma {:induction false} DigitRunFacts(s: string)
    ensures StartsWith(s, DigitRun(s)) && AllDigits(DigitRun(s))
    ensures |DigitRun(s)| < |s| ==> !IsDigit(s[|DigitRun(s)|])
  {
    if s != [] && IsDigit(s[0]) {
      DigitRunFacts(s[1..]);
    }
  }

  /** A greedy `\d+` is determined by where the digits stop. */
  lemma {:induction false} DigitRunUnique(s: string, r: string)
    requires StartsWith(s, r) && AllDigits(r)
    requires |r| < |s| ==> !IsDigit(s[|r|])
    ensures DigitRun(s) == r
  {
    if r != [] {
      DigitRunUnique(s[1..], r[1..]);
    }
  }

  predicate Avoids(s: string, c: char)
  {
    forall i :: 0 <= i < |s| ==> s[i] != c
  }

  /** A greedy `\d+` never crosses a separator that is not a digit. */
  lemma {:induction false} DigitRunUpto(s: string, c: char)
    requires !IsDigit(c)
    ensures DigitRun(s) == DigitRun(Upto(s, c))
  {
    if s != [] && s[0] != c {
      DigitRunUpto(s[1..], c);
      assert Upto(s, c)[1..] == Upto(s[1..], c);
    }
  }

  /** The longest prefix of `s` without the separator `c`: what `[^/]+` consumes. */
  function Upto(s: string, c: char): (r: string)
    ensures |r| <= |s|
  {
    if s == [] || s[0] == c then [] else [s[0]] + Upto(s[1..], c)
  }

  lemma {:induction false} UptoFacts(s: string, c: char)
    ensures StartsWith(s, Upto(s, c)) && Avoids(Upto(s, c), c)
    ensures |Upto(s, c)| < |s| ==> s[|Upto(s, c)|] == c
  {
    if s != [] && s[0] != c {
      UptoFacts(s[1..], c);
    }
  }

  lemma {:induction false} UptoOf(a: string, c: char, rest: string)
    requires Avoids(a, c)
    requires rest == [] || rest[0] == c
    ensures Upto(a + rest, c) == a
  {
    if a != [] {
      assert (a + rest)[1..] == a[1..] + rest;
      UptoOf(a[1..], c, rest);
    }
  }

  /** `[^/]+` followed by '/' or the end is determined by where it stops. */
  lemma {:induction false} UptoUnique(s: string, c: char, a: string)
    requires StartsWith(s, a) && Avoids(a, c)
    requires |a| < |s| ==> s[|a|] == c
    ensures Upto(s, c) == a
  {
    if a != [] {
      UptoUnique(s[1..], c, a[1..]);
    }
  }

  /** `s.split(c)` for a one-character separator, as ECMAScript defines it. */
  function Split(s: string, c: char): (r: seq<string>)
    ensures |r| >= 1
    decreases |s|
  {
    var head := Upto(s, c);
    if |head| == |s| then [s] else [head] + Split(s[|head| + 1..], c)
  }

  /** A split is the first field, then (after a separator) the split of what follows. */
  lemma SplitFields(s: string, c: char)
    ensures Split(s, c)[0] == Upto(s, c)
    ensures |Upto(s, c)| == |s| ==> Split(s, c) == [s]
    ensures |Upto(s, c)| < |s| ==>
      s[|Upto(s, c)|] == c && Split(s, c) == [Upto(s, c)] + Split(s[|Upto(s, c)| + 1..], c)
  {
    UptoFacts(s, c);
    if |Upto(s, c)| < |s| {
      SplitMore(s, c);
    } else {
      SplitOne(s, c);
    }
  }

  lemma SplitOne(s: string, c: char)
    requires |Upto(s, c)| == |s| && StartsWith(s, Upto(s, c))
    ensures Upto(s, c) == s && Split(s, c) == [s]
  {
    assert Upto(s, c) == s[..|s|] == s;
  }

  lemma SplitMore(s: string, c: char)
    requires |Upto(s, c)| < |s|
    ensures Split(s, c) == [Upto(s, c)] + Split(s[|Upto(s, c)| + 1..], c)
  {
  }

  /** Reading the first field and its separator back from a split with more than one field. */
  lemma FirstField(s: string, c: char)
    requires |Split(s, c)| >= 2
    ensures StartsWith(s, Split(s, c)[0]) && Avoids(Split(s, c)[0], c)
    ensures |Split(s, c)[0]| < |s| && s[|Split(s, c)[0]|] == c
    ensures Split(s[|Split(s, c)[0]| + 1..], c) == Split(s, c)[1..]
  {
    SplitFields(s, c);
    UptoFacts(s, c);
  }

  /** A string of at least two fields is its first field, the separator, and the rest, whose split is the remaining fields. */
  lemma HeadSplit(s: string, c: char)
    requires |Split(s, c)| >= 2
    ensures var h := Split(s, c)[0];
      |h| < |s| && Avoids(h, c) && s == h + [c] + s[|h| + 1..] && Split(s[|h| + 1..], c) == Split(s, c)[1..]
  {
    var h := Split(s, c)[0];
    FirstField(s, c);
    assert s == s[..|h|] + [s[|h|]] + s[|h| + 1..];
  }

  /** The last field read: it is the longest prefix without a separator. */
  lemma LastField(s: string, c: char)
    ensures StartsWith(s, Split(s, c)[0]) && Avoids(Split(s, c)[0], c)
    ensures |Split(s, c)[0]| < |s| ==> s[|Split(s, c)[0]|] == c
  {
    SplitFields(s, c);
    UptoFacts(s, c);
  }

  /** A known first field and its separator, peeled off the front of a split. */
  lemma PeelField(s: string, c: char, a: string)
    requires StartsWith(s, a) && Avoids(a, c) && |a| < |s| && s[|a|] == c
    ensures Split(s, c) == [a] + Split(s[|a| + 1..], c)
  {
    UptoUnique(s, c, a);
    SplitFields(s, c);
  }

  /** A known last field. */
  lemma PeelLast(s: string, c: char, a: string)
    requires StartsWith(s, a) && Avoids(a, c)
    requires |a| < |s| ==> s[|a|] == c
    ensures Split(s, c)[0] == a
  {
    UptoUnique(s, c, a);
    SplitFields(s, c);
  }

  /** Peeling one field off the front of a split. */
  lemma SplitCons(a: string, c: char, b: string)
    requires Avoids(a, c)
    ensures Split(a + [c] + b, c) == [a] + Split(b, c)
  {
    UptoOf(a, c, [c] + b);
    assert a + [c] + b == a + ([c] + b);
    assert (a + [c] + b)[|a| + 1..] == b;
  }

  /** No field of a split holds the separator. */
  lemma {:induction false} SplitAvoids(s: string, c: char)
    ensures forall i :: 0 <= i < |Split(s, c)| ==> Avoids(Split(s, c)[i], c)
    decreases |s|
  {
    SplitFields(s, c);
    UptoFacts(s, c);
    var h := Upto(s, c);
    if |h| < |s| {
      SplitAvoids(s[|h| + 1..], c);
    } else {
      assert h == s;
    }
  }

  lemma SplitSingle(a: string, c: char)
    requires Avoids(a, c)
    ensures Split(a, c) == [a]
  {
    UptoOf(a, c, []);
    assert a + [] == a;
  }

  /** Fields joined by the separator, then the separator and `r`: the inverse of a split. */
  function Join(fs: seq<string>, c: char, r: string): string
  {
    if fs == [] then r else fs[0] + [c] + Join(fs[1..], c, r)
  }

  lemma {:induction false} SplitJoin(fs: seq<string>, c: char, r: string)
    requires forall i :: 0 <= i < |fs| ==> Avoids(fs[i], c)
    ensures Split(Join(fs, c, r), c) == fs + Split(r, c)
  {
    if fs != [] {
      var rest := Join(fs[1..], c, r);
      assert Join(fs, c, r) == fs[0] + [c] + rest;
      assert Avoids(fs[0], c);
      SplitJoin(fs[1..], c, r);
      SplitCons(fs[0], c, rest);
      assert fs == [fs[0]] + fs[1..];
    }
  }

  /** `.filter(Boolean)` on the result of `split`: the non-empty fields. */
  function NonEmpty(ss: seq<string>): (r: seq<string>)
    ensures |r| <= |ss|
    ensures forall i :: 0 <= i < |r| ==> r[i] != [] && r[i] in ss
  {
    if ss == [] then []
    else if ss[0] == [] then NonEmpty(ss[1..])
    else [ss[0]] + NonEmpty(ss[1..])
  }

  /** Decimal rendering of a natural number, as template literals print it. */
  function NatToString(n: nat): (r: string)
    ensures r != [] && AllDigits(r)
  {
    if n < 10 then [('0' as int + n) as char]
    else NatToString(n / 10) + [('0' as int + n % 10) as char]
  }

  /** Decimal rendering of an integer, with a leading minus sign when negative. */
  function IntToString(n: int): (r: string)
    ensures r != []
  {
    if n < 0 then "-" + NatToString(-n) else NatToString(n)
  }
}
