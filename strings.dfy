/**
 * The parts of Python's `str` and `re` that the ranking pipeline relies on, over ASCII:
 * character classes (`\s`, `\w`, `\d`), `lower`/`upper`, `strip`, `split`, `join`,
 * `in` on strings and lexicographic comparison.
 */
module Strings {

  // ---------------------------------------------------------------------------
  // Character classes
  // ---------------------------------------------------------------------------

  /** `\s` and `str.isspace` restricted to ASCII: space, \t \n \v \f \r and \x1c-\x1f. */
  predicate IsSpace(c: char) {
    c == ' ' || (9 <= c as int <= 13) || (28 <= c as int <= 31)
  }

  predicate NotSpace(c: char) { !IsSpace(c) }

  predicate IsDigit(c: char) { '0' <= c <= '9' }

  predicate IsUpperLetter(c: char) { 'A' <= c <= 'Z' }

  predicate IsLowerLetter(c: char) { 'a' <= c <= 'z' }

  predicate IsLetter(c: char) { IsUpperLetter(c) || IsLowerLetter(c) }

  /** `\w` over ASCII: letters, digits and the underscore. */
  predicate IsWordChar(c: char) { IsLetter(c) || IsDigit(c) || c == '_' }

  predicate AllDigits(s: string) {
    forall i :: 0 <= i < |s| ==> IsDigit(s[i])
  }

  // ---------------------------------------------------------------------------
  // Case mapping
  // ---------------------------------------------------------------------------

  function LowerChar(c: char): (r: char)
    ensures IsSpace(r) == IsSpace(c)
    ensures !IsUpperLetter(r)
  {
    if IsUpperLetter(c) then (c as int + 32) as char else c
  }

  function UpperChar(c: char): (r: char)
    ensures IsSpace(r) == IsSpace(c)
    ensures !IsLowerLetter(r)
  {
    if IsLowerLetter(c) then (c as int - 32) as char else c
  }

  /** `str.lower()` on ASCII letters. */
  function Lower(s: string): (r: string)
    ensures |r| == |s|
    ensures forall i :: 0 <= i < |s| ==> r[i] == LowerChar(s[i])
  {
    seq(|s|, i requires 0 <= i < |s| => LowerChar(s[i]))
  }

  /** `str.upper()` on ASCII letters. */
  function Upper(s: string): (r: string)
    ensures |r| == |s|
    ensures forall i :: 0 <= i < |s| ==> r[i] == UpperChar(s[i])
  {
    seq(|s|, i requires 0 <= i < |s| => UpperChar(s[i]))
  }

  /** A string without upper-case letters is its own `lower()`. */
  lemma LowerFixed(s: string)
    requires forall i :: 0 <= i < |s| ==> !IsUpperLetter(s[i])
    ensures Lower(s) == s
  {
  }

  lemma UpperIdempotent(s: string)
    ensures Upper(Upper(s)) == Upper(s)
  {
  }

  lemma LowerIdempotent(s: string)
    ensures Lower(Lower(s)) == Lower(s)
  {
  }

  // ---------------------------------------------------------------------------
  // Stripping
  // ---------------------------------------------------------------------------

  /** Drops the leading characters that satisfy `p`. */
  function TrimLeft(s: string, p: char -> bool): (r: string)
    ensures |r| <= |s| && r == s[|s| - |r|..]
    ensures r == [] || !p(r[0])
    ensures forall i :: 0 <= i < |s| - |r| ==> p(s[i])
    decreases |s|
  {
    if |s| > 0 && p(s[0]) then TrimLeft(s[1..], p) else s
  }

  /** Drops the trailing characters that satisfy `p`. */
  function TrimRight(s: string, p: char -> bool): (r: string)
    ensures |r| <= |s| && r == s[..|r|]
    ensures r == [] || !p(r[|r| - 1])
    ensures forall i :: |r| <= i < |s| ==> p(s[i])
    decreases |s|
  {
    if |s| > 0 && p(s[|s| - 1]) then TrimRight(s[..|s| - 1], p) else s
  }

  /** `str.strip(chars)` with the stripped characters given as a predicate. */
  function StripWhere(s: string, p: char -> bool): (r: string)
    ensures r == [] || (!p(r[0]) && !p(r[|r| - 1]))
  {
    TrimRight(TrimLeft(s, p), p)
  }

  /** `str.strip()` without arguments. */
  function Strip(s: string): (r: string)
    ensures r == [] || (!IsSpace(r[0]) && !IsSpace(r[|r| - 1]))
  {
    StripWhere(s, IsSpace)
  }

  /** `str.strip(chars)` for an explicit set of characters. */
  function StripChars(s: string, chars: set<char>): string {
    StripWhere(s, c => c in chars)
  }

  /** `strip()` keeps a contiguous slice and drops only whitespace around it. */
  lemma StripBounds(s: string) returns (lo: nat)
    ensures lo + |Strip(s)| <= |s| && Strip(s) == s[lo..lo + |Strip(s)|]
    ensures forall j :: 0 <= j < lo ==> IsSpace(s[j])
    ensures forall j :: lo + |Strip(s)| <= j < |s| ==> IsSpace(s[j])
  {
    var t := TrimLeft(s, IsSpace);
    lo := |s| - |t|;
    var r := TrimRight(t, IsSpace);
    assert Strip(s) == r;
    forall j | lo + |r| <= j < |s| ensures IsSpace(s[j]) {
      assert s[j] == t[j - lo];
    }
  }

  /** A string with nothing to strip is its own `strip()`. */
  lemma StripUnchanged(s: string)
    requires s == [] || (!IsSpace(s[0]) && !IsSpace(s[|s| - 1]))
    ensures Strip(s) == s
  {
  }

  lemma StripCharsUnchanged(s: string, chars: set<char>)
    requires s == [] || (s[0] !in chars && s[|s| - 1] !in chars)
    ensures StripChars(s, chars) == s
  {
  }

  /** A leading whitespace character is stripped away. */
  lemma StripAfterSpace(c: char, s: string)
    requires IsSpace(c)
    ensures Strip([c] + s) == Strip(s)
  {
    assert ([c] + s)[1..] == s;
  }

  lemma StripIdempotent(s: string)
    ensures Strip(Strip(s)) == Strip(s)
  {
    StripUnchanged(Strip(s));
  }

  /** Upper-casing a stripped string leaves nothing to strip. */
  lemma UpperOfStripIsStripped(s: string)
    ensures Strip(Upper(Strip(s))) == Upper(Strip(s))
  {
    StripUnchanged(Upper(Strip(s)));
  }

  // ---------------------------------------------------------------------------
  // Filtering (`re.sub("[^class]", "", s)`, `str.replace(c, "")`)
  // ---------------------------------------------------------------------------

  /** The characters of `s` that satisfy `p`, in order. */
  function Keep(s: string, p: char -> bool): (r: string)
    ensures |r| <= |s|
    ensures forall i :: 0 <= i < |r| ==> p(r[i]) && r[i] in s
    decreases |s|
  {
    if s == [] then ""
    else (if p(s[0]) then [s[0]] else "") + Keep(s[1..], p)
  }

  /** Nothing is dropped from a string whose characters all satisfy `p`. */
  lemma {:induction false} KeepAll(s: string, p: char -> bool)
    requires forall i :: 0 <= i < |s| ==> p(s[i])
    ensures Keep(s, p) == s
    decreases |s|
  {
    if s != [] {
      KeepAll(s[1..], p);
      assert [s[0]] + s[1..] == s;
    }
  }

  /** Keeping the letters commutes with `upper()`. */
  lemma {:induction false} KeepLettersUpper(s: string)
    ensures Keep(Upper(s), IsLetter) == Upper(Keep(s, IsLetter))
    decreases |s|
  {
    if s != [] {
      KeepLettersUpper(s[1..]);
      var u := Upper(s);
      var head: string := if IsLetter(s[0]) then [s[0]] else "";
      var rest := Keep(s[1..], IsLetter);
      assert u[1..] == Upper(s[1..]);
      assert IsLetter(u[0]) == IsLetter(s[0]);
      var uhead: string := if IsLetter(u[0]) then [u[0]] else "";
      assert uhead == Upper(head);
      assert Keep(u, IsLetter) == uhead + Keep(u[1..], IsLetter);
      assert Keep(s, IsLetter) == head + rest;
      UpperAppend(head, rest);
    }
  }

  lemma UpperAppend(a: string, b: string)
    ensures Upper(a + b) == Upper(a) + Upper(b)
  {
  }

  /** The first `n` characters of the upper-cased string are the upper-cased first `n`. */
  lemma UpperPrefix(s: string, n: nat)
    requires n <= |s|
    ensures Upper(s)[..n] == Upper(s[..n])
  {
  }

  // ---------------------------------------------------------------------------
  // Joining, splitting, repeating
  // ---------------------------------------------------------------------------

  /** `sep.join(parts)`. */
  function Join(parts: seq<string>, sep: string): string {
    if |parts| == 0 then ""
    else if |parts| == 1 then parts[0]
    else parts[0] + sep + Join(parts[1..], sep)
  }

  /** Every character of a joined string comes from a part or from the separator. */
  lemma {:induction false} JoinAll(parts: seq<string>, sep: string, p: char -> bool)
    requires forall k, i :: 0 <= k < |parts| && 0 <= i < |parts[k]| ==> p(parts[k][i])
    requires forall i :: 0 <= i < |sep| ==> p(sep[i])
    ensures forall i :: 0 <= i < |Join(parts, sep)| ==> p(Join(parts, sep)[i])
    decreases |parts|
  {
    if |parts| > 1 {
      JoinAll(parts[1..], sep, p);
      var head, rest := parts[0], Join(parts[1..], sep);
      forall i | 0 <= i < |head + sep + rest| ensures p((head + sep + rest)[i]) {
        if i >= |head| + |sep| {
          assert (head + sep + rest)[i] == rest[i - |head| - |sep|];
        }
      }
    }
  }

  /** A join of non-empty parts starts with the first part's first character and ends with the last part's last. */
  lemma {:induction false} JoinEnds(parts: seq<string>, sep: string)
    requires |parts| > 0 && forall k :: 0 <= k < |parts| ==> parts[k] != []
    ensures var j := Join(parts, sep);
      |j| > 0 && j[0] == parts[0][0] && j[|j| - 1] == parts[|parts| - 1][|parts[|parts| - 1]| - 1]
    decreases |parts|
  {
    if |parts| > 1 {
      JoinEnds(parts[1..], sep);
    }
  }

  /** Joining non-blank stripped parts leaves nothing to strip, and the result is not blank. */
  lemma JoinStripped(parts: seq<string>, sep: string)
    requires |parts| > 0 && forall k :: 0 <= k < |parts| ==> parts[k] != [] && Strip(parts[k]) == parts[k]
    ensures Join(parts, sep) != [] && Strip(Join(parts, sep)) == Join(parts, sep)
  {
    JoinEnds(parts, sep);
    StripUnchanged(Join(parts, sep));
  }

  /** `[v.strip() for v in values if v.strip()]`: the stripped values that are not blank, in order. */
  function NonBlankStripped(values: seq<string>): (r: seq<string>)
    ensures |r| <= |values|
    ensures forall k :: 0 <= k < |r| ==> r[k] != "" && Strip(r[k]) == r[k]
    decreases |values|
  {
    if values == [] then []
    else
      var v := Strip(values[0]);
      var rest := NonBlankStripped(values[1..]);
      if v == "" then rest
      else
        StripIdempotent(values[0]);
        [v] + rest
  }

  /** There are no parts exactly when every value is blank. */
  lemma {:induction false} NonBlankStrippedEmpty(values: seq<string>)
    ensures NonBlankStripped(values) == [] <==> forall k :: 0 <= k < |values| ==> Strip(values[k]) == ""
    decreases |values|
  {
    if values != [] {
      var rest := values[1..];
      assert NonBlankStripped(rest) == [] <==> forall k :: 0 <= k < |rest| ==> Strip(rest[k]) == "" by {
        NonBlankStrippedEmpty(rest);
      }
      assert (forall k :: 0 <= k < |values| ==> Strip(values[k]) == "")
        <==> Strip(values[0]) == "" && forall k :: 0 <= k < |rest| ==> Strip(rest[k]) == "" by {
        assert forall k :: 1 <= k < |values| ==> values[k] == rest[k - 1];
      }
    }
  }

  /** Values that are all stripped and non-blank are kept as they are. */
  lemma {:induction false} NonBlankStrippedAll(values: seq<string>)
    requires forall v :: v in values ==> v != "" && Strip(v) == v
    ensures NonBlankStripped(values) == values
    decreases |values|
  {
    if values != [] {
      assert NonBlankStripped(values[1..]) == values[1..] by {
        assert forall v :: v in values[1..] ==> v in values;
        NonBlankStrippedAll(values[1..]);
      }
      assert NonBlankStripped(values) == [values[0]] + NonBlankStripped(values[1..]) by {
        assert values[0] in values;
      }
      assert values == [values[0]] + values[1..];
    }
  }

  /** `[s] * n`. */
  function Repeat(s: string, n: nat): (r: seq<string>)
    ensures |r| == n && forall i :: 0 <= i < n ==> r[i] == s
  {
    seq(n, _ => s)
  }

  /** `s.split(sep)` for a one-character separator: always at least one field. */
  function SplitOn(s: string, sep: char): (r: seq<string>)
    ensures |r| >= 1
    ensures forall k :: 0 <= k < |r| ==> sep !in r[k]
    decreases |s|
  {
    if s == [] then [""]
    else if s[0] == sep then [""] + SplitOn(s[1..], sep)
    else
      var rest := SplitOn(s[1..], sep);
      [[s[0]] + rest[0]] + rest[1..]
  }

  /** Splitting and re-joining with the same separator gives the string back. */
  lemma {:induction false} JoinSplitOn(s: string, sep: char)
    ensures Join(SplitOn(s, sep), [sep]) == s
    decreases |s|
  {
    if s == [] {
    } else if s[0] == sep {
      JoinSplitOn(s[1..], sep);
      var rest := SplitOn(s[1..], sep);
      assert SplitOn(s, sep) == [""] + rest;
      assert ([""] + rest)[1..] == rest;
      assert s == [sep] + s[1..];
    } else {
      JoinSplitOn(s[1..], sep);
      var rest := SplitOn(s[1..], sep);
      var r := [[s[0]] + rest[0]] + rest[1..];
      assert SplitOn(s, sep) == r;
      assert r[1..] == rest[1..];
      if |rest| == 1 {
        assert Join(rest, [sep]) == rest[0];
      } else {
        assert Join(rest, [sep]) == rest[0] + [sep] + Join(rest[1..], [sep]);
      }
      assert s == [s[0]] + s[1..];
    }
  }

  /** A string without the separator is a single field. */
  lemma {:induction false} SplitNoSep(s: string, sep: char)
    requires forall i :: 0 <= i < |s| ==> s[i] != sep
    ensures SplitOn(s, sep) == [s]
    decreases |s|
  {
    if s != [] {
      SplitNoSep(s[1..], sep);
      assert [s[0]] + s[1..] == s;
    }
  }

  /** A separator-free prefix followed by the separator is the first field. */
  lemma {:induction false} SplitPrefix(a: string, sep: char, b: string)
    requires forall i :: 0 <= i < |a| ==> a[i] != sep
    ensures SplitOn(a + [sep] + b, sep) == [a] + SplitOn(b, sep)
    decreases |a|
  {
    if a == [] {
      assert ([sep] + b)[1..] == b;
    } else {
      SplitPrefix(a[1..], sep, b);
      assert (a + [sep] + b)[1..] == a[1..] + [sep] + b;
      assert [a[0]] + a[1..] == a;
    }
  }

  /** Joining separator-free parts and splitting again gives the parts back. */
  lemma {:induction false} SplitJoin(parts: seq<string>, sep: char)
    requires |parts| > 0
    requires forall k, i :: 0 <= k < |parts| && 0 <= i < |parts[k]| ==> parts[k][i] != sep
    ensures SplitOn(Join(parts, [sep]), sep) == parts
    decreases |parts|
  {
    if |parts| == 1 {
      SplitNoSep(parts[0], sep);
    } else {
      SplitJoin(parts[1..], sep);
      SplitPrefix(parts[0], sep, Join(parts[1..], [sep]));
      assert [parts[0]] + parts[1..] == parts;
    }
  }

  // ---------------------------------------------------------------------------
  // Maximal runs (`re.findall` of a repeated character class, `str.split()`)
  // ---------------------------------------------------------------------------

  /** The length of the longest prefix of `s` whose characters satisfy `p`. */
  function LeadLen(s: string, p: char -> bool): (n: nat)
    ensures n <= |s|
    ensures forall i :: 0 <= i < n ==> p(s[i])
    ensures n == |s| || !p(s[n])
    decreases |s|
  {
    if |s| > 0 && p(s[0]) then 1 + LeadLen(s[1..], p) else 0
  }

  /** The characterisation in LeadLen's contract determines it. */
  lemma LeadLenUnique(s: string, p: char -> bool, m: nat)
    requires m <= |s|
    requires forall i :: 0 <= i < m ==> p(s[i])
    requires m == |s| || !p(s[m])
    ensures LeadLen(s, p) == m
  {
  }

  /**
   * The maximal non-empty runs of characters satisfying `p`, left to right:
   * `re.findall("[class]+", s)`, and `s.split()` when `p` is NotSpace.
   */
  function Runs(s: string, p: char -> bool): (r: seq<string>)
    ensures forall k :: 0 <= k < |r| ==> |r[k]| > 0
    ensures forall k, i :: 0 <= k < |r| && 0 <= i < |r[k]| ==> p(r[k][i])
    decreases |s|
  {
    if s == [] then []
    else if !p(s[0]) then Runs(s[1..], p)
    else
      var n := LeadLen(s, p);
      [s[..n]] + Runs(s[n..], p)
  }

  /** Leading separators do not start a run. */
  lemma {:induction false} RunsDropLeading(s: string, p: char -> bool, k: nat)
    requires k <= |s|
    requires forall i :: 0 <= i < k ==> !p(s[i])
    ensures Runs(s, p) == Runs(s[k..], p)
    decreases k
  {
    if k > 0 {
      RunsDropLeading(s[1..], p, k - 1);
      assert s[1..][k - 1..] == s[k..];
    }
  }

  /** A string of separators has no runs. */
  lemma RunsNone(s: string, p: char -> bool)
    requires forall i :: 0 <= i < |s| ==> !p(s[i])
    ensures Runs(s, p) == []
  {
    RunsDropLeading(s, p, |s|);
  }

  /** A non-empty string of run characters is one run. */
  lemma RunsSingle(w: string, p: char -> bool)
    requires |w| > 0
    requires forall i :: 0 <= i < |w| ==> p(w[i])
    ensures Runs(w, p) == [w]
  {
    LeadLenUnique(w, p, |w|);
    assert w[..|w|] == w;
    assert w[|w|..] == [];
  }

  /** A separator cuts the string: the runs of both sides, in order. */
  lemma {:induction false} RunsSplit(a: string, c: char, b: string, p: char -> bool)
    requires !p(c)
    ensures Runs(a + [c] + b, p) == Runs(a, p) + Runs(b, p)
    decreases |a|
  {
    var s := a + [c] + b;
    if a == [] {
      assert s[1..] == b;
    } else if !p(a[0]) {
      assert s[1..] == a[1..] + [c] + b;
      RunsSplit(a[1..], c, b, p);
    } else {
      var m := LeadLen(a, p);
      assert forall i :: 0 <= i < m ==> s[i] == a[i];
      assert m == |a| ==> s[m] == c;
      assert m < |a| ==> s[m] == a[m];
      LeadLenUnique(s, p, m);
      assert s[..m] == a[..m];
      assert s[m..] == a[m..] + [c] + b;
      RunsSplit(a[m..], c, b, p);
    }
  }

  /** Runs that are trailed only by separators. */
  lemma RunsDropTrailing(s: string, p: char -> bool, m: nat)
    requires m <= |s|
    requires forall i :: m <= i < |s| ==> !p(s[i])
    ensures Runs(s, p) == Runs(s[..m], p)
  {
    if m < |s| {
      var tail := s[m + 1..];
      assert s == s[..m] + [s[m]] + tail;
      assert !p(s[m]);
      assert forall i :: 0 <= i < |tail| ==> !p(tail[i]) by {
        forall i | 0 <= i < |tail| ensures !p(tail[i]) {
          assert tail[i] == s[m + 1 + i];
        }
      }
      RunsSplit(s[..m], s[m], tail, p);
      RunsNone(tail, p);
    } else {
      assert s[..m] == s;
    }
  }

  /** Joining runs with a separator and re-splitting gives the runs back. */
  lemma {:induction false} RunsOfJoin(parts: seq<string>, sep: char, p: char -> bool)
    requires !p(sep)
    requires forall k :: 0 <= k < |parts| ==> |parts[k]| > 0
    requires forall k, i :: 0 <= k < |parts| && 0 <= i < |parts[k]| ==> p(parts[k][i])
    ensures Runs(Join(parts, [sep]), p) == parts
    decreases |parts|
  {
    if |parts| == 1 {
      RunsSingle(parts[0], p);
    } else if |parts| > 1 {
      RunsOfJoin(parts[1..], sep, p);
      RunsSingle(parts[0], p);
      RunsSplit(parts[0], sep, Join(parts[1..], [sep]), p);
      assert [parts[0]] + parts[1..] == parts;
    }
  }

  // ---------------------------------------------------------------------------
  // Substrings and comparison
  // ---------------------------------------------------------------------------

  /** `sub` occurs in `s` at index `i`. */
  predicate OccursAt(s: string, sub: string, i: int) {
    0 <= i && i + |sub| <= |s| && s[i..i + |sub|] == sub
  }

  /** `sub in s`. */
  predicate Contains(s: string, sub: string) {
    exists i :: 0 <= i <= |s| - |sub| && OccursAt(s, sub, i)
  }

  lemma ContainsAt(s: string, sub: string, i: nat)
    requires OccursAt(s, sub, i)
    ensures Contains(s, sub)
  {
  }

  /** `s.startswith(prefix)`. */
  predicate StartsWith(s: string, prefix: string) {
    |prefix| <= |s| && s[..|prefix|] == prefix
  }

  /** `s.endswith(suffix)`. */
  predicate EndsWith(s: string, suffix: string) {
    |suffix| <= |s| && s[|s| - |suffix|..] == suffix
  }

  /** Python's `a <= b` on strings: lexicographic by code point. */
  predicate StrLe(a: string, b: string)
    decreases |a|
  {
    if a == [] then true
    else if b == [] then false
    else if a[0] != b[0] then a[0] < b[0]
    else StrLe(a[1..], b[1..])
  }

  /** Python's `a < b` on strings. */
  predicate StrLt(a: string, b: string) {
    StrLe(a, b) && a != b
  }

  lemma {:induction false} StrLeTotal(a: string, b: string)
    ensures StrLe(a, b) || StrLe(b, a)
    decreases |a|
  {
    if a != [] && b != [] && a[0] == b[0] {
      StrLeTotal(a[1..], b[1..]);
    }
  }

  lemma {:induction false} StrLeAntisymmetric(a: string, b: string)
    requires StrLe(a, b) && StrLe(b, a)
    ensures a == b
    decreases |a|
  {
    if a != [] && b != [] {
      StrLeAntisymmetric(a[1..], b[1..]);
      assert a == [a[0]] + a[1..] && b == [b[0]] + b[1..];
    }
  }

  lemma {:induction false} StrLeTransitive(a: string, b: string, c: string)
    requires StrLe(a, b) && StrLe(b, c)
    ensures StrLe(a, c)
    decreases |a|
  {
    if a != [] && b != [] && c != [] && a[0] == b[0] && b[0] == c[0] {
      StrLeTransitive(a[1..], b[1..], c[1..]);
    }
  }

  lemma StrLeReflexive(a: string)
    ensures StrLe(a, a)
  {
    StrLeTotal(a, a);
  }
}
