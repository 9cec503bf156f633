/**
 * The text normaliser: whitespace normalisation, the synonym map, whole-word phrase
 * replacement (longest surface first), tokenisation into runs of `[a-z0-9_+\-/]` and the
 * stopword / single-letter filter that `normalize_text` applies.
 */
module TextProcessing {
  import opened Wrappers
  import opened Strings
  import Sorting
  import Seqs

  // ---------------------------------------------------------------------------
  // Tokens
  // ---------------------------------------------------------------------------

  const Stopwords: set<string> := {
    "the", "a", "an", "and", "or", "to", "for", "of", "on", "in", "with", "at", "by",
    "from", "is", "are", "be", "that", "this", "it", "as", "we", "they", "client",
    "pm", "desk"
  }

  /** The character class of `TOKEN_REGEX`: `[a-z0-9_+\-/]`. */
  predicate IsTokenChar(c: char) {
    IsLowerLetter(c) || IsDigit(c) || c == '_' || c == '+' || c == '-' || c == '/'
  }

  /** A non-empty string of token characters. */
  predicate IsToken(t: string) {
    |t| > 0 && forall i :: 0 <= i < |t| ==> IsTokenChar(t[i])
  }

  /** `TOKEN_REGEX.findall(text.lower())`: the maximal token runs, left to right. */
  function Tokenize(text: string): (r: seq<string>)
    ensures forall k :: 0 <= k < |r| ==> IsToken(r[k])
  {
    Runs(Lower(text), IsTokenChar)
  }

  /** `re.fullmatch(r"\d+[dwmy]", token)`. */
  predicate IsTenorToken(t: string) {
    |t| >= 2 && AllDigits(t[..|t| - 1]) && t[|t| - 1] in "dwmy"
  }

  /** No stopword looks like a tenor, so the tenor exception in the filter never applies. */
  lemma StopwordsAreNotTenors(w: string)
    requires w in Stopwords
    ensures !IsTenorToken(w)
  {
    if |w| >= 2 {
      assert !IsDigit(w[0]);
      assert w[..|w| - 1][0] == w[0];
    }
  }

  /** Tokens joined by single spaces contain no upper-case letter. */
  lemma JoinedTokensLower(tokens: seq<string>)
    requires forall k :: 0 <= k < |tokens| ==> IsToken(tokens[k])
    ensures Lower(Join(tokens, " ")) == Join(tokens, " ")
  {
    var s := Join(tokens, " ");
    var p := c => c == ' ' || IsTokenChar(c);
    assert forall k, i :: 0 <= k < |tokens| && 0 <= i < |tokens[k]| ==> p(tokens[k][i]);
    JoinAll(tokens, " ", p);
    forall i | 0 <= i < |s| ensures !IsUpperLetter(s[i]) {
      assert p(s[i]);
    }
    LowerFixed(s);
  }

  /** Tokens joined by single spaces tokenise back into the same tokens. */
  lemma TokenizeJoin(tokens: seq<string>)
    requires forall k :: 0 <= k < |tokens| ==> IsToken(tokens[k])
    ensures Tokenize(Join(tokens, " ")) == tokens
  {
    JoinedTokensLower(tokens);
    assert forall k, i :: 0 <= k < |tokens| && 0 <= i < |tokens[k]| ==> IsTokenChar(tokens[k][i]);
    RunsOfJoin(tokens, ' ', IsTokenChar);
  }

  /** Tokens joined by single spaces split at whitespace back into the same tokens. */
  lemma WordsOfJoinedTokens(tokens: seq<string>)
    requires forall k :: 0 <= k < |tokens| ==> IsToken(tokens[k])
    ensures Runs(Join(tokens, " "), NotSpace) == tokens
  {
    assert forall k, i :: 0 <= k < |tokens| && 0 <= i < |tokens[k]| ==> NotSpace(tokens[k][i]);
    RunsOfJoin(tokens, ' ', NotSpace);
  }

  // ---------------------------------------------------------------------------
  // Whitespace
  // ---------------------------------------------------------------------------

  /** `re.sub(r"\s+", " ", s)`: each maximal run of whitespace becomes one space. */
  function CollapseSpaces(s: string): string
    decreases |s|
  {
    if s == [] then []
    else if IsSpace(s[0]) then
      var n := LeadLen(s, IsSpace);
      " " + CollapseSpaces(s[n..])
    else
      var n := LeadLen(s, NotSpace);
      s[..n] + CollapseSpaces(s[n..])
  }

  /** `normalize_whitespace`: collapse whitespace runs, then strip. */
  function NormalizeWhitespace(text: string): string {
    Strip(CollapseSpaces(text))
  }

  /** Words separated by single spaces, with no space at either end. */
  predicate SingleSpaced(t: string) {
    forall i :: 0 <= i < |t| && IsSpace(t[i]) ==>
      t[i] == ' ' && 0 < i < |t| - 1 && !IsSpace(t[i + 1])
  }

  /** Every whitespace character is a space and is not followed by whitespace. */
  predicate NoDoubleSpace(t: string) {
    forall i :: 0 <= i < |t| && IsSpace(t[i]) ==>
      t[i] == ' ' && (i + 1 < |t| ==> !IsSpace(t[i + 1]))
  }

  lemma {:induction false} CollapseShape(s: string)
    ensures NoDoubleSpace(CollapseSpaces(s))
    ensures CollapseSpaces(s) == [] <==> s == []
    ensures s != [] ==> IsSpace(CollapseSpaces(s)[0]) == IsSpace(s[0])
    decreases |s|
  {
    if s != [] {
      if IsSpace(s[0]) {
        var n := LeadLen(s, IsSpace);
        CollapseShape(s[n..]);
        SpaceBeforeWord(CollapseSpaces(s[n..]));
      } else {
        var n := LeadLen(s, NotSpace);
        CollapseShape(s[n..]);
        WordBefore(s[..n], CollapseSpaces(s[n..]));
      }
    }
  }

  /** One space before text that has no double space and does not start with whitespace has none either. */
  lemma SpaceBeforeWord(rest: string)
    requires NoDoubleSpace(rest) && (rest != [] ==> !IsSpace(rest[0]))
    ensures NoDoubleSpace(" " + rest)
  {
    var c := " " + rest;
    forall i | 0 <= i < |c| && IsSpace(c[i])
      ensures c[i] == ' ' && (i + 1 < |c| ==> !IsSpace(c[i + 1]))
    {
      if i > 0 {
        assert c[i] == rest[i - 1];
        assert i + 1 < |c| ==> c[i + 1] == rest[i];
      }
    }
  }

  /** A run without whitespace before text that has no double space leaves it without one. */
  lemma WordBefore(w: string, rest: string)
    requires forall k :: 0 <= k < |w| ==> NotSpace(w[k])
    requires NoDoubleSpace(rest)
    ensures NoDoubleSpace(w + rest)
  {
    var c := w + rest;
    forall i | 0 <= i < |c| && IsSpace(c[i])
      ensures c[i] == ' ' && (i + 1 < |c| ==> !IsSpace(c[i + 1]))
    {
      if i < |w| {
        assert false;
      } else {
        assert c[i] == rest[i - |w|];
        assert i + 1 < |c| ==> c[i + 1] == rest[i + 1 - |w|];
      }
    }
  }

  lemma StripSingleSpaced(t: string)
    requires NoDoubleSpace(t)
    ensures SingleSpaced(Strip(t))
  {
    var r := Strip(t);
    var lo := StripBounds(t);
    forall i | 0 <= i < |r| && IsSpace(r[i])
      ensures r[i] == ' ' && 0 < i < |r| - 1 && !IsSpace(r[i + 1])
    {
      assert r[i] == t[lo + i];
      assert i + 1 < |r| ==> r[i + 1] == t[lo + i + 1];
    }
  }

  /** Collapsing whitespace keeps the words. */
  lemma {:induction false} CollapseRuns(s: string)
    ensures Runs(CollapseSpaces(s), NotSpace) == Runs(s, NotSpace)
    decreases |s|
  {
    if s != [] {
      if IsSpace(s[0]) {
        var n := LeadLen(s, IsSpace);
        CollapseRuns(s[n..]);
        var rest := CollapseSpaces(s[n..]);
        assert (" " + rest)[1..] == rest;
        RunsDropLeading(" " + rest, NotSpace, 1);
        RunsDropLeading(s, NotSpace, n);
      } else {
        var n := LeadLen(s, NotSpace);
        if n == |s| {
          assert s[..n] == s && s[n..] == [];
          assert CollapseSpaces(s) == s;
        } else {
          var m := LeadLen(s[n..], IsSpace);
          var tail := s[n..][m..];
          assert tail == s[n + m..];
          CollapseRuns(tail);
          var rest := CollapseSpaces(tail);
          assert CollapseSpaces(s) == s[..n] + [' '] + rest;
          RunsSplit(s[..n], ' ', rest, NotSpace);
          RunsSingle(s[..n], NotSpace);
          RunsDropLeading(s[n..], NotSpace, m);
        }
      }
    }
  }

  /** Stripping whitespace keeps the words. */
  lemma StripRuns(t: string)
    ensures Runs(Strip(t), NotSpace) == Runs(t, NotSpace)
  {
    var r := Strip(t);
    var lo := StripBounds(t);
    RunsDropLeading(t, NotSpace, lo);
    RunsDropTrailing(t[lo..], NotSpace, |r|);
    assert t[lo..][..|r|] == r;
  }

  /** A single-spaced string with more than one word: its first word, one space, and a single-spaced rest. */
  lemma SingleSpacedSplit(t: string, n: nat)
    requires SingleSpaced(t) && n == LeadLen(t, NotSpace) && n < |t|
    ensures 0 < n && t == t[..n] + " " + t[n + 1..] && SingleSpaced(t[n + 1..]) && t[n + 1..] != []
  {
    assert t[n] == ' ' && 0 < n < |t| - 1 by {
      assert IsSpace(t[n]);
    }
    var u := t[n + 1..];
    Seqs.SplitAround(t, n);
    assert SingleSpaced(u) by {
      forall i | 0 <= i < |u| && IsSpace(u[i])
        ensures u[i] == ' ' && 0 < i < |u| - 1 && !IsSpace(u[i + 1])
      {
        assert u[i] == t[n + 1 + i];
        assert i + 1 < |u| ==> u[i + 1] == t[n + 2 + i];
      }
    }
  }

  /** The words of such a string: the first word, then the words of the rest. */
  lemma RunsAfterWord(t: string, n: nat)
    requires 0 < n < |t| && n == LeadLen(t, NotSpace) && !NotSpace(t[n]) && t[n + 1..] != []
    requires !IsSpace(t[n + 1])
    ensures Runs(t, NotSpace) == [t[..n]] + Runs(t[n + 1..], NotSpace)
    ensures |Runs(t[n + 1..], NotSpace)| > 0
  {
    assert Runs(t, NotSpace) == [t[..n]] + Runs(t[n..], NotSpace);
    assert t[n..][1..] == t[n + 1..];
    RunsDropLeading(t[n..], NotSpace, 1);
  }

  /** A single-spaced string is its words joined by single spaces. */
  lemma {:induction false} SingleSpacedIsJoin(t: string)
    requires SingleSpaced(t)
    ensures t == Join(Runs(t, NotSpace), " ")
    decreases |t|
  {
    if t != [] {
      var n := LeadLen(t, NotSpace);
      if n == |t| {
        assert Runs(t, NotSpace) == [t[..n]] + Runs(t[n..], NotSpace);
        assert t[n..] == [] && t[..n] == t;
      } else {
        SingleSpacedSplit(t, n);
        var u := t[n + 1..];
        SingleSpacedIsJoin(u);
        RunsAfterWord(t, n);
        var rs := Runs(u, NotSpace);
        var all := [t[..n]] + rs;
        assert all[1..] == rs;
      }
    }
  }

  /** Words joined by single spaces form a single-spaced string. */
  lemma {:induction false} JoinIsSingleSpaced(words: seq<string>)
    requires forall k :: 0 <= k < |words| ==> |words[k]| > 0
    requires forall k, i :: 0 <= k < |words| && 0 <= i < |words[k]| ==> !IsSpace(words[k][i])
    ensures SingleSpaced(Join(words, " "))
    decreases |words|
  {
    if |words| > 1 {
      JoinIsSingleSpaced(words[1..]);
      var w, rest := words[0], Join(words[1..], " ");
      var t := w + " " + rest;
      assert |rest| > 0 && !IsSpace(rest[0]) by {
        assert Join(words[1..], " ")[..|words[1]|] == words[1] by {
          if |words[1..]| > 1 {
            assert Join(words[1..], " ") == words[1] + " " + Join(words[2..], " ");
          }
        }
      }
      forall i | 0 <= i < |t| && IsSpace(t[i])
        ensures t[i] == ' ' && 0 < i < |t| - 1 && !IsSpace(t[i + 1])
      {
        if i > |w| {
          assert t[i] == rest[i - |w| - 1];
          assert i + 1 < |t| ==> t[i + 1] == rest[i - |w|];
        }
      }
    }
  }

  /**
   * `normalize_whitespace(s) == " ".join(s.split())`: the words of `s`, in order,
   * separated by single spaces.
   */
  lemma NormalizeWhitespaceIsJoinOfWords(s: string)
    ensures NormalizeWhitespace(s) == Join(Runs(s, NotSpace), " ")
  {
    var c := CollapseSpaces(s);
    CollapseShape(s);
    StripSingleSpaced(c);
    SingleSpacedIsJoin(Strip(c));
    StripRuns(c);
    CollapseRuns(s);
  }

  /** The output of `normalize_whitespace` is single-spaced, and single-spaced text is a fixed point. */
  lemma NormalizeWhitespaceCanonical(s: string)
    ensures SingleSpaced(NormalizeWhitespace(s))
    ensures SingleSpaced(s) ==> NormalizeWhitespace(s) == s
  {
    CollapseShape(s);
    StripSingleSpaced(CollapseSpaces(s));
    if SingleSpaced(s) {
      NormalizeWhitespaceIsJoinOfWords(s);
      SingleSpacedIsJoin(s);
    }
  }

  /** The spaces `apply_phrase_replacements` pads with do not change the words. */
  lemma PaddedWords(x: string)
    ensures Runs(" " + x + " ", NotSpace) == Runs(x, NotSpace)
  {
    assert " " + x + " " == [] + [' '] + (x + " ");
    RunsSplit([], ' ', x + " ", NotSpace);
    assert x + " " == x + [' '] + [];
    RunsSplit(x, ' ', [], NotSpace);
  }

  // ---------------------------------------------------------------------------
  // Synonym map
  // ---------------------------------------------------------------------------

  /** A synonym row: surface form, canonical form and the optional tag code it names. */
  datatype SynonymRow = SynonymRow(surface: string, canonical: string, tagCode: Option<string>)

  datatype Synonym = Synonym(surface: string, canonical: string)

  /** A `dict[str, str]` in insertion order (an overwrite keeps the key's position). */
  type SynonymMap = seq<Synonym>

  function Keys(m: SynonymMap): (r: seq<string>)
    ensures |r| == |m| && forall i :: 0 <= i < |m| ==> r[i] == m[i].surface
  {
    if m == [] then [] else [m[0].surface] + Keys(m[1..])
  }

  /** A map `build_synonym_map` can return: distinct, non-empty surfaces. */
  predicate WellFormed(m: SynonymMap) {
    && (forall i, j :: 0 <= i < j < |m| ==> m[i].surface != m[j].surface)
    && (forall i :: 0 <= i < |m| ==> m[i].surface != [])
  }

  /** `m.get(k)`. */
  function Lookup(m: SynonymMap, k: string): (r: Option<string>)
    ensures r.Some? <==> k in Keys(m)
  {
    if m == [] then None
    else if m[0].surface == k then Some(m[0].canonical)
    else
      assert Keys(m) == [m[0].surface] + Keys(m[1..]);
      Lookup(m[1..], k)
  }

  /** `m[k] = v`: overwrite in place, or append a new key. */
  function Put(m: SynonymMap, k: string, v: string): SynonymMap {
    if m == [] then [Synonym(k, v)]
    else if m[0].surface == k then [Synonym(k, v)] + m[1..]
    else [m[0]] + Put(m[1..], k, v)
  }

  /** `m[k] = v` keeps the keys and their order, adding `k` at the end when it is new. */
  lemma {:induction false} PutKeys(m: SynonymMap, k: string, v: string)
    ensures Keys(Put(m, k, v)) == if k in Keys(m) then Keys(m) else Keys(m) + [k]
    decreases |m|
  {
    var r := Put(m, k, v);
    if m == [] {
    } else if m[0].surface == k {
      assert Keys(m)[0] == k;
      assert r[1..] == m[1..];
      assert Keys(r) == Keys(m);
    } else {
      PutKeys(m[1..], k, v);
      assert Keys(m) == [m[0].surface] + Keys(m[1..]);
      assert r[1..] == Put(m[1..], k, v);
      assert Keys(r) == [m[0].surface] + Keys(r[1..]);
    }
  }

  /** Reading back after `m[k] = v` gives `v` at `k` and what `m` held everywhere else. */
  lemma {:induction false} PutLookup(m: SynonymMap, k: string, v: string, k': string)
    ensures Lookup(Put(m, k, v), k') == if k' == k then Some(v) else Lookup(m, k')
    decreases |m|
  {
    if m != [] && m[0].surface != k {
      PutLookup(m[1..], k, v, k');
      assert Put(m, k, v)[1..] == Put(m[1..], k, v);
    } else if m != [] {
      assert Put(m, k, v)[1..] == m[1..];
    }
  }

  /** `str(x).strip().lower()`. */
  function Clean(s: string): string {
    Lower(Strip(s))
  }

  /** The dict `build_synonym_map` returns, as a left fold over the rows. */
  function SynonymMapOf(rows: seq<SynonymRow>): SynonymMap {
    if rows == [] then []
    else
      var m := SynonymMapOf(rows[..|rows| - 1]);
      var row := rows[|rows| - 1];
      if Clean(row.surface) != [] then Put(m, Clean(row.surface), Clean(row.canonical)) else m
  }

  lemma SynonymMapOfPrefix(rows: seq<SynonymRow>, i: int)
    requires 0 <= i < |rows|
    ensures var m, s := SynonymMapOf(rows[..i]), Clean(rows[i].surface);
      SynonymMapOf(rows[..i + 1]) == if s != [] then Put(m, s, Clean(rows[i].canonical)) else m
  {
    assert rows[..i + 1][..i] == rows[..i];
  }

  /** `build_synonym_map`. */
  method BuildSynonymMap(rows: seq<SynonymRow>) returns (mapping: SynonymMap)
    ensures mapping == SynonymMapOf(rows)
  {
    mapping := [];
    var i := 0;
    assert rows[..0] == [];
    while i < |rows|
      invariant 0 <= i <= |rows|
      invariant mapping == SynonymMapOf(rows[..i])
    {
      var surface := Clean(rows[i].surface);
      var canonical := Clean(rows[i].canonical);
      SynonymMapOfPrefix(rows, i);
      if surface != [] {
        mapping := Put(mapping, surface, canonical);
      }
      i := i + 1;
    }
    assert rows[..i] == rows;
  }

  /** The canonical form of the last row whose cleaned surface is `k`, if any. */
  function LastCanonical(rows: seq<SynonymRow>, k: string): Option<string> {
    if rows == [] then None
    else if k != [] && Clean(rows[|rows| - 1].surface) == k then Some(Clean(rows[|rows| - 1].canonical))
    else LastCanonical(rows[..|rows| - 1], k)
  }

  /** A cleaned, non-empty surface: what `build_synonym_map` uses as a key. */
  predicate CleanKey(k: string) {
    k != [] && Strip(k) == k && Lower(k) == k
  }

  lemma {:induction false} PutWellFormed(m: SynonymMap, k: string, v: string)
    requires WellFormed(m) && k != []
    ensures WellFormed(Put(m, k, v))
    decreases |m|
  {
    var r := Put(m, k, v);
    if m != [] && m[0].surface == k {
      assert forall i :: 0 <= i < |r| ==> r[i].surface == m[i].surface;
    } else if m != [] {
      var tail := m[1..];
      assert forall i :: 0 <= i < |tail| ==> tail[i] == m[i + 1];
      PutWellFormed(tail, k, v);
      PutAbsent(tail, k, v, m[0].surface);
      assert r == [m[0]] + Put(tail, k, v);
    }
  }

  /** A key other than `k` that `m` lacks is still missing after `m[k] = v`. */
  lemma PutAbsent(m: SynonymMap, k: string, v: string, x: string)
    requires x != k && forall i :: 0 <= i < |m| ==> m[i].surface != x
    ensures forall i :: 0 <= i < |Put(m, k, v)| ==> Put(m, k, v)[i].surface != x
  {
    PutKeys(m, k, v);
    var r := Put(m, k, v);
    assert x !in Keys(m);
    assert x !in Keys(r);
    forall i | 0 <= i < |r|
      ensures r[i].surface != x
    {
      assert r[i].surface == Keys(r)[i];
    }
  }

  lemma CleanIsCleanKey(s: string)
    requires Clean(s) != []
    ensures CleanKey(Clean(s))
  {
    StripUnchanged(Lower(Strip(s)));
    LowerIdempotent(Strip(s));
  }

  /** Keys are distinct and non-empty. */
  lemma {:induction false} SynonymMapWellFormed(rows: seq<SynonymRow>)
    ensures WellFormed(SynonymMapOf(rows))
    decreases |rows|
  {
    if rows != [] {
      var prev := rows[..|rows| - 1];
      SynonymMapWellFormed(prev);
      var k := Clean(rows[|rows| - 1].surface);
      if k != [] {
        PutWellFormed(SynonymMapOf(prev), k, Clean(rows[|rows| - 1].canonical));
      }
    }
  }

  /** Keys are stripped and lower-case. */
  lemma {:induction false} SynonymMapKeysClean(rows: seq<SynonymRow>)
    ensures forall k :: k in Keys(SynonymMapOf(rows)) ==> CleanKey(k)
    decreases |rows|
  {
    if rows != [] {
      var prev := rows[..|rows| - 1];
      SynonymMapKeysClean(prev);
      var m := SynonymMapOf(prev);
      var k := Clean(rows[|rows| - 1].surface);
      if k != [] {
        var r := Put(m, k, Clean(rows[|rows| - 1].canonical));
        PutKeys(m, k, Clean(rows[|rows| - 1].canonical));
        assert SynonymMapOf(rows) == r;
        CleanIsCleanKey(rows[|rows| - 1].surface);
        assert forall k' :: k' in Keys(r) ==> k' in Keys(m) || k' == k;
      }
    }
  }

  /** A later row with the same surface overwrites an earlier one; blank surfaces are dropped. */
  lemma {:induction false} SynonymMapLookup(rows: seq<SynonymRow>, k: string)
    ensures Lookup(SynonymMapOf(rows), k) == LastCanonical(rows, k)
    decreases |rows|
  {
    if rows != [] {
      var prev := rows[..|rows| - 1];
      SynonymMapLookup(prev, k);
      var surface := Clean(rows[|rows| - 1].surface);
      if surface != [] {
        PutLookup(SynonymMapOf(prev), surface, Clean(rows[|rows| - 1].canonical), k);
      }
    }
  }

  // ---------------------------------------------------------------------------
  // Phrase replacement
  // ---------------------------------------------------------------------------

  /** `(?<!\w)p(?!\w)` matches at index `i` of `s`. */
  predicate WordMatchAt(s: string, p: string, i: nat) {
    && OccursAt(s, p, i)
    && (i == 0 || !IsWordChar(s[i - 1]))
    && (i + |p| == |s| || !IsWordChar(s[i + |p|]))
  }

  /** `re.sub` of that pattern from index `i` on: matches are found left to right without overlap. */
  function ReplaceFrom(s: string, p: string, c: string, i: nat): string
    requires |p| > 0 && i <= |s|
    decreases |s| - i
  {
    if i == |s| then []
    else if WordMatchAt(s, p, i) then c + ReplaceFrom(s, p, c, i + |p|)
    else [s[i]] + ReplaceFrom(s, p, c, i + 1)
  }

  /**
   * `re.sub(rf"(?<!\w){re.escape(p)}(?!\w)", c, s)`, with `c` inserted literally: the backslash
   * escapes `re.sub` reads in its replacement template are not interpreted.
   */
  function ReplaceWord(s: string, p: string, c: string): string
    requires |p| > 0
  {
    ReplaceFrom(s, p, c, 0)
  }

  /** Without a whole-word occurrence of `p`, nothing changes. */
  lemma {:induction false} ReplaceFromNoMatch(s: string, p: string, c: string, i: nat)
    requires |p| > 0 && i <= |s|
    requires forall j :: i <= j < |s| ==> !WordMatchAt(s, p, j)
    ensures ReplaceFrom(s, p, c, i) == s[i..]
    decreases |s| - i
  {
    if i < |s| {
      ReplaceFromNoMatch(s, p, c, i + 1);
      assert s[i..] == [s[i]] + s[i + 1..];
    }
  }

  /** Replacing a phrase with itself changes nothing. */
  lemma {:induction false} ReplaceFromSelf(s: string, p: string, i: nat)
    requires |p| > 0 && i <= |s|
    ensures ReplaceFrom(s, p, p, i) == s[i..]
    decreases |s| - i
  {
    if i < |s| {
      if WordMatchAt(s, p, i) {
        ReplaceFromSelf(s, p, i + |p|);
        assert s[i..] == s[i..i + |p|] + s[i + |p|..];
      } else {
        ReplaceFromSelf(s, p, i + 1);
        assert s[i..] == [s[i]] + s[i + 1..];
      }
    }
  }

  lemma ReplaceWordSelf(s: string, p: string)
    requires |p| > 0
    ensures ReplaceWord(s, p, p) == s
  {
    ReplaceFromSelf(s, p, 0);
  }

  /** `sorted(..., key=len, reverse=True)`'s order: longer first, ties in map order. */
  function LongerFirst(a: string, b: string): bool {
    |a| >= |b|
  }

  lemma LongerFirstTotal()
    ensures Sorting.TotalPreorder(LongerFirst)
  {
  }

  /** `sorted(synonym_map, key=len, reverse=True)`. */
  function ReplacementOrder(m: SynonymMap): seq<string> {
    Sorting.SortBy(Keys(m), LongerFirst)
  }

  /** Surfaces are processed in non-increasing length, each key exactly once. */
  lemma ReplacementOrderSorted(m: SynonymMap)
    ensures forall i, j :: 0 <= i < j < |ReplacementOrder(m)| ==>
      |ReplacementOrder(m)[i]| >= |ReplacementOrder(m)[j]|
    ensures multiset(ReplacementOrder(m)) == multiset(Keys(m))
  {
    LongerFirstTotal();
    Sorting.SortBySorted(Keys(m), LongerFirst);
  }

  lemma OrderKeysInMap(m: SynonymMap)
    ensures forall k :: k in ReplacementOrder(m) ==> k in Keys(m)
  {
    forall k | k in ReplacementOrder(m) ensures k in Keys(m) {
      assert k in multiset(ReplacementOrder(m));
    }
  }

  /** Replacing with every surface in `order`, in turn. */
  function ReplaceAll(s: string, order: seq<string>, m: SynonymMap): string
    requires WellFormed(m)
    requires forall k :: k in order ==> k in Keys(m)
  {
    if order == [] then s
    else
      var k := order[|order| - 1];
      var prev := ReplaceAll(s, order[..|order| - 1], m);
      ReplaceWord(prev, k, Lookup(m, k).value)
  }

  /** What `apply_phrase_replacements` returns. */
  function PhraseReplaced(text: string, m: SynonymMap): string
    requires WellFormed(m)
  {
    OrderKeysInMap(m);
    NormalizeWhitespace(ReplaceAll(" " + Lower(text) + " ", ReplacementOrder(m), m))
  }

  /** `apply_phrase_replacements`. */
  method ApplyPhraseReplacements(text: string, m: SynonymMap) returns (r: string)
    requires WellFormed(m)
    ensures r == PhraseReplaced(text, m)
  {
    var replaced := " " + Lower(text) + " ";
    var order := ReplacementOrder(m);
    OrderKeysInMap(m);
    var i := 0;
    while i < |order|
      invariant 0 <= i <= |order|
      invariant replaced == ReplaceAll(" " + Lower(text) + " ", order[..i], m)
    {
      var surface := order[i];
      var canonical := Lookup(m, surface).value;
      replaced := ReplaceWord(replaced, surface, canonical);
      assert order[..i + 1][..i] == order[..i];
      i := i + 1;
    }
    assert order[..i] == order;
    r := NormalizeWhitespace(replaced);
  }

  /** With no synonyms, phrase replacement is lower-casing and whitespace normalisation. */
  lemma PhraseReplacedWithoutSynonyms(text: string)
    ensures PhraseReplaced(text, []) == NormalizeWhitespace(Lower(text))
  {
    var x := Lower(text);
    NormalizeWhitespaceIsJoinOfWords(" " + x + " ");
    NormalizeWhitespaceIsJoinOfWords(x);
    PaddedWords(x);
  }

  // ---------------------------------------------------------------------------
  // normalize_text
  // ---------------------------------------------------------------------------

  /** The filter of `normalize_text`: stopwords unless a tenor, single characters unless a digit. */
  predicate KeepToken(t: string) {
    && !(t in Stopwords && !IsTenorToken(t))
    && !(|t| == 1 && !IsDigit(t[0]))
  }

  /** The tokens the filter keeps, in order. */
  function Kept(ts: seq<string>): (r: seq<string>)
    ensures forall k :: 0 <= k < |r| ==> KeepToken(r[k]) && r[k] in ts
    ensures |r| <= |ts|
  {
    if ts == [] then []
    else
      var prev := Kept(ts[..|ts| - 1]);
      var t := ts[|ts| - 1];
      if KeepToken(t) then prev + [t] else prev
  }

  lemma {:induction false} KeptAll(ts: seq<string>)
    requires forall k :: 0 <= k < |ts| ==> KeepToken(ts[k])
    ensures Kept(ts) == ts
    decreases |ts|
  {
    if ts != [] {
      KeptAll(ts[..|ts| - 1]);
    }
  }

  /** What `normalize_text` returns. */
  function Normalized(text: string, m: SynonymMap): string
    requires WellFormed(m)
  {
    if text == [] then "" else Join(Kept(Tokenize(PhraseReplaced(text, m))), " ")
  }

  /** `normalize_text` (a missing synonym map is the empty map). */
  method NormalizeText(text: string, m: SynonymMap) returns (r: string)
    requires WellFormed(m)
    ensures r == Normalized(text, m)
    ensures text == [] ==> r == []
  {
    if text == [] {
      return "";
    }
    var replaced := ApplyPhraseReplacements(text, m);
    var toks := Tokenize(replaced);
    var tokens: seq<string> := [];
    var i := 0;
    while i < |toks|
      invariant 0 <= i <= |toks|
      invariant tokens == Kept(toks[..i])
    {
      var tok := toks[i];
      assert toks[..i + 1][..i] == toks[..i];
      if tok in Stopwords && !IsTenorToken(tok) {
      } else if |tok| == 1 && !IsDigit(tok[0]) {
      } else {
        tokens := tokens + [tok];
      }
      i := i + 1;
    }
    assert toks[..i] == toks;
    r := Join(tokens, " ");
  }

  /** The output's tokens are exactly the kept tokens of the replaced text. */
  lemma NormalizedTokens(text: string, m: SynonymMap)
    requires WellFormed(m)
    ensures Tokenize(Normalized(text, m))
         == if text == [] then [] else Kept(Tokenize(PhraseReplaced(text, m)))
  {
    if text != [] {
      var ks := Kept(Tokenize(PhraseReplaced(text, m)));
      forall k | 0 <= k < |ks| ensures IsToken(ks[k]) {
        var toks := Tokenize(PhraseReplaced(text, m));
        var j :| 0 <= j < |toks| && toks[j] == ks[k];
      }
      TokenizeJoin(ks);
    }
  }

  /** No output token is a stopword or a single non-digit character. */
  lemma NormalizedHasNoNoise(text: string, m: SynonymMap)
    requires WellFormed(m)
    ensures forall t :: t in Tokenize(Normalized(text, m)) ==>
      t !in Stopwords && (|t| == 1 ==> IsDigit(t[0]))
  {
    NormalizedTokens(text, m);
    forall t | t in Tokenize(Normalized(text, m))
      ensures t !in Stopwords && (|t| == 1 ==> IsDigit(t[0]))
    {
      if t in Stopwords {
        StopwordsAreNotTenors(t);
      }
    }
  }

  /** The output is its tokens joined by single spaces. */
  lemma NormalizedIsSingleSpaced(text: string, m: SynonymMap)
    requires WellFormed(m)
    ensures SingleSpaced(Normalized(text, m))
  {
    if text != [] {
      var ks := Kept(Tokenize(PhraseReplaced(text, m)));
      forall k | 0 <= k < |ks| ensures IsToken(ks[k]) {
        var toks := Tokenize(PhraseReplaced(text, m));
        var j :| 0 <= j < |toks| && toks[j] == ks[k];
      }
      JoinIsSingleSpaced(ks);
    }
  }

  /** Kept tokens joined by single spaces normalise to themselves. */
  lemma JoinedKeptTokensFixed(ks: seq<string>)
    requires forall k :: 0 <= k < |ks| ==> IsToken(ks[k]) && KeepToken(ks[k])
    ensures Normalized(Join(ks, " "), []) == Join(ks, " ")
  {
    var o := Join(ks, " ");
    if o != [] {
      JoinedTokensLower(ks);
      PhraseReplacedWithoutSynonyms(o);
      NormalizeWhitespaceIsJoinOfWords(o);
      WordsOfJoinedTokens(ks);
      assert PhraseReplaced(o, []) == o;
      TokenizeJoin(ks);
      KeptAll(ks);
    }
  }

  /** With no synonym map, normalising twice is normalising once. */
  lemma NormalizedIdempotent(text: string)
    ensures Normalized(Normalized(text, []), []) == Normalized(text, [])
  {
    if text != [] {
      var toks := Tokenize(PhraseReplaced(text, []));
      var ks := Kept(toks);
      forall k | 0 <= k < |ks| ensures IsToken(ks[k]) && KeepToken(ks[k]) {
        var j :| 0 <= j < |toks| && toks[j] == ks[k];
      }
      JoinedKeptTokensFixed(ks);
    }
  }
}
