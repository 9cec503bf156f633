/**
 * The trade sheet loader: each row with a non-blank Trade becomes an idea (found by its
 * title and updated, or created), and each client named in the row's Client cell is
 * resolved or created and given one observation holding the trade, its sales feedback and
 * its author, unless the client already has an observation of that type with that text.
 *
 * The repository enters as lookups fixed for the run plus what the run itself writes;
 * `ast.literal_eval` is a parameter.
 */
module IngestTrade {
  import opened Wrappers
  import opened Strings
  import Seqs
  import IngestRfq

  type CsvRow = IngestRfq.CsvRow

  // ---------------------------------------------------------------------------
  // One row
  // ---------------------------------------------------------------------------

  /**
   * What the loop uses of a row: the stripped Trade cell, the idea it writes, the client
   * names of the Client cell and the observation text.
   */
  datatype TradeRow = TradeRow(trade: string, idea: Idea, clientNames: seq<string>, observationText: string)

  /**
   * The getter calls of one row (one column name each, matched up to case and surrounding
   * space) and the values the loop body derives from them.
   */
  function ParseTradeRow(row: CsvRow, literal: string -> Literal): TradeRow {
    var get := IngestRfq.RowGetter(row);
    var trade, feedback, author := get("Trade"), get("Sales Feedback"), get("Created By");
    TradeRow(trade, IdeaOf(trade, feedback, author), ClientList(get("Client"), literal),
             ObservationText(trade, feedback, author))
  }

  function RowParser(literal: string -> Literal): CsvRow -> TradeRow {
    row => ParseTradeRow(row, literal)
  }

  /** The rows of the sheet, in order. */
  function ParseTradeRows(rows: seq<CsvRow>, literal: string -> Literal): (r: seq<TradeRow>)
    ensures |r| == |rows|
  {
    Seqs.Map(rows, RowParser(literal))
  }

  // ---------------------------------------------------------------------------
  // The Client cell
  // ---------------------------------------------------------------------------

  /**
   * What `ast.literal_eval` makes of a cell: a list (each item already passed through
   * `str`), a string, any other value, or an exception.
   */
  datatype Literal = ListValue(items: seq<string>) | StrValue(s: string) | OtherValue | Unparsed

  /** The names a literal yields, or None when the cell must be read by the fallback. */
  function LiteralNames(obj: Literal): (r: Option<seq<string>>)
    ensures r.Some? ==> forall k :: 0 <= k < |r.value| ==> r.value[k] != ""
  {
    match obj
    case ListValue(items) => Some(NonBlankStripped(items))
    case StrValue(s) => if Strip(s) != "" then Some([Strip(s)]) else None
    case _ => None
  }

  /** `p.strip().strip('"').strip("'")`. */
  function Unquote(p: string): string {
    StripChars(StripChars(Strip(p), {'"'}), {'\''})
  }

  /** `[p for p in parts if p]`. */
  function Filled(parts: seq<string>): (r: seq<string>)
    ensures |r| <= |parts|
    ensures forall k :: 0 <= k < |r| ==> r[k] != "" && r[k] in parts
    decreases |parts|
  {
    if parts == [] then []
    else if parts[0] == "" then Filled(parts[1..])
    else [parts[0]] + Filled(parts[1..])
  }

  /** The fallback: brackets stripped, split on commas, each piece unquoted, empties dropped. */
  function FallbackNames(value: string): (r: seq<string>)
    ensures forall k :: 0 <= k < |r| ==> r[k] != ""
  {
    Filled(Seqs.Map(SplitOn(StripChars(value, {'[', ']'}), ','), Unquote))
  }

  /** The names before de-duplication: the literal's when it is a list or a non-blank string, else the fallback's. */
  function ParsedNames(value: string, literal: string -> Literal): (r: seq<string>)
    ensures forall k :: 0 <= k < |r| ==> r[k] != ""
  {
    match LiteralNames(literal(value))
    case Some(names) => names
    case None => FallbackNames(value)
  }

  /** The lower-cased names, as a set. */
  function LowerKeys(names: seq<string>): set<string>
    decreases |names|
  {
    if names == [] then {}
    else LowerKeys(names[..|names| - 1]) + {Lower(names[|names| - 1])}
  }

  /** Every name's lower-cased form is among the keys. */
  lemma {:induction false} LowerKeysHas(names: seq<string>, i: nat)
    requires i < |names|
    ensures Lower(names[i]) in LowerKeys(names)
    decreases |names|
  {
    if i < |names| - 1 {
      var init := names[..|names| - 1];
      assert init[i] == names[i];
      LowerKeysHas(init, i);
    }
  }

  /** The first spelling of each name up to case, in the order of first appearance. */
  function FirstSpellings(names: seq<string>): seq<string>
    decreases |names|
  {
    if names == [] then []
    else
      var init, last := names[..|names| - 1], names[|names| - 1];
      if Lower(last) in LowerKeys(init) then FirstSpellings(init) else FirstSpellings(init) + [last]
  }

  /** De-duplication keeps every name up to case, and no two of the names it keeps are equal up to case. */
  lemma {:induction false} FirstSpellingsKeys(names: seq<string>)
    ensures var r := FirstSpellings(names);
      && LowerKeys(r) == LowerKeys(names)
      && (forall i, j :: 0 <= i < j < |r| ==> Lower(r[i]) != Lower(r[j]))
    decreases |names|
  {
    if names != [] {
      var init, last := names[..|names| - 1], names[|names| - 1];
      FirstSpellingsKeys(init);
      var r0 := FirstSpellings(init);
      if Lower(last) !in LowerKeys(init) {
        var r := r0 + [last];
        assert r[..|r| - 1] == r0;
        forall i, j | 0 <= i < j < |r|
          ensures Lower(r[i]) != Lower(r[j])
        {
          if j == |r| - 1 {
            LowerKeysHas(r0, i);
          } else {
            assert r[i] == r0[i] && r[j] == r0[j];
          }
        }
      }
    }
  }

  /**
   * The names de-duplication keeps are input names, and every name not preceded by one
   * equal to it up to case is kept.
   */
  lemma {:induction false} FirstSpellingsKept(names: seq<string>)
    ensures var r := FirstSpellings(names);
      && (forall k :: 0 <= k < |r| ==> r[k] in names)
      && (forall i :: 0 <= i < |names| && Lower(names[i]) !in LowerKeys(names[..i]) ==> names[i] in r)
    decreases |names|
  {
    if names != [] {
      var init, last := names[..|names| - 1], names[|names| - 1];
      FirstSpellingsKept(init);
      var r0 := FirstSpellings(init);
      var r := FirstSpellings(names);
      assert forall k :: 0 <= k < |r0| ==> r0[k] in init ==> r0[k] in names;
      forall i | 0 <= i < |names| && Lower(names[i]) !in LowerKeys(names[..i])
        ensures names[i] in r
      {
        if i < |init| {
          assert names[..i] == init[..i] && names[i] == init[i];
          assert names[i] in r0;
        } else {
          assert names[..i] == init;
        }
      }
    }
  }

  /** The names kept from a prefix of the list are a prefix of those kept from the list: order is preserved. */
  lemma {:induction false} FirstSpellingsPrefix(names: seq<string>, n: nat)
    requires n <= |names|
    ensures FirstSpellings(names[..n]) <= FirstSpellings(names)
    decreases |names|
  {
    if n < |names| {
      var init := names[..|names| - 1];
      assert names[..n] == init[..n];
      FirstSpellingsPrefix(init, n);
    } else {
      assert names[..n] == names;
    }
  }

  /** `parse_client_list`, with `ast.literal_eval` given as `literal`. */
  function ClientList(raw: string, literal: string -> Literal): (r: seq<string>)
    ensures Strip(raw) == "" ==> r == []
    ensures forall k :: 0 <= k < |r| ==> r[k] != ""
    ensures forall i, j :: 0 <= i < j < |r| ==> Lower(r[i]) != Lower(r[j])
  {
    var value := Strip(raw);
    if value == "" then []
    else
      var parsed := ParsedNames(value, literal);
      FirstSpellingsKeys(parsed);
      FirstSpellingsKept(parsed);
      FirstSpellings(parsed)
  }

  /** The de-duplication loop, over a `seen` set of lower-cased names. */
  method Dedupe(parsed: seq<string>) returns (deduped: seq<string>)
    ensures deduped == FirstSpellings(parsed)
  {
    deduped := [];
    var seen: set<string> := {};
    var i := 0;
    while i < |parsed|
      invariant 0 <= i <= |parsed|
      invariant deduped == FirstSpellings(parsed[..i])
      invariant seen == LowerKeys(parsed[..i])
    {
      assert parsed[..i + 1][..i] == parsed[..i];
      var key := Lower(parsed[i]);
      if key !in seen {
        seen := seen + {key};
        deduped := deduped + [parsed[i]];
      }
      i := i + 1;
    }
    assert parsed[..|parsed|] == parsed;
  }

  /** `parse_client_list` as a procedure. */
  method ParseClientList(raw: string, literal: string -> Literal) returns (names: seq<string>)
    ensures names == ClientList(raw, literal)
  {
    var value := Strip(raw);
    if value == "" {
      return [];
    }
    names := Dedupe(ParsedNames(value, literal));
  }

  /** The last name is kept exactly when no earlier name equals it up to case. */
  lemma {:induction false} LowerKeysOnly(names: seq<string>, key: string)
    requires key in LowerKeys(names)
    ensures exists i :: 0 <= i < |names| && Lower(names[i]) == key
    decreases |names|
  {
    var init := names[..|names| - 1];
    if key != Lower(names[|names| - 1]) {
      LowerKeysOnly(init, key);
      var i :| 0 <= i < |init| && Lower(init[i]) == key;
      assert names[i] == init[i];
    }
  }

  /** Names already distinct up to case are kept as they are. */
  lemma {:induction false} FirstSpellingsDistinct(names: seq<string>)
    requires forall i, j :: 0 <= i < j < |names| ==> Lower(names[i]) != Lower(names[j])
    ensures FirstSpellings(names) == names
    decreases |names|
  {
    if names != [] {
      var init, last := names[..|names| - 1], names[|names| - 1];
      FirstSpellingsDistinct(init);
      if Lower(last) in LowerKeys(init) {
        LowerKeysOnly(init, Lower(last));
        assert false;
      }
      assert init + [last] == names;
    }
  }

  /**
   * A cell that `literal_eval` reads as a list of stripped, non-blank names distinct up to
   * case gives exactly those names.
   */
  lemma ClientListOfList(raw: string, literal: string -> Literal, items: seq<string>)
    requires Strip(raw) != "" && literal(Strip(raw)) == ListValue(items)
    requires forall k :: 0 <= k < |items| ==> items[k] != "" && Strip(items[k]) == items[k]
    requires forall i, j :: 0 <= i < j < |items| ==> Lower(items[i]) != Lower(items[j])
    ensures ClientList(raw, literal) == items
  {
    NonBlankStrippedAll(items);
    FirstSpellingsDistinct(items);
  }

  /**
   * A name the fallback reads back unchanged: not blank, with no space at either end, and
   * free of commas, brackets and quotes.
   */
  predicate PlainName(n: string) {
    && n != "" && !IsSpace(n[0]) && !IsSpace(n[|n| - 1])
    && forall i :: 0 <= i < |n| ==> n[i] != ',' && n[i] != '[' && n[i] != ']' && n[i] != '"' && n[i] != '\''
  }

  /** Unquoting a plain name, with or without the space after a comma, gives the name. */
  lemma UnquotePlain(n: string)
    requires PlainName(n)
    ensures Unquote(n) == n && Unquote(" " + n) == n
  {
    StripUnchanged(n);
    assert " " + n == [' '] + n;
    StripAfterSpace(' ', n);
    assert n[0] != '"' && n[|n| - 1] != '"' && n[0] != '\'' && n[|n| - 1] != '\'';
    StripCharsUnchanged(n, {'"'});
    StripCharsUnchanged(n, {'\''});
  }

  /** A list joined by `", "`: the first item, a comma, then a space and the rest joined. */
  lemma JoinCommaSpace(names: seq<string>)
    requires |names| > 1
    ensures Join(names, ", ") == names[0] + [','] + (" " + Join(names[1..], ", "))
  {
    var x := Join(names[1..], ", ");
    calc {
      Join(names, ", ");
      names[0] + ", " + x;
      { assert ", " == [','] + " "; }
      names[0] + ([','] + " ") + x;
      names[0] + [','] + (" " + x);
    }
  }

  /** A comma-and-space separated list of plain names splits, on the commas, into the names with the spaces before them. */
  lemma {:induction false} SplitCommaList(names: seq<string>)
    requires |names| > 0 && forall k :: 0 <= k < |names| ==> PlainName(names[k])
    ensures var pieces := SplitOn(Join(names, ", "), ',');
      && |pieces| == |names| && pieces[0] == names[0]
      && forall k :: 1 <= k < |names| ==> pieces[k] == " " + names[k]
    decreases |names|
  {
    if |names| > 1 {
      var rest := names[1..];
      var x := Join(rest, ", ");
      var tail := SplitOn(x, ',');
      assert |tail| == |rest| && tail[0] == rest[0] && forall k :: 1 <= k < |rest| ==> tail[k] == " " + rest[k] by {
        forall k | 0 <= k < |rest|
          ensures PlainName(rest[k])
        {
          assert rest[k] == names[k + 1];
        }
        SplitCommaList(rest);
      }
      var pieces := SplitOn(Join(names, ", "), ',');
      assert pieces == [names[0]] + SplitOn(" " + x, ',') by {
        JoinCommaSpace(names);
        assert PlainName(names[0]);
        SplitPrefix(names[0], ',', " " + x);
      }
      assert SplitOn(" " + x, ',') == [" " + tail[0]] + tail[1..] by {
        assert (" " + x)[1..] == x;
      }
      assert forall k :: 1 <= k < |names| ==> names[k] == rest[k - 1];
    } else {
      SplitNoSep(names[0], ',');
    }
  }

  /** The fallback drops nothing from pieces that are all non-empty. */
  lemma {:induction false} FilledAll(parts: seq<string>)
    requires forall k :: 0 <= k < |parts| ==> parts[k] != ""
    ensures Filled(parts) == parts
    decreases |parts|
  {
    if parts != [] {
      FilledAll(parts[1..]);
    }
  }

  /** A list joined from non-empty names that start and end as plain names do has nothing to strip: no space and no bracket at either end. */
  lemma JoinedEnds(names: seq<string>, sep: string)
    requires |names| > 0 && forall k :: 0 <= k < |names| ==> names[k] != []
    requires PlainName(names[0]) && PlainName(names[|names| - 1])
    ensures Strip(Join(names, sep)) == Join(names, sep)
    ensures StripChars(Join(names, sep), {'[', ']'}) == Join(names, sep)
  {
    var text := Join(names, sep);
    JoinEnds(names, sep);
    StripUnchanged(text);
    StripCharsUnchanged(text, {'[', ']'});
  }

  /** Unquoting the pieces a list of plain names splits into gives the names. */
  lemma UnquotePieces(pieces: seq<string>, names: seq<string>)
    requires |pieces| == |names| > 0 && forall k :: 0 <= k < |names| ==> PlainName(names[k])
    requires pieces[0] == names[0] && forall k :: 1 <= k < |names| ==> pieces[k] == " " + names[k]
    ensures Seqs.Map(pieces, Unquote) == names
  {
    var unquoted := Seqs.Map(pieces, Unquote);
    forall k | 0 <= k < |names|
      ensures unquoted[k] == names[k]
    {
      var n := names[k];
      assert PlainName(n);
      UnquotePlain(n);
      if k == 0 {
        assert pieces[k] == n;
      } else {
        assert pieces[k] == " " + n;
      }
    }
  }

  /** The fallback reads a comma-and-space separated list of plain names back as the names. */
  lemma FallbackOfCommaList(names: seq<string>)
    requires |names| > 0 && forall k :: 0 <= k < |names| ==> PlainName(names[k])
    ensures Strip(Join(names, ", ")) == Join(names, ", ")
    ensures FallbackNames(Join(names, ", ")) == names
  {
    assert forall k :: 0 <= k < |names| ==> names[k] != [] by {
      forall k | 0 <= k < |names|
        ensures names[k] != []
      {
        assert PlainName(names[k]);
      }
    }
    JoinedEnds(names, ", ");
    SplitCommaList(names);
    UnquotePieces(SplitOn(Join(names, ", "), ','), names);
    FilledAll(names);
  }

  /**
   * A cell `literal_eval` cannot parse, holding plain names distinct up to case separated
   * by a comma and a space, gives exactly those names.
   */
  lemma ClientListOfCommaText(names: seq<string>, literal: string -> Literal)
    requires |names| > 0 && forall k :: 0 <= k < |names| ==> PlainName(names[k])
    requires forall i, j :: 0 <= i < j < |names| ==> Lower(names[i]) != Lower(names[j])
    requires literal(Join(names, ", ")) == Unparsed
    ensures ClientList(Join(names, ", "), literal) == names
  {
    var text := Join(names, ", ");
    assert text != "" by {
      assert PlainName(names[0]);
      JoinEnds(names, ", ");
    }
    FallbackOfCommaList(names);
    ClientListOfStripped(text, literal);
    assert LiteralNames(literal(text)) == None;
    FirstSpellingsDistinct(names);
    calc {
      ClientList(text, literal);
      FirstSpellings(ParsedNames(text, literal));
      FirstSpellings(FallbackNames(text));
      FirstSpellings(names);
      names;
    }
  }

  /** A cell with nothing to strip is de-duplicated from what it parses to. */
  lemma ClientListOfStripped(raw: string, literal: string -> Literal)
    requires raw != "" && Strip(raw) == raw
    ensures ClientList(raw, literal) == FirstSpellings(ParsedNames(raw, literal))
  {
  }

  /** An empty list names no client, whether `literal_eval` reads it or the fallback does. */
  lemma ClientListOfEmptyList(literal: string -> Literal)
    requires literal("[]") == ListValue([]) || literal("[]") == Unparsed
    ensures ClientList("[]", literal) == []
  {
    StripUnchanged("[]");
    if literal("[]") == Unparsed {
      assert StripChars("[]", {'[', ']'}) == "";
    }
  }

  // ---------------------------------------------------------------------------
  // Idea and observation texts
  // ---------------------------------------------------------------------------

  /** An idea as written: title, stripped text, and the author or None when blank. */
  datatype Idea = Idea(title: string, text: string, createdBy: Option<string>)

  /** The idea as `create_idea` and `update_idea` store it. */
  function IdeaOf(trade: string, salesFeedback: string, createdBy: string): Idea {
    var author := Strip(createdBy);
    Idea(Strip(trade), Strip(IdeaText(trade, salesFeedback)), if author == "" then None else Some(author))
  }

  const TradeLabel := "Trade: "
  const FeedbackLabel := "Sales Feedback: "
  const AuthorLabel := "Created By: "

  /** `build_idea_text`: the trade line, and the feedback line after an empty line when the feedback is not blank. */
  function IdeaText(trade: string, salesFeedback: string): string {
    var t, f := Strip(trade), Strip(salesFeedback);
    if f != "" then TradeLabel + t + "\n\n" + FeedbackLabel + f else TradeLabel + t
  }

  /** No line break in the text. */
  predicate OneLine(s: string) {
    '\n' !in s
  }

  lemma LabelsOneLine()
    ensures OneLine(TradeLabel) && OneLine(FeedbackLabel) && OneLine(AuthorLabel)
  {
  }

  /** A text with a label before it holds no line break when neither does. */
  lemma LabeledOneLine(prefix: string, s: string)
    requires OneLine(prefix) && OneLine(s)
    ensures OneLine(prefix + s)
  {
  }

  /** Splitting lines that hold no line break, joined with line breaks, gives them back. */
  lemma SplitLines(lines: seq<string>)
    requires |lines| > 0 && forall k :: 0 <= k < |lines| ==> OneLine(lines[k])
    ensures SplitOn(Join(lines, "\n"), '\n') == lines
  {
    assert forall k, i :: 0 <= k < |lines| && 0 <= i < |lines[k]| ==> lines[k][i] != '\n' by {
      forall k, i | 0 <= k < |lines| && 0 <= i < |lines[k]|
        ensures lines[k][i] != '\n'
      {
        assert OneLine(lines[k]);
      }
    }
    SplitJoin(lines, '\n');
  }

  /** Two single lines with an empty line between them split back into the three lines. */
  lemma SplitParagraphs(a: string, b: string)
    requires OneLine(a) && OneLine(b)
    ensures SplitOn(a + "\n\n" + b, '\n') == [a, "", b]
  {
    var lines := [a, "", b];
    assert lines[1..] == ["", b] && ["", b][1..] == [b];
    assert Join([b], "\n") == b;
    assert Join(["", b], "\n") == "" + "\n" + b;
    assert Join(lines, "\n") == a + "\n" + ("" + "\n" + b);
    assert a + "\n" + ("" + "\n" + b) == a + "\n\n" + b;
    SplitLines(lines);
  }

  /**
   * The idea text is the trade line alone when the feedback is blank, and otherwise the
   * trade line, an empty line and the feedback line.
   */
  lemma IdeaTextLines(trade: string, salesFeedback: string)
    requires OneLine(Strip(trade)) && OneLine(Strip(salesFeedback))
    ensures var t, f := Strip(trade), Strip(salesFeedback);
      SplitOn(IdeaText(trade, salesFeedback), '\n')
        == if f == "" then [TradeLabel + t] else [TradeLabel + t, "", FeedbackLabel + f]
  {
    var t, f := Strip(trade), Strip(salesFeedback);
    LabelsOneLine();
    LabeledOneLine(TradeLabel, t);
    LabeledOneLine(FeedbackLabel, f);
    if f == "" {
      SplitLines([TradeLabel + t]);
    } else {
      assert TradeLabel + t + "\n\n" + FeedbackLabel + f == TradeLabel + t + "\n\n" + (FeedbackLabel + f);
      SplitParagraphs(TradeLabel + t, FeedbackLabel + f);
    }
  }

  /** The lines of `build_observation_text`: the trade, then the feedback and the author when not blank. */
  function ObservationLines(trade: string, salesFeedback: string, createdBy: string): seq<string> {
    var f, c := Strip(salesFeedback), Strip(createdBy);
    [TradeLabel + Strip(trade)]
      + (if f != "" then [FeedbackLabel + f] else [])
      + (if c != "" then [AuthorLabel + c] else [])
  }

  /** `build_observation_text`. */
  function ObservationText(trade: string, salesFeedback: string, createdBy: string): string {
    Join(ObservationLines(trade, salesFeedback, createdBy), "\n")
  }

  /** A first line followed by optional ones: where each sits, and how many there are. */
  lemma OptionalLines(a: string, b: string, d: string, withB: bool, withD: bool)
    ensures var lines := [a] + (if withB then [b] else []) + (if withD then [d] else []);
      && |lines| == 1 + (if withB then 1 else 0) + (if withD then 1 else 0)
      && lines[0] == a && (withB ==> lines[1] == b) && (withD ==> lines[|lines| - 1] == d)
      && (OneLine(a) && OneLine(b) && OneLine(d) ==> forall k :: 0 <= k < |lines| ==> OneLine(lines[k]))
  {
  }

  /** Every line of the observation holds no line break when the values it shows hold none. */
  lemma ObservationLinesOneLine(trade: string, salesFeedback: string, createdBy: string)
    requires OneLine(Strip(trade)) && OneLine(Strip(salesFeedback)) && OneLine(Strip(createdBy))
    ensures var lines := ObservationLines(trade, salesFeedback, createdBy);
      |lines| > 0 && forall k :: 0 <= k < |lines| ==> OneLine(lines[k])
  {
    var f, c := Strip(salesFeedback), Strip(createdBy);
    var a, b, d := TradeLabel + Strip(trade), FeedbackLabel + f, AuthorLabel + c;
    LabelsOneLine();
    LabeledOneLine(TradeLabel, Strip(trade));
    LabeledOneLine(FeedbackLabel, f);
    LabeledOneLine(AuthorLabel, c);
    OptionalLines(a, b, d, f != "", c != "");
  }

  /** The observation text splits on its line breaks back into its lines. */
  lemma ObservationTextSplits(trade: string, salesFeedback: string, createdBy: string)
    requires OneLine(Strip(trade)) && OneLine(Strip(salesFeedback)) && OneLine(Strip(createdBy))
    ensures SplitOn(ObservationText(trade, salesFeedback, createdBy), '\n') == ObservationLines(trade, salesFeedback, createdBy)
  {
    ObservationLinesOneLine(trade, salesFeedback, createdBy);
    SplitLines(ObservationLines(trade, salesFeedback, createdBy));
  }

  /**
   * Read back line by line, the observation text starts with the trade, carries a feedback
   * line exactly when the feedback is not blank and an author line, last, exactly when the
   * author is not blank.
   */
  lemma ObservationTextLines(trade: string, salesFeedback: string, createdBy: string)
    requires OneLine(Strip(trade)) && OneLine(Strip(salesFeedback)) && OneLine(Strip(createdBy))
    ensures var lines, f, c := SplitOn(ObservationText(trade, salesFeedback, createdBy), '\n'),
                              Strip(salesFeedback), Strip(createdBy);
      && lines[0] == TradeLabel + Strip(trade)
      && |lines| == 1 + (if f != "" then 1 else 0) + (if c != "" then 1 else 0)
      && (f != "" ==> lines[1] == FeedbackLabel + f)
      && (c != "" ==> lines[|lines| - 1] == AuthorLabel + c)
  {
    ObservationTextSplits(trade, salesFeedback, createdBy);
    var f, c := Strip(salesFeedback), Strip(createdBy);
    OptionalLines(TradeLabel + Strip(trade), FeedbackLabel + f, AuthorLabel + c, f != "", c != "");
  }

  // ---------------------------------------------------------------------------
  // What the run reads and writes
  // ---------------------------------------------------------------------------

  /**
   * What the loader takes from the repository: `CLIENT_TYPES`, the default client type and
   * the observation type it is called with, `ast.literal_eval`, the idea and client lookups
   * and each client's stored (type, stripped text) observation pairs as they stand when the
   * run starts, and the ids the repository hands out next.
   */
  datatype TradeEnv = TradeEnv(
    clientTypes: seq<string>, defaultClientType: string, observationType: string,
    literal: string -> Literal,
    existingIdea: string -> Option<int>, existingClient: string -> Option<int>,
    storedObservations: int -> set<(string, string)>,
    firstIdeaId: int, firstClientId: int)

  /** A client the run creates, with the default client type. */
  datatype NewClient = NewClient(clientId: int, clientName: string, clientType: string)

  /** An observation the run adds, with its stripped text. */
  datatype Observation = Observation(clientId: int, obsType: string, text: string)

  /** The counters, the touched clients and what the run has written so far. */
  datatype TradeRun = TradeRun(
    rowsProcessed: nat, ideasCreated: nat, ideasUpdated: nat, clientsCreated: nat, observationsCreated: nat,
    nextIdeaId: int, nextClientId: int,
    ideaIds: map<string, int>, clientIds: map<string, int>,
    ideas: map<int, Idea>, newClients: seq<NewClient>, observations: seq<Observation>,
    touched: set<int>)

  function Start(env: TradeEnv): TradeRun {
    TradeRun(0, 0, 0, 0, 0, env.firstIdeaId, env.firstClientId, map[], map[], map[], [], [], {})
  }

  /** `get_idea_by_title`: an idea this run created under the title, else the repository's. */
  function FindIdea(run: TradeRun, env: TradeEnv, title: string): Option<int> {
    if title in run.ideaIds then Some(run.ideaIds[title]) else env.existingIdea(title)
  }

  /** `resolve_client_by_name_or_alias`: a client this run created under the name, else the repository's. */
  function FindClient(run: TradeRun, env: TradeEnv, name: string): Option<int> {
    if name in run.clientIds then Some(run.clientIds[name]) else env.existingClient(name)
  }

  /** The client already has an observation with this (type, stripped text). */
  predicate Known(run: TradeRun, env: TradeEnv, clientId: int, key: (string, string)) {
    key in env.storedObservations(clientId) || Observation(clientId, key.0, key.1) in run.observations
  }

  /** The dedup key of a row's observation. */
  function ObsKey(text: string, env: TradeEnv): (string, string) {
    (env.observationType, Strip(text))
  }

  /** The idea of a row: updated under the id found for its title, or created under the next id. */
  function IdeaStep(run: TradeRun, r: TradeRow, env: TradeEnv): TradeRun {
    match FindIdea(run, env, r.trade)
    case Some(id) => run.(ideasUpdated := run.ideasUpdated + 1, ideas := run.ideas[id := r.idea])
    case None =>
      var id := run.nextIdeaId;
      run.(ideasCreated := run.ideasCreated + 1, nextIdeaId := id + 1,
           ideaIds := run.ideaIds[r.trade := id], ideas := run.ideas[id := r.idea])
  }

  datatype Resolved = Resolved(id: int, run: TradeRun)

  /** The client of a name: found, or created under the next id with the default client type. */
  function ResolveClient(run: TradeRun, env: TradeEnv, name: string): Resolved {
    match FindClient(run, env, name)
    case Some(id) => Resolved(id, run)
    case None =>
      var id := run.nextClientId;
      Resolved(id, run.(clientsCreated := run.clientsCreated + 1, nextClientId := id + 1,
                        clientIds := run.clientIds[name := id],
                        newClients := run.newClients + [NewClient(id, Strip(name), env.defaultClientType)]))
  }

  /** One client of a row: resolved, touched, and given the observation unless it already has it. */
  function ClientStep(run: TradeRun, name: string, text: string, env: TradeEnv): TradeRun {
    var res := ResolveClient(run, env, name);
    var next := res.run.(touched := res.run.touched + {res.id});
    var key := ObsKey(text, env);
    if Known(next, env, res.id, key) then next
    else next.(observations := next.observations + [Observation(res.id, key.0, key.1)],
               observationsCreated := next.observationsCreated + 1)
  }

  /** The clients of a row, in order. */
  function ClientsStep(run: TradeRun, names: seq<string>, text: string, env: TradeEnv): TradeRun
    decreases |names|
  {
    if names == [] then run
    else ClientStep(ClientsStep(run, names[..|names| - 1], text, env), names[|names| - 1], text, env)
  }

  /** One row of the loop: nothing when the trade is blank, else its idea and then its clients. */
  function Step(run: TradeRun, r: TradeRow, env: TradeEnv): TradeRun {
    if r.trade == "" then run
    else
      ClientsStep(IdeaStep(run.(rowsProcessed := run.rowsProcessed + 1), r, env), r.clientNames, r.observationText, env)
  }

  /** The loop over the rows. */
  function Ingested(run: TradeRun, rows: seq<TradeRow>, env: TradeEnv): TradeRun
    decreases |rows|
  {
    if rows == [] then run else Step(Ingested(run, rows[..|rows| - 1], env), rows[|rows| - 1], env)
  }

  /** The loop over a row's clients. */
  method IngestClients(start: TradeRun, names: seq<string>, text: string, env: TradeEnv) returns (next: TradeRun)
    ensures next == ClientsStep(start, names, text, env)
  {
    next := start;
    var i := 0;
    while i < |names|
      invariant 0 <= i <= |names|
      invariant next == ClientsStep(start, names[..i], text, env)
    {
      assert names[..i + 1][..i] == names[..i];
      next := ClientStep(next, names[i], text, env);
      i := i + 1;
    }
    assert names[..|names|] == names;
  }

  /** One row: nothing when the trade is blank, else its idea and then the loop over its clients. */
  method IngestRow(run: TradeRun, r: TradeRow, env: TradeEnv) returns (next: TradeRun)
    ensures next == Step(run, r, env)
  {
    if r.trade == "" {
      return run;
    }
    next := IdeaStep(run.(rowsProcessed := run.rowsProcessed + 1), r, env);
    next := IngestClients(next, r.clientNames, r.observationText, env);
  }

  // ---------------------------------------------------------------------------
  // Counters and the observation dedup
  // ---------------------------------------------------------------------------

  /**
   * The counters agree with what was written: every processed row created or updated one
   * idea, ids were handed out in order, and the run's observations are pairwise distinct,
   * absent from the client's stored ones, and each made for a touched client.
   */
  predicate Consistent(run: TradeRun, env: TradeEnv) {
    && run.rowsProcessed == run.ideasCreated + run.ideasUpdated
    && run.nextIdeaId == env.firstIdeaId + run.ideasCreated
    && run.nextClientId == env.firstClientId + run.clientsCreated
    && |run.newClients| == run.clientsCreated
    && (forall k :: 0 <= k < |run.newClients| ==> run.newClients[k].clientId == env.firstClientId + k)
    && run.observationsCreated == |run.observations|
    && (forall i, j :: 0 <= i < j < |run.observations| ==> run.observations[i] != run.observations[j])
    && (forall o :: o in run.observations ==>
          (o.obsType, o.text) !in env.storedObservations(o.clientId) && o.clientId in run.touched)
  }

  /** A client step keeps the run consistent and adds an observation exactly when the client lacked it. */
  lemma ClientStepConsistent(run: TradeRun, name: string, text: string, env: TradeEnv)
    requires Consistent(run, env)
    ensures var next, res := ClientStep(run, name, text, env), ResolveClient(run, env, name);
      && Consistent(next, env)
      && next.observationsCreated
           == run.observationsCreated + (if Known(run, env, res.id, ObsKey(text, env)) then 0 else 1)
  {
    var res := ResolveClient(run, env, name);
    var key := ObsKey(text, env);
    var next := TouchedResolved(run, env, name);
    if !Known(next, env, res.id, key) {
      var o := Observation(res.id, key.0, key.1);
      var obs := next.observations + [o];
      forall i, j | 0 <= i < j < |obs|
        ensures obs[i] != obs[j]
      {
        if j == |obs| - 1 {
          assert obs[i] in run.observations;
        }
      }
    }
  }

  /** Resolving a client and touching it keeps the run consistent and its observations as they were. */
  lemma TouchedResolved(run: TradeRun, env: TradeEnv, name: string) returns (next: TradeRun)
    requires Consistent(run, env)
    ensures var res := ResolveClient(run, env, name);
      && next == res.run.(touched := res.run.touched + {res.id})
      && Consistent(next, env)
      && next.observations == run.observations && next.observationsCreated == run.observationsCreated
      && run.touched <= next.touched
  {
    var res := ResolveClient(run, env, name);
    next := res.run.(touched := res.run.touched + {res.id});
    assert next.observations == run.observations && run.touched <= next.touched;
  }

  lemma {:induction false} ClientsStepConsistent(run: TradeRun, names: seq<string>, text: string, env: TradeEnv)
    requires Consistent(run, env)
    ensures var next := ClientsStep(run, names, text, env);
      Consistent(next, env) && next.rowsProcessed == run.rowsProcessed
    decreases |names|
  {
    if names != [] {
      ClientsStepConsistent(run, names[..|names| - 1], text, env);
      ClientStepConsistent(ClientsStep(run, names[..|names| - 1], text, env), names[|names| - 1], text, env);
    }
  }

  /** A row keeps the run consistent and counts itself exactly when its trade is not blank. */
  lemma StepConsistent(run: TradeRun, r: TradeRow, env: TradeEnv)
    requires Consistent(run, env)
    ensures var next := Step(run, r, env);
      Consistent(next, env) && next.rowsProcessed == run.rowsProcessed + (if r.trade == "" then 0 else 1)
  {
    if r.trade != "" {
      var idea := IdeaStep(run.(rowsProcessed := run.rowsProcessed + 1), r, env);
      IdeaStepConsistent(run, r, env);
      ClientsStepConsistent(idea, r.clientNames, r.observationText, env);
      assert Step(run, r, env) == ClientsStep(idea, r.clientNames, r.observationText, env);
    }
  }

  /** Counting a row and creating or updating its idea keeps the run consistent. */
  lemma IdeaStepConsistent(run: TradeRun, r: TradeRow, env: TradeEnv)
    requires Consistent(run, env)
    ensures var idea := IdeaStep(run.(rowsProcessed := run.rowsProcessed + 1), r, env);
      Consistent(idea, env) && idea.rowsProcessed == run.rowsProcessed + 1
  {
    var counted := run.(rowsProcessed := run.rowsProcessed + 1);
    var idea := IdeaStep(counted, r, env);
    assert idea.observations == run.observations && idea.newClients == run.newClients;
    assert idea.touched == run.touched;
  }

  /** The number of rows whose trade is not blank. */
  function TradeCount(rows: seq<TradeRow>): nat
    decreases |rows|
  {
    if rows == [] then 0
    else TradeCount(rows[..|rows| - 1]) + (if rows[|rows| - 1].trade == "" then 0 else 1)
  }

  /** Every run is consistent, and it processed exactly the rows with a non-blank trade. */
  lemma {:induction false} IngestedConsistent(rows: seq<TradeRow>, env: TradeEnv)
    ensures var run := Ingested(Start(env), rows, env);
      Consistent(run, env) && run.rowsProcessed == TradeCount(rows)
    decreases |rows|
  {
    if rows != [] {
      IngestedConsistent(rows[..|rows| - 1], env);
      StepConsistent(Ingested(Start(env), rows[..|rows| - 1], env), rows[|rows| - 1], env);
    }
  }

  // ---------------------------------------------------------------------------
  // Re-ingesting the same sheet
  // ---------------------------------------------------------------------------

  /** Later in the run: what was found is still found under the same id, and no observation is lost. */
  ghost predicate Extends(run: TradeRun, later: TradeRun, env: TradeEnv) {
    && (forall t :: FindIdea(run, env, t).Some? ==> FindIdea(later, env, t) == FindIdea(run, env, t))
    && (forall n :: FindClient(run, env, n).Some? ==> FindClient(later, env, n) == FindClient(run, env, n))
    && (forall o :: o in run.observations ==> o in later.observations)
  }

  lemma ExtendsTransitive(a: TradeRun, b: TradeRun, c: TradeRun, env: TradeEnv)
    requires Extends(a, b, env) && Extends(b, c, env)
    ensures Extends(a, c, env)
  {
  }

  /** After a client step the name is found, its client has the row's observation, and nothing found is lost. */
  lemma ClientStepRecords(run: TradeRun, name: string, text: string, env: TradeEnv)
    ensures var next := ClientStep(run, name, text, env);
      && Extends(run, next, env)
      && FindClient(next, env, name) == Some(ResolveClient(run, env, name).id)
      && Known(next, env, ResolveClient(run, env, name).id, ObsKey(text, env))
  {
    var next := ClientStep(run, name, text, env);
    var res := ResolveClient(run, env, name);
    ResolveExtends(run, env, name);
    assert next.clientIds == res.run.clientIds && next.ideaIds == run.ideaIds;
    assert forall o :: o in res.run.observations ==> o in next.observations;
  }

  /** Resolving a name finds it afterwards and loses no client, idea or observation. */
  lemma ResolveExtends(run: TradeRun, env: TradeEnv, name: string)
    ensures var res := ResolveClient(run, env, name);
      && FindClient(res.run, env, name) == Some(res.id)
      && res.run.ideaIds == run.ideaIds && res.run.observations == run.observations
      && (forall n :: FindClient(run, env, n).Some? ==> FindClient(res.run, env, n) == FindClient(run, env, n))
  {
    var res := ResolveClient(run, env, name);
    forall n | FindClient(run, env, n).Some?
      ensures FindClient(res.run, env, n) == FindClient(run, env, n)
    {
      if FindClient(run, env, name).None? {
        assert n != name;
      }
    }
  }

  /** After the clients of a row, each of them is found and has the row's observation. */
  lemma {:induction false} ClientsStepRecords(run: TradeRun, names: seq<string>, text: string, env: TradeEnv)
    ensures var next := ClientsStep(run, names, text, env);
      && Extends(run, next, env)
      && forall k :: 0 <= k < |names| ==>
           FindClient(next, env, names[k]).Some? && Known(next, env, FindClient(next, env, names[k]).value, ObsKey(text, env))
    decreases |names|
  {
    if names != [] {
      var init, last := names[..|names| - 1], names[|names| - 1];
      var mid := ClientsStep(run, init, text, env);
      var next := ClientsStep(run, names, text, env);
      ClientsStepRecords(run, init, text, env);
      ClientStepRecords(mid, last, text, env);
      ExtendsTransitive(run, mid, next, env);
      forall k | 0 <= k < |init|
        ensures FindClient(next, env, names[k]).Some?
        ensures Known(next, env, FindClient(next, env, names[k]).value, ObsKey(text, env))
      {
        assert names[k] == init[k];
        var id := FindClient(mid, env, init[k]).value;
        assert Known(mid, env, id, ObsKey(text, env));
        assert FindClient(next, env, names[k]) == Some(id);
      }
    }
  }

  /** Once the row is processed, its title, its clients and their observations are all on record. */
  predicate Recorded(run: TradeRun, env: TradeEnv, r: TradeRow) {
    r.trade == "" ||
      (&& FindIdea(run, env, r.trade).Some?
       && var names, key := r.clientNames, ObsKey(r.observationText, env);
          forall k :: 0 <= k < |names| ==>
            FindClient(run, env, names[k]).Some? && Known(run, env, FindClient(run, env, names[k]).value, key))
  }

  lemma RecordedExtends(run: TradeRun, later: TradeRun, env: TradeEnv, r: TradeRow)
    requires Recorded(run, env, r) && Extends(run, later, env)
    ensures Recorded(later, env, r)
  {
    if r.trade != "" {
      var names := r.clientNames;
      forall k | 0 <= k < |names|
        ensures FindClient(later, env, names[k]) == FindClient(run, env, names[k])
      {
      }
    }
  }

  lemma StepRecords(run: TradeRun, r: TradeRow, env: TradeEnv)
    ensures Extends(run, Step(run, r, env), env) && Recorded(Step(run, r, env), env, r)
  {
    if r.trade != "" {
      var counted := run.(rowsProcessed := run.rowsProcessed + 1);
      var idea := IdeaStep(counted, r, env);
      assert Extends(run, idea, env) by {
        forall t | FindIdea(run, env, t).Some?
          ensures FindIdea(idea, env, t) == FindIdea(run, env, t)
        {
          if FindIdea(run, env, r.trade).None? {
            assert t != r.trade;
          }
        }
      }
      assert FindIdea(idea, env, r.trade).Some?;
      var names, text := r.clientNames, r.observationText;
      ClientsStepRecords(idea, names, text, env);
      ExtendsTransitive(run, idea, Step(run, r, env), env);
    }
  }

  /** After the whole sheet, every row is on record. */
  lemma {:induction false} IngestedRecords(run: TradeRun, rows: seq<TradeRow>, env: TradeEnv)
    ensures Extends(run, Ingested(run, rows, env), env)
    ensures forall i :: 0 <= i < |rows| ==> Recorded(Ingested(run, rows, env), env, rows[i])
    decreases |rows|
  {
    if rows != [] {
      var init := rows[..|rows| - 1];
      var mid := Ingested(run, init, env);
      var last := Ingested(run, rows, env);
      IngestedRecords(run, init, env);
      StepRecords(mid, rows[|rows| - 1], env);
      ExtendsTransitive(run, mid, last, env);
      forall i | 0 <= i < |init|
        ensures Recorded(last, env, rows[i])
      {
        assert rows[i] == init[i];
        RecordedExtends(mid, last, env, rows[i]);
      }
    }
  }

  /** The (type, text) pairs of the observations a run added to a client. */
  function AddedFor(run: TradeRun, clientId: int): set<(string, string)> {
    set o | o in run.observations && o.clientId == clientId :: (o.obsType, o.text)
  }

  /** The repository as a run leaves it, seen by the next run over it. */
  function Reloaded(env: TradeEnv, run: TradeRun): TradeEnv {
    env.(existingIdea := t => FindIdea(run, env, t),
         existingClient := n => FindClient(run, env, n),
         storedObservations := id => env.storedObservations(id) + AddedFor(run, id),
         firstIdeaId := run.nextIdeaId, firstClientId := run.nextClientId)
  }

  lemma RecordedReloaded(run: TradeRun, env: TradeEnv, r: TradeRow)
    requires Recorded(run, env, r)
    ensures Recorded(Start(Reloaded(env, run)), Reloaded(env, run), r)
  {
    var env2 := Reloaded(env, run);
    if r.trade != "" {
      var names, key := r.clientNames, ObsKey(r.observationText, env);
      forall k | 0 <= k < |names|
        ensures Known(Start(env2), env2, FindClient(Start(env2), env2, names[k]).value, key)
      {
        var id := FindClient(run, env, names[k]).value;
        if Observation(id, key.0, key.1) in run.observations {
          assert key in AddedFor(run, id);
        }
      }
    }
  }

  /** Nothing created or written yet: the run only updates ideas. */
  predicate Quiet(run: TradeRun) {
    && run.ideaIds == map[] && run.clientIds == map[] && run.observations == []
    && run.ideasCreated == 0 && run.clientsCreated == 0 && run.observationsCreated == 0
    && run.ideasUpdated == run.rowsProcessed
  }

  lemma {:induction false} ClientsStepQuiet(run: TradeRun, names: seq<string>, text: string, env: TradeEnv)
    requires Quiet(run)
    requires forall k :: 0 <= k < |names| ==>
      env.existingClient(names[k]).Some? && ObsKey(text, env) in env.storedObservations(env.existingClient(names[k]).value)
    ensures var next := ClientsStep(run, names, text, env);
      Quiet(next) && next.rowsProcessed == run.rowsProcessed
    decreases |names|
  {
    if names != [] {
      ClientsStepQuiet(run, names[..|names| - 1], text, env);
    }
  }

  /** A row already on record at the start of a run creates nothing. */
  lemma StepQuiet(run: TradeRun, r: TradeRow, env: TradeEnv)
    requires Quiet(run) && Recorded(Start(env), env, r)
    ensures Quiet(Step(run, r, env))
    ensures Step(run, r, env).rowsProcessed == run.rowsProcessed + (if r.trade == "" then 0 else 1)
  {
    if r.trade != "" {
      var idea := IdeaStep(run.(rowsProcessed := run.rowsProcessed + 1), r, env);
      var names, text := r.clientNames, r.observationText;
      assert Quiet(idea);
      forall k | 0 <= k < |names|
        ensures env.existingClient(names[k]).Some?
        ensures ObsKey(text, env) in env.storedObservations(env.existingClient(names[k]).value)
      {
        assert FindClient(Start(env), env, names[k]) == env.existingClient(names[k]);
      }
      ClientsStepQuiet(idea, names, text, env);
    }
  }

  lemma {:induction false} IngestedQuiet(rows: seq<TradeRow>, env: TradeEnv)
    requires forall i :: 0 <= i < |rows| ==> Recorded(Start(env), env, rows[i])
    ensures var run := Ingested(Start(env), rows, env);
      Quiet(run) && run.rowsProcessed == TradeCount(rows)
    decreases |rows|
  {
    if rows != [] {
      var init := rows[..|rows| - 1];
      assert forall i :: 0 <= i < |init| ==> init[i] == rows[i];
      IngestedQuiet(init, env);
      StepQuiet(Ingested(Start(env), init, env), rows[|rows| - 1], env);
    }
  }

  /**
   * Running the loader a second time over the same sheet, against the repository the first
   * run left, processes the same rows, updates an idea for each and creates no idea, no
   * client and no observation.
   */
  lemma ReingestCreatesNothing(rows: seq<TradeRow>, env: TradeEnv)
    ensures var first := Ingested(Start(env), rows, env);
      var env2 := Reloaded(env, first);
      var second := Ingested(Start(env2), rows, env2);
      && second.rowsProcessed == first.rowsProcessed
      && second.ideasUpdated == first.rowsProcessed
      && second.ideasCreated == 0 && second.clientsCreated == 0 && second.observationsCreated == 0
  {
    var first := Ingested(Start(env), rows, env);
    var env2 := Reloaded(env, first);
    IngestedConsistent(rows, env);
    IngestedRecords(Start(env), rows, env);
    forall i | 0 <= i < |rows|
      ensures Recorded(Start(env2), env2, rows[i])
    {
      RecordedReloaded(first, env, rows[i]);
    }
    IngestedQuiet(rows, env2);
  }

  // ---------------------------------------------------------------------------
  // The whole sheet
  // ---------------------------------------------------------------------------

  /** Why a sheet is refused before any row is read. */
  datatype TradeError = InvalidClientType(clientType: string) | NoHeader

  /** The counters `ingest_trade_csv` returns, with what the run wrote and the clients it touched. */
  datatype TradeReport = TradeReport(
    rowsProcessed: nat, ideasCreated: nat, ideasUpdated: nat, clientsCreated: nat, observationsCreated: nat,
    ideas: map<int, Idea>, newClients: seq<NewClient>, observations: seq<Observation>, touched: set<int>)

  function ReportOf(run: TradeRun): TradeReport {
    TradeReport(run.rowsProcessed, run.ideasCreated, run.ideasUpdated, run.clientsCreated, run.observationsCreated,
                run.ideas, run.newClients, run.observations, run.touched)
  }

  method IngestRows(rows: seq<TradeRow>, env: TradeEnv) returns (run: TradeRun)
    ensures run == Ingested(Start(env), rows, env)
  {
    run := Start(env);
    var i := 0;
    while i < |rows|
      invariant 0 <= i <= |rows|
      invariant run == Ingested(Start(env), rows[..i], env)
    {
      assert rows[..i + 1][..i] == rows[..i];
      run := IngestRow(run, rows[i], env);
      i := i + 1;
    }
    assert rows[..|rows| - 0] == rows;
  }

  /**
   * `ingest_trade_csv`: an unknown default client type is refused before anything else, a
   * sheet without a header next; otherwise every row is read, and the counters are those
   * of the run, which is consistent.
   */
  method IngestTradeCsv(header: Option<seq<string>>, rows: seq<CsvRow>, env: TradeEnv)
    returns (result: Result<TradeReport, TradeError>)
    ensures env.defaultClientType !in env.clientTypes ==> result == Err(InvalidClientType(env.defaultClientType))
    ensures env.defaultClientType in env.clientTypes && (header.None? || header.value == []) ==> result == Err(NoHeader)
    ensures env.defaultClientType in env.clientTypes && header.Some? && header.value != [] ==>
      var run := Ingested(Start(env), ParseTradeRows(rows, env.literal), env);
      result == Ok(ReportOf(run)) && Consistent(run, env) && run.rowsProcessed == TradeCount(ParseTradeRows(rows, env.literal))
  {
    if env.defaultClientType !in env.clientTypes {
      return Err(InvalidClientType(env.defaultClientType));
    }
    if header.None? || header.value == [] {
      return Err(NoHeader);
    }
    var parsed := Seqs.MapEach(rows, RowParser(env.literal));
    var run := IngestRows(parsed, env);
    IngestedConsistent(parsed, env);
    result := Ok(ReportOf(run));
  }
}
