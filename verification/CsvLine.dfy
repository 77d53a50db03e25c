/** Splitting one line of a CSV file into its fields. */
module CsvLine {

  // ---- what a line means ----

  function Quotes(s: string): nat {
    if s == "" then 0 else (if s[0] == '"' then 1 else 0) + Quotes(s[1..])
  }

  /** The pieces of s between its separators, reading on after an odd number of quotes if odd. */
  function Segments(s: string, odd: bool): (segments: seq<string>)
    ensures segments != []
  {
    if s == "" then [""]
    else if s[0] == ',' && !odd then [""] + Segments(s[1..], false)
    else
      var rest := Segments(s[1..], odd != (s[0] == '"'));
      [[s[0]] + rest[0]] + rest[1..]
  }

  /** The text of a piece: quotes open and close, and a doubled quote inside them stands for one. */
  function Unescape(s: string, inQuotes: bool): string {
    if s == "" then ""
    else if s[0] != '"' then [s[0]] + Unescape(s[1..], inQuotes)
    else if inQuotes && |s| > 1 && s[1] == '"' then "\"" + Unescape(s[2..], true)
    else Unescape(s[1..], !inQuotes)
  }

  function UnescapeAll(segments: seq<string>): (fields: seq<string>)
    ensures |fields| == |segments|
  {
    if segments == [] then [] else [Unescape(segments[0], false)] + UnescapeAll(segments[1..])
  }

  function Fields(line: string): seq<string> {
    UnescapeAll(Segments(line, false))
  }

  /** What is still to be read: the rest of the field begun, and the fields after it. */
  function Remaining(s: string, inQuotes: bool): (fields: seq<string>)
    ensures fields != []
  {
    var segments := Segments(s, inQuotes);
    [Unescape(segments[0], inQuotes)] + UnescapeAll(segments[1..])
  }

  /** fields with s put before the first of them. */
  function Prepend(s: string, fields: seq<string>): seq<string>
    requires fields != []
  {
    [s + fields[0]] + fields[1..]
  }

  lemma DoubledQuote(s: string)
    requires |s| > 1 && s[0] == '"' && s[1] == '"'
    ensures Remaining(s, true) == Prepend("\"", Remaining(s[2..], true))
  {
    var rest := Segments(s[2..], true);
    assert s[1..][1..] == s[2..];
    assert Segments(s[1..], false) == [['"'] + rest[0]] + rest[1..];
    assert Segments(s, true) == [['"'] + (['"'] + rest[0])] + rest[1..];
    assert (['"'] + (['"'] + rest[0]))[2..] == rest[0];
  }

  lemma FirstOfSegment(s: string, odd: bool)
    ensures Segments(s, odd)[0] != "" ==> s != "" && s[0] == Segments(s, odd)[0][0]
  {
  }

  lemma SingleQuote(s: string, inQuotes: bool)
    requires s != "" && s[0] == '"' && !(inQuotes && |s| > 1 && s[1] == '"')
    ensures Remaining(s, inQuotes) == Remaining(s[1..], !inQuotes)
  {
    var rest := Segments(s[1..], !inQuotes);
    assert Segments(s, inQuotes) == [['"'] + rest[0]] + rest[1..];
    assert (['"'] + rest[0])[1..] == rest[0];
    FirstOfSegment(s[1..], !inQuotes);
  }

  lemma Separator(s: string)
    requires s != "" && s[0] == ','
    ensures Remaining(s, false) == [""] + Remaining(s[1..], false)
  {
  }

  lemma PlainChar(s: string, inQuotes: bool)
    requires s != "" && s[0] != '"' && !(s[0] == ',' && !inQuotes)
    ensures Remaining(s, inQuotes) == Prepend([s[0]], Remaining(s[1..], inQuotes))
  {
    var rest := Segments(s[1..], inQuotes);
    assert ([s[0]] + rest[0])[1..] == rest[0];
  }

  lemma RemainingNothing(inQuotes: bool)
    ensures Remaining("", inQuotes) == [""]
  {
  }

  lemma FieldsAreRemaining(line: string)
    ensures Fields(line) == Remaining(line, false)
  {
  }

  lemma PrependTwice(a: string, b: string, fields: seq<string>)
    requires fields != []
    ensures Prepend(a, Prepend(b, fields)) == Prepend(a + b, fields)
  {
    assert a + (b + fields[0]) == (a + b) + fields[0];
  }

  lemma NewField(current: string, fields: seq<string>)
    requires fields != []
    ensures Prepend(current, [""] + fields) == [current] + Prepend("", fields)
    ensures Prepend("", fields) == fields && Prepend(current, [""]) == [current]
  {
    assert current + "" == current && "" + fields[0] == fields[0];
  }

  method ParseCsvLine(line: string) returns (values: seq<string>)
    ensures values == Fields(line)
  {
    hide Remaining, Fields;
    values := [];
    var current, inQuotes, index := "", false, 0;
    FieldsAreRemaining(line);
    NewField("", Remaining(line, false));
    assert line[0..] == line;
    while index < |line|
      invariant 0 <= index <= |line|
      invariant Fields(line) == values + Prepend(current, Remaining(line[index..], inQuotes))
    {
      ghost var rest := line[index..];
      var c := line[index];
      if c == '"' {
        if inQuotes && index + 1 < |line| && line[index + 1] == '"' {
          DoubledQuote(rest);
          PrependTwice(current, "\"", Remaining(rest[2..], true));
          assert rest[2..] == line[index + 2..];
          current := current + "\"";
          index := index + 1;
        } else {
          SingleQuote(rest, inQuotes);
          inQuotes := !inQuotes;
        }
      } else if c == ',' && !inQuotes {
        Separator(rest);
        NewField(current, Remaining(rest[1..], false));
        values := values + [current];
        current := "";
      } else {
        PlainChar(rest, inQuotes);
        PrependTwice(current, [c], Remaining(rest[1..], inQuotes));
        current := current + [c];
      }
      assert rest[1..] == line[|line| - |rest| + 1..];
      index := index + 1;
    }
    RemainingNothing(inQuotes);
    NewField(current, [""]);
    assert line[index..] == "";
    values := values + [current];
  }

  // ---- where a line is split ----

  function Joined(segments: seq<string>): string {
    if segments == [] then ""
    else if |segments| == 1 then segments[0]
    else segments[0] + "," + Joined(segments[1..])
  }

  /** The places of the commas between the segments, the first segment beginning at the given one. */
  function Cuts(segments: seq<string>, at: nat): set<nat> {
    if |segments| <= 1 then {} else {at + |segments[0]|} + Cuts(segments[1..], at + |segments[0]| + 1)
  }

  /** A separator: a comma that an even number of quotes precedes, or an odd one when reading began inside quotes. */
  predicate SeparatorAt(s: string, odd: bool, i: int) {
    0 <= i < |s| && s[i] == ',' && (Quotes(s[..i]) % 2 == 1) == odd
  }

  predicate OddAfter(c: char, odd: bool) {
    odd != (c == '"')
  }

  lemma SeparatorTail(s: string, odd: bool, i: int)
    requires s != "" && i != 0
    ensures SeparatorAt(s, odd, i) <==> SeparatorAt(s[1..], OddAfter(s[0], odd), i - 1)
  {
    if 0 < i < |s| {
      assert s[..i][1..] == s[1..][..i - 1];
    }
  }

  lemma JoinedOfTail(s: string, odd: bool)
    requires s != ""
    ensures var rest := Segments(s[1..], OddAfter(s[0], odd)); Joined(Segments(s, odd)) == [s[0]] + Joined(rest)
  {
    var rest := Segments(s[1..], OddAfter(s[0], odd));
    if s[0] == ',' && !odd {
      assert Segments(s, odd)[1..] == rest;
    } else {
      assert Segments(s, odd) == [[s[0]] + rest[0]] + rest[1..];
    }
  }

  lemma {:induction false} SegmentsJoin(s: string, odd: bool)
    ensures Joined(Segments(s, odd)) == s
    decreases s
  {
    hide OddAfter;
    if s != "" {
      JoinedOfTail(s, odd);
      SegmentsJoin(s[1..], OddAfter(s[0], odd));
    }
  }

  lemma NoQuotesYet(s: string)
    ensures Quotes(s[..0]) == 0
  {
  }

  lemma {:induction false} LaterCuts(segments: seq<string>, at: nat)
    ensures forall i <- Cuts(segments, at) :: i >= at
    decreases segments
  {
    if |segments| > 1 { LaterCuts(segments[1..], at + |segments[0]| + 1); }
  }

  lemma CutsOfTail(s: string, odd: bool, at: nat)
    requires s != ""
    ensures Cuts(Segments(s, odd), at)
         == (if s[0] == ',' && !odd then {at} else {}) + Cuts(Segments(s[1..], OddAfter(s[0], odd)), at + 1)
  {
    var rest := Segments(s[1..], OddAfter(s[0], odd));
    if s[0] == ',' && !odd {
      assert Segments(s, odd)[1..] == rest;
    } else {
      assert Segments(s, odd)[1..] == rest[1..];
    }
  }

  lemma {:induction false} SegmentsCut(s: string, odd: bool, at: nat, i: nat)
    ensures i in Cuts(Segments(s, odd), at) <==> SeparatorAt(s, odd, i - at)
    decreases s
  {
    hide OddAfter, Quotes;
    if s != "" {
      SegmentsCut(s[1..], OddAfter(s[0], odd), at + 1, i);
      CutsOfTail(s, odd, at);
      LaterCuts(Segments(s[1..], OddAfter(s[0], odd)), at + 1);
      if i == at {
        NoQuotesYet(s);
      } else {
        SeparatorTail(s, odd, i - at);
      }
    }
  }

  /** Every line is cut at exactly the commas that an even number of quotes precedes, and nothing is lost. */
  lemma SplitsAtEvenCommas(line: string, i: nat)
    ensures Joined(Segments(line, false)) == line
    ensures i in Cuts(Segments(line, false), 0) <==> i < |line| && line[i] == ',' && Quotes(line[..i]) % 2 == 0
  {
    SegmentsJoin(line, false);
    SegmentsCut(line, false, 0, i);
  }

  function WithoutQuotes(s: string): string {
    if s == "" then "" else (if s[0] == '"' then "" else [s[0]]) + WithoutQuotes(s[1..])
  }

  /** Reading a piece drops at least half of its quotes and nothing else. */
  lemma {:induction false} UnescapeDropsQuotes(s: string, inQuotes: bool)
    ensures WithoutQuotes(Unescape(s, inQuotes)) == WithoutQuotes(s)
    ensures 2 * Quotes(Unescape(s, inQuotes)) <= Quotes(s)
    decreases s
  {
    if s == "" {
    } else if s[0] != '"' {
      UnescapeDropsQuotes(s[1..], inQuotes);
      assert Unescape(s, inQuotes)[1..] == Unescape(s[1..], inQuotes);
    } else if inQuotes && |s| > 1 && s[1] == '"' {
      UnescapeDropsQuotes(s[2..], true);
      assert Unescape(s, inQuotes)[1..] == Unescape(s[2..], true) && s[1..][1..] == s[2..];
    } else {
      UnescapeDropsQuotes(s[1..], !inQuotes);
    }
  }

  // ---- the printer of RFC 4180, section 2, rules 5 to 7 ----

  function Doubled(field: string): string {
    if field == "" then "" else (if field[0] == '"' then "\"\"" else [field[0]]) + Doubled(field[1..])
  }

  function PrintField(field: string, quoted: bool): string {
    if quoted then "\"" + Doubled(field) + "\"" else field
  }

  predicate MayStandBare(field: string) {
    '"' !in field && ',' !in field
  }

  function PrintLine(fields: seq<string>, quoted: seq<bool>): string
    requires fields != [] && |quoted| == |fields|
  {
    PrintField(fields[0], quoted[0]) + if |fields| == 1 then "" else "," + PrintLine(fields[1..], quoted[1..])
  }

  lemma {:induction false} ReadsBare(field: string, rest: string)
    requires MayStandBare(field)
    ensures Remaining(field + rest, false) == Prepend(field, Remaining(rest, false))
    decreases field
  {
    hide Remaining;
    if field == "" {
      assert field + rest == rest;
      NewField("", Remaining(rest, false));
    } else {
      assert (field + rest)[1..] == field[1..] + rest;
      ReadsBare(field[1..], rest);
      PlainChar(field + rest, false);
      PrependTwice([field[0]], field[1..], Remaining(rest, false));
      assert [field[0]] + field[1..] == field;
    }
  }

  lemma {:induction false} ReadsQuoted(field: string, rest: string)
    requires rest == "" || rest[0] != '"'
    ensures Remaining(Doubled(field) + "\"" + rest, true) == Prepend(field, Remaining(rest, false))
    decreases field
  {
    hide Remaining;
    var s := Doubled(field) + "\"" + rest;
    if field == "" {
      assert s == "\"" + rest && s[1..] == rest;
      SingleQuote(s, true);
      NewField("", Remaining(rest, false));
    } else {
      var tail := Doubled(field[1..]) + "\"" + rest;
      ReadsQuoted(field[1..], rest);
      if field[0] == '"' {
        assert s == "\"\"" + tail && s[2..] == tail;
        DoubledQuote(s);
      } else {
        assert s == [field[0]] + tail && s[1..] == tail;
        PlainChar(s, true);
      }
      PrependTwice([field[0]], field[1..], Remaining(rest, false));
      assert [field[0]] + field[1..] == field;
    }
  }

  lemma ReadsField(field: string, quoted: bool, rest: string)
    requires quoted || MayStandBare(field)
    requires rest == "" || rest[0] == ','
    ensures Remaining(PrintField(field, quoted) + rest, false) == Prepend(field, Remaining(rest, false))
  {
    hide Remaining;
    if quoted {
      var s := PrintField(field, quoted) + rest;
      assert s[1..] == Doubled(field) + "\"" + rest;
      SingleQuote(s, false);
      ReadsQuoted(field, rest);
    } else {
      ReadsBare(field, rest);
    }
  }

  /** Parsing undoes printing, whichever fields the printer chooses to quote beyond those it must. */
  lemma {:induction false} ParseUndoesPrint(fields: seq<string>, quoted: seq<bool>)
    requires fields != [] && |quoted| == |fields|
    requires forall i | 0 <= i < |fields| :: quoted[i] || MayStandBare(fields[i])
    ensures Fields(PrintLine(fields, quoted)) == fields
    decreases fields
  {
    hide Remaining, Fields, PrintField, MayStandBare;
    var line := PrintLine(fields, quoted);
    FieldsAreRemaining(line);
    if |fields| == 1 {
      ReadsField(fields[0], quoted[0], "");
      RemainingNothing(false);
      NewField(fields[0], [""]);
    } else {
      var rest := PrintLine(fields[1..], quoted[1..]);
      ParseUndoesPrint(fields[1..], quoted[1..]);
      ReadsField(fields[0], quoted[0], "," + rest);
      Separator("," + rest);
      assert ("," + rest)[1..] == rest;
      FieldsAreRemaining(rest);
      NewField(fields[0], fields[1..]);
    }
  }

  lemma {:induction false} QuotesCount(s: string)
    ensures Quotes(s) == 0 <==> '"' !in s
    decreases s
  {
    if s != "" {
      QuotesCount(s[1..]);
      assert '"' in s <==> s[0] == '"' || '"' in s[1..];
    }
  }

  lemma CommaCuts(field: string, i: nat)
    requires '"' !in field && i < |field| && field[i] == ','
    ensures |Segments(field, false)| > 1
  {
    QuotesCount(field[..i]);
    SegmentsCut(field, false, 0, i);
    assert i in Cuts(Segments(field, false), 0);
  }

  lemma ReadAsItself(field: string)
    requires Fields(field) == [field]
    ensures MayStandBare(field)
  {
    hide Unescape, Segments;
    var segments := Segments(field, false);
    assert |segments| == 1 && Fields(field)[0] == Unescape(segments[0], false);
    SegmentsJoin(field, false);
    UnescapeDropsQuotes(field, false);
    QuotesCount(field);
    if ',' in field {
      var i :| 0 <= i < |field| && field[i] == ',';
      CommaCuts(field, i);
    }
  }

  /** A field may stand bare exactly when it holds neither quote nor comma. */
  lemma BareExactly(field: string)
    ensures Fields(field) == [field] <==> MayStandBare(field)
  {
    hide Remaining, Fields;
    if MayStandBare(field) {
      ReadsBare(field, "");
      assert field + "" == field;
      FieldsAreRemaining(field);
      RemainingNothing(false);
      NewField(field, [""]);
    } else if Fields(field) == [field] {
      ReadAsItself(field);
    }
  }
}
