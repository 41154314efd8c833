/** The one-line CSV reader of the contact import: fields are separated by
    commas outside double quotes, a quote toggles quoting, and inside quotes
    a doubled quote stands for one quote character, as in section 2 of
    RFC 4180. Every field is trimmed. */
module CsvLine {
  import opened Base
  import opened JsText

  /** `p` glued in front of the first field. */
  function PrependStr(p: string, fs: seq<string>): (r: seq<string>)
    requires |fs| >= 1
    ensures |r| == |fs| && r[0] == p + fs[0] && r[1..] == fs[1..]
  {
    [p + fs[0]] + fs[1..]
  }

  /** The untrimmed fields of the rest of a line, read from a state that is
      inside quotes or not; the reading starts with an empty current field. */
  function Fields(line: string, inQuotes: bool): (r: seq<string>)
    ensures |r| >= 1
    decreases |line|
  {
    if line == [] then [""]
    else if line[0] == '"' then
      if inQuotes && |line| > 1 && line[1] == '"' then PrependStr("\"", Fields(line[2..], inQuotes))
      else Fields(line[1..], !inQuotes)
    else if line[0] == ',' && !inQuotes then [""] + Fields(line[1..], inQuotes)
    else PrependStr([line[0]], Fields(line[1..], inQuotes))
  }

  /** The fields `parseCsvLine` returns for a line. */
  function CsvFields(line: string): (r: seq<string>)
    ensures |r| >= 1
    ensures forall i :: 0 <= i < |r| ==> Trimmed(r[i])
  {
    TrimsAll(Fields(line, false));
    TrimAll(Fields(line, false))
  }

  lemma PrependPrepend(a: string, b: string, fs: seq<string>)
    requires |fs| >= 1
    ensures PrependStr(a, PrependStr(b, fs)) == PrependStr(a + b, fs)
  {
    assert a + (b + fs[0]) == (a + b) + fs[0];
  }

  lemma PrependEmpty(fs: seq<string>)
    requires |fs| >= 1
    ensures PrependStr("", fs) == fs
  {
    assert "" + fs[0] == fs[0];
  }

  /** The reading of the rest of a line from position `i`, one step. */
  lemma FieldsAt(line: string, i: nat, inQuotes: bool)
    requires i < |line|
    ensures Fields(line[i..], inQuotes) ==
      if line[i] == '"' then
        if inQuotes && i + 1 < |line| && line[i + 1] == '"' then PrependStr("\"", Fields(line[i + 2..], inQuotes))
        else Fields(line[i + 1..], !inQuotes)
      else if line[i] == ',' && !inQuotes then [""] + Fields(line[i + 1..], inQuotes)
      else PrependStr([line[i]], Fields(line[i + 1..], inQuotes))
  {
    var rest := line[i..];
    assert rest[1..] == line[i + 1..];
    if i + 1 < |line| {
      assert rest[2..] == line[i + 2..];
    }
  }

  /** The loop state of `parseCsvLine` after `i` characters: the fields
      closed so far, then the current field glued to what the rest of the
      line reads as, make up the fields of the whole line. */
  predicate Reading(line: string, i: nat, raw: seq<string>, cur: string, inQuotes: bool)
    requires i <= |line|
  {
    raw + PrependStr(cur, Fields(line[i..], inQuotes)) == Fields(line, false)
  }

  lemma ReadEscapedQuote(line: string, i: nat, raw: seq<string>, cur: string, inQuotes: bool)
    requires i + 1 < |line| && line[i] == '"' && line[i + 1] == '"' && inQuotes
    requires Reading(line, i, raw, cur, inQuotes)
    ensures Reading(line, i + 2, raw, cur + "\"", inQuotes)
  {
    FieldsAt(line, i, inQuotes);
    PrependPrepend(cur, "\"", Fields(line[i + 2..], inQuotes));
  }

  lemma ReadToggle(line: string, i: nat, raw: seq<string>, cur: string, inQuotes: bool)
    requires i < |line| && line[i] == '"'
    requires !(inQuotes && i + 1 < |line| && line[i + 1] == '"')
    requires Reading(line, i, raw, cur, inQuotes)
    ensures Reading(line, i + 1, raw, cur, !inQuotes)
  {
    FieldsAt(line, i, inQuotes);
  }

  lemma ReadComma(line: string, i: nat, raw: seq<string>, cur: string, inQuotes: bool)
    requires i < |line| && line[i] == ',' && !inQuotes
    requires Reading(line, i, raw, cur, inQuotes)
    ensures Reading(line, i + 1, raw + [cur], "", inQuotes)
  {
    FieldsAt(line, i, inQuotes);
    CloseField(raw, cur, Fields(line[i + 1..], inQuotes));
  }

  lemma ReadOther(line: string, i: nat, raw: seq<string>, cur: string, inQuotes: bool)
    requires i < |line| && line[i] != '"' && !(line[i] == ',' && !inQuotes)
    requires Reading(line, i, raw, cur, inQuotes)
    ensures Reading(line, i + 1, raw, cur + [line[i]], inQuotes)
  {
    FieldsAt(line, i, inQuotes);
    PrependPrepend(cur, [line[i]], Fields(line[i + 1..], inQuotes));
  }

  lemma ReadStart(line: string)
    ensures Reading(line, 0, [], "", false)
  {
    PrependEmpty(Fields(line, false));
    assert line[0..] == line;
  }

  lemma ReadEnd(line: string, raw: seq<string>, cur: string, inQuotes: bool)
    requires Reading(line, |line|, raw, cur, inQuotes)
    ensures raw + [cur] == Fields(line, false)
  {
    assert line[|line|..] == [];
    CloseLast(raw, cur);
  }

  /** `parseCsvLine`: the character loop with its current field and its
      in-quotes flag. */
  method ParseCsvLine(line: string) returns (out: seq<string>)
    ensures out == CsvFields(line)
  {
    out := [];
    ghost var raw: seq<string> := [];
    var cur := "";
    var inQuotes := false;
    var i := 0;
    ReadStart(line);
    while i < |line|
      invariant 0 <= i <= |line|
      invariant out == TrimAll(raw)
      invariant Reading(line, i, raw, cur, inQuotes)
      decreases |line| - i
    {
      var ch := line[i];
      if ch == '"' {
        if inQuotes && i + 1 < |line| && line[i + 1] == '"' {
          // an escaped quote inside quotes
          ReadEscapedQuote(line, i, raw, cur, inQuotes);
          cur := cur + "\"";
          i := i + 2;
        } else {
          ReadToggle(line, i, raw, cur, inQuotes);
          inQuotes := !inQuotes;
          i := i + 1;
        }
      } else if ch == ',' && !inQuotes {
        ReadComma(line, i, raw, cur, inQuotes);
        TrimAllSnoc(raw, cur);
        out := out + [Trim(cur)];
        raw := raw + [cur];
        cur := "";
        i := i + 1;
      } else {
        ReadOther(line, i, raw, cur, inQuotes);
        cur := cur + [ch];
        i := i + 1;
      }
    }
    ReadEnd(line, raw, cur, inQuotes);
    TrimAllSnoc(raw, cur);
    out := out + [Trim(cur)];
  }

  /** Closing the current field at a comma or at the end of the line. */
  lemma CloseField(raw: seq<string>, cur: string, fs: seq<string>)
    requires |fs| >= 1
    ensures raw + PrependStr(cur, [""] + fs) == (raw + [cur]) + PrependStr("", fs)
  {
    assert cur + "" == cur;
    PrependEmpty(fs);
    assert PrependStr(cur, [""] + fs) == [cur] + fs;
  }

  lemma CloseLast(raw: seq<string>, cur: string)
    ensures raw + PrependStr(cur, [""]) == raw + [cur]
  {
    assert cur + "" == cur;
  }

  lemma TrimAllSnoc(raw: seq<string>, cur: string)
    ensures TrimAll(raw + [cur]) == TrimAll(raw) + [Trim(cur)]
  {
  }

  /** A line without quotes is split at every comma. */
  lemma {:induction false} FieldsWithoutQuotes(line: string)
    requires '"' !in line
    ensures Fields(line, false) == Split(line, ',')
    decreases |line|
  {
    if line != [] {
      FieldsWithoutQuotes(line[1..]);
    }
  }

  /** Without quotes, a line has one field more than it has commas. */
  lemma FieldCountWithoutQuotes(line: string)
    requires '"' !in line
    ensures |CsvFields(line)| == Count(line, ',') + 1
    ensures CsvFields(line) == TrimAll(Split(line, ','))
  {
    FieldsWithoutQuotes(line);
    SplitCount(line, ',');
  }

  /** The commas of the rest of a line that separate fields: those read
      outside quotes, where a quote toggles quoting and, inside quotes, a
      doubled quote is one escaped character. */
  function UnquotedCommas(line: string, inQuotes: bool): nat
    decreases |line|
  {
    if line == [] then 0
    else if line[0] == '"' then
      if inQuotes && |line| > 1 && line[1] == '"' then UnquotedCommas(line[2..], inQuotes)
      else UnquotedCommas(line[1..], !inQuotes)
    else (if line[0] == ',' && !inQuotes then 1 else 0) + UnquotedCommas(line[1..], inQuotes)
  }

  /** Every line, quoted or not, reads as one field more than it has
      commas outside quotes. */
  lemma {:induction false} FieldCount(line: string, inQuotes: bool)
    ensures |Fields(line, inQuotes)| == UnquotedCommas(line, inQuotes) + 1
    decreases |line|
  {
    if line == [] {
    } else if line[0] == '"' {
      if inQuotes && |line| > 1 && line[1] == '"' {
        FieldCount(line[2..], inQuotes);
      } else {
        FieldCount(line[1..], !inQuotes);
      }
    } else {
      FieldCount(line[1..], inQuotes);
    }
  }

  /** So `parseCsvLine` returns the commas outside quotes plus one fields;
      a line without quotes has all its commas outside quotes. */
  lemma CsvFieldCount(line: string)
    ensures |CsvFields(line)| == UnquotedCommas(line, false) + 1
    ensures '"' !in line ==> UnquotedCommas(line, false) == Count(line, ',')
  {
    FieldCount(line, false);
    if '"' !in line {
      FieldCountWithoutQuotes(line);
    }
  }

  /** Inside quotes every `"` of a field is written twice. */
  function Escape(f: string): (r: string)
    ensures |r| >= |f|
  {
    if f == [] then []
    else (if f[0] == '"' then "\"\"" else [f[0]]) + Escape(f[1..])
  }

  /** A field written between quotes. */
  function Quote(f: string): string
  {
    "\"" + Escape(f) + "\""
  }

  /** A row written as a CSV line with every field quoted. */
  function QuotedLine(fs: seq<string>): (r: string)
    requires |fs| >= 1
    decreases |fs|
  {
    if |fs| == 1 then Quote(fs[0]) else Quote(fs[0]) + "," + QuotedLine(fs[1..])
  }

  /** The escaped body of a field and its closing quote read back as the
      field, when the next character, if any, is a comma. */
  lemma {:induction false} ReadEscaped(f: string, rest: string)
    requires rest == [] || rest[0] == ','
    ensures Fields(Escape(f) + "\"" + rest, true) == PrependStr(f, Fields(rest, false))
    decreases |f|
  {
    if f == [] {
      var line := Escape(f) + "\"" + rest;
      assert line == "\"" + rest;
      assert line[1..] == rest;
      PrependEmpty(Fields(rest, false));
    } else {
      ReadEscaped(f[1..], rest);
      EscapedStep(f, rest);
    }
  }

  /** One character more in front of an escaped body. */
  lemma EscapedStep(f: string, rest: string)
    requires f != []
    requires Fields(Escape(f[1..]) + "\"" + rest, true) == PrependStr(f[1..], Fields(rest, false))
    ensures Fields(Escape(f) + "\"" + rest, true) == PrependStr(f, Fields(rest, false))
  {
    var tail := Escape(f[1..]) + "\"" + rest;
    EscapeFront(f, rest);
    FrontStep(f[0], tail);
    assert [f[0]] + f[1..] == f;
    PrependPrepend([f[0]], f[1..], Fields(rest, false));
  }

  lemma EscapeFront(f: string, rest: string)
    requires f != []
    ensures Escape(f) + "\"" + rest == (if f[0] == '"' then "\"\"" else [f[0]]) + (Escape(f[1..]) + "\"" + rest)
  {
  }

  /** Reading inside quotes, an escaped character in front adds itself to
      the first field. */
  lemma FrontStep(c: char, tail: string)
    ensures Fields((if c == '"' then "\"\"" else [c]) + tail, true) == PrependStr([c], Fields(tail, true))
  {
    if c == '"' {
      EscapedQuoteStep(tail);
    } else {
      OtherCharStep(c, tail);
    }
  }

  lemma EscapedQuoteStep(tail: string)
    ensures Fields("\"\"" + tail, true) == PrependStr("\"", Fields(tail, true))
  {
    assert ("\"\"" + tail)[2..] == tail;
  }

  lemma OtherCharStep(c: char, tail: string)
    requires c != '"'
    ensures Fields([c] + tail, true) == PrependStr([c], Fields(tail, true))
  {
    assert ([c] + tail)[1..] == tail;
  }

  /** A quoted field followed by nothing or by a comma is read as the field. */
  lemma ReadQuoted(f: string, rest: string)
    requires rest == [] || rest[0] == ','
    ensures Fields(Quote(f) + rest, false) == PrependStr(f, Fields(rest, false))
  {
    var line := Quote(f) + rest;
    assert line[1..] == Escape(f) + "\"" + rest;
    ReadEscaped(f, rest);
  }

  /** Writing a row with every field quoted and reading it back gives the
      row: commas inside quotes do not split and doubled quotes become one. */
  lemma {:induction false} QuotedLineRoundTrip(fs: seq<string>)
    requires |fs| >= 1
    ensures Fields(QuotedLine(fs), false) == fs
    decreases |fs|
  {
    if |fs| == 1 {
      ReadQuoted(fs[0], []);
      assert Quote(fs[0]) + [] == Quote(fs[0]);
      assert fs[0] + "" == fs[0];
    } else {
      var tail := QuotedLine(fs[1..]);
      QuotedLineRoundTrip(fs[1..]);
      assert QuotedLine(fs) == Quote(fs[0]) + ("," + tail);
      ReadQuoted(fs[0], "," + tail);
      assert ("," + tail)[1..] == tail;
      assert Fields("," + tail, false) == [""] + fs[1..];
      assert fs[0] + "" == fs[0];
      assert fs == [fs[0]] + fs[1..];
    }
  }

  /** So `parseCsvLine` returns the trimmed fields of a quoted row. */
  lemma ParseQuotedLine(fs: seq<string>)
    requires |fs| >= 1
    ensures CsvFields(QuotedLine(fs)) == TrimAll(fs)
  {
    QuotedLineRoundTrip(fs);
  }
}
