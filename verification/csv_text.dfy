/**
 The browser's CSV reader: a character loop with a quoting flag, trimmed fields, and
 records dropped when every field is empty.
 */
module CsvText {
  import opened Prelude

  type Field = string
  type Record = seq<Field>

  // ---------------------------------------------------------------- trimming

  /** White space and line terminators in the sense of `String.prototype.trim` (ECMA-262, section 22.1.3.32). */
  predicate IsSpace(c: char) {
    || '\t' <= c <= '\r' || c == ' ' || c == '\U{00A0}' || c == '\U{1680}' || '\U{2000}' <= c <= '\U{200A}'
    || c == '\U{2028}' || c == '\U{2029}' || c == '\U{202F}' || c == '\U{205F}' || c == '\U{3000}' || c == '\U{FEFF}'
  }

  function TrimStart(s: string): (t: string)
    ensures |t| <= |s| && t == s[|s| - |t|..] && (t != "" ==> !IsSpace(t[0]))
  {
    if s == "" || !IsSpace(s[0]) then s else TrimStart(s[1..])
  }

  function TrimEnd(s: string): (t: string)
    ensures |t| <= |s| && t == s[..|t|] && (t != "" ==> !IsSpace(t[|t| - 1]))
  {
    if s == "" || !IsSpace(s[|s| - 1]) then s else TrimEnd(s[..|s| - 1])
  }

  function Trim(s: string): string {
    TrimEnd(TrimStart(s))
  }

  // ---------------------------------------------------------------- reading

  predicate HasText(record: Record) {
    exists i | 0 <= i < |record| :: record[i] != ""
  }

  /** A record is kept if some field is non-empty. */
  function Kept(record: Record): seq<Record> {
    if HasText(record) then [record] else []
  }

  /** The records still to come from `rest`, given the open record, the open field and the quoting flag. */
  function Scan(rest: string, quoted: bool, field: string, record: Record): seq<Record>
    decreases rest
  {
    if rest == "" then Kept(record + [Trim(field)])
    else
      var c := rest[0];
      if c == '"' && quoted && |rest| > 1 && rest[1] == '"' then Scan(rest[2..], quoted, field + "\"", record)
      else if c == '"' then Scan(rest[1..], !quoted, field, record)
      else if c == ',' && !quoted then Scan(rest[1..], quoted, "", record + [Trim(field)])
      else if (c == '\n' || c == '\r') && !quoted then
        Kept(record + [Trim(field)])
        + Scan(if c == '\r' && |rest| > 1 && rest[1] == '\n' then rest[2..] else rest[1..], quoted, "", [])
      else Scan(rest[1..], quoted, field + [c], record)
  }

  /** One step of the reader for each kind of character. */
  lemma ScanStep(c: char, tail: string, quoted: bool, field: string, record: Record)
    ensures c == '"' && (!quoted || tail == "" || tail[0] != '"') ==>
              Scan([c] + tail, quoted, field, record) == Scan(tail, !quoted, field, record)
    ensures c == '"' && quoted && tail != "" && tail[0] == '"' ==>
              Scan([c] + tail, quoted, field, record) == Scan(tail[1..], quoted, field + "\"", record)
    ensures c != '"' && (quoted || (c != ',' && c != '\n' && c != '\r')) ==>
              Scan([c] + tail, quoted, field, record) == Scan(tail, quoted, field + [c], record)
    ensures c == ',' && !quoted ==>
              Scan([c] + tail, quoted, field, record) == Scan(tail, quoted, "", record + [Trim(field)])
  {
    hide Trim;
    var text := [c] + tail;
    assert text[0] == c && text[1..] == tail;
    if tail != "" { assert text[1] == tail[0] && text[2..] == tail[1..]; }
  }

  /** An unquoted line break closes the open record; CR LF counts once. */
  lemma ScanEnd(c: char, tail: string, field: string, record: Record)
    requires c == '\n' || c == '\r'
    ensures var rest := if c == '\r' && tail != "" && tail[0] == '\n' then tail[1..] else tail;
            Scan([c] + tail, false, field, record) == Kept(record + [Trim(field)]) + Scan(rest, false, "", [])
  {
    hide Trim, Kept;
    var text := [c] + tail;
    assert text[0] == c && text[1..] == tail;
    if tail != "" { assert text[1] == tail[0] && text[2..] == tail[1..]; }
  }

  lemma ScanNothing(quoted: bool, field: string, record: Record)
    ensures Scan("", quoted, field, record) == Kept(record + [Trim(field)])
  {
  }

  /** The loop of `parseCsvText`, with its look-ahead and its index that can skip a character. */
  method ParseRecords(text: string) returns (records: seq<Record>)
    ensures records == Scan(text, false, "", [])
  {
    hide Scan, Trim;
    records := [];
    var record: Record, field: string, quoted := [], "", false;
    var index := 0;
    assert text[0..] == text;
    while index < |text|
      invariant index <= |text|
      invariant Scan(text, false, "", []) == records + Scan(text[index..], quoted, field, record)
    {
      var character := text[index];
      var hasNext := index + 1 < |text|;
      ghost var tail := text[index + 1..];
      assert text[index..] == [character] + tail;
      assert hasNext ==> tail[0] == text[index + 1] && tail[1..] == text[index + 2..];
      ScanStep(character, tail, quoted, field, record);
      if character == '"' && quoted && hasNext && text[index + 1] == '"' {
        field := field + "\"";
        index := index + 1;
      } else if character == '"' {
        quoted := !quoted;
      } else if character == ',' && !quoted {
        record := record + [Trim(field)];
        field := "";
      } else if (character == '\n' || character == '\r') && !quoted {
        ScanEnd(character, tail, field, record);
        if character == '\r' && hasNext && text[index + 1] == '\n' { index := index + 1; }
        record := record + [Trim(field)];
        if HasText(record) { records := records + [record]; }
        record, field := [], "";
      } else {
        field := field + [character];
      }
      index := index + 1;
    }
    assert text[index..] == "";
    ScanNothing(quoted, field, record);
    record := record + [Trim(field)];
    if HasText(record) { records := records + [record]; }
  }

  // ---------------------------------------------------------------- printing

  datatype LineBreak = LF | CRLF | CR

  function BreakText(b: LineBreak): string {
    match b
    case LF => "\n"
    case CRLF => "\r\n"
    case CR => "\r"
  }

  /** Double every quote (RFC 4180, section 2, rule 7). */
  function Doubled(s: string): string {
    if s == "" then "" else (if s[0] == '"' then "\"\"" else [s[0]]) + Doubled(s[1..])
  }

  function PrintField(field: Field): string {
    "\"" + Doubled(field) + "\""
  }

  function PrintRecord(record: Record): string
    requires record != []
  {
    if |record| == 1 then PrintField(record[0]) else PrintField(record[0]) + "," + PrintRecord(record[1..])
  }

  /** Each record is followed by its own line break; the last one only if `final`. */
  function Print(records: seq<Record>, breaks: seq<LineBreak>, final: bool): string
    requires |breaks| == |records| && forall i | 0 <= i < |records| :: records[i] != []
  {
    if records == [] then ""
    else
      PrintRecord(records[0])
      + (if |records| == 1 && !final then "" else BreakText(breaks[0]))
      + Print(records[1..], breaks[1..], final)
  }

  /** A record the reader can return: some field has text, and trimming changes none. */
  predicate Printable(record: Record) {
    HasText(record) && Trimmed(record)
  }

  predicate Trimmed(record: Record) {
    forall i | 0 <= i < |record| :: Trim(record[i]) == record[i]
  }

  lemma TrimmedEnds(record: Record)
    requires record != [] && Trimmed(record)
    ensures Trim(record[0]) == record[0] && Trim(record[|record| - 1]) == record[|record| - 1] && Trimmed(record[1..])
  {
    hide Trim;
  }

  // ---------------------------------------------------------------- round trip

  lemma DoubledText(s: string, tail: string)
    requires s != ""
    ensures var rest := Doubled(s[1..]) + "\"" + tail;
            Doubled(s) + "\"" + tail == if s[0] == '"' then ['"'] + (['"'] + rest) else [s[0]] + rest
  {
    var first, doubled := if s[0] == '"' then "\"\"" else [s[0]], Doubled(s[1..]);
    assert Doubled(s) == first + doubled;
    hide Doubled;
    Appended(first, doubled, "\"", tail);
    TwoQuotes(doubled + "\"" + tail);
  }

  lemma Appended(a: string, b: string, c: string, d: string)
    ensures a + b + c + d == a + (b + c + d)
  {
  }

  lemma TwoQuotes(rest: string)
    ensures "\"\"" + rest == ['"'] + (['"'] + rest)
  {
  }

  lemma FieldText(field: string, s: string)
    requires s != ""
    ensures field + [s[0]] + s[1..] == field + s
  {
  }

  /** Inside quotes, a doubled text is read back literally, up to the closing quote. */
  lemma {:induction false} ScanDoubled(s: string, tail: string, field: string, record: Record)
    requires tail == "" || tail[0] != '"'
    ensures Scan(Doubled(s) + "\"" + tail, true, field, record) == Scan(tail, false, field + s, record)
  {
    hide Scan;
    if s == "" {
      assert Doubled(s) + "\"" + tail == ['"'] + tail && field + s == field;
      ScanStep('"', tail, true, field, record);
    } else {
      DoubledText(s, tail);
      FieldText(field, s);
      hide Doubled;
      var rest := Doubled(s[1..]) + "\"" + tail;
      ScanDoubled(s[1..], tail, field + [s[0]], record);
      if s[0] == '"' {
        ScanStep('"', ['"'] + rest, true, field, record);
        assert (['"'] + rest)[1..] == rest;
      } else {
        ScanStep(s[0], rest, true, field, record);
      }
    }
  }

  lemma ScanField(s: Field, tail: string, record: Record)
    requires tail == "" || tail[0] != '"'
    ensures Scan(PrintField(s) + tail, false, "", record) == Scan(tail, false, s, record)
  {
    hide Scan;
    assert PrintField(s) + tail == ['"'] + (Doubled(s) + "\"" + tail);
    ScanStep('"', Doubled(s) + "\"" + tail, false, "", record);
    ScanDoubled(s, tail, "", record);
    assert "" + s == s;
  }

  function Front(fields: Record): Record
    requires fields != []
  {
    fields[..|fields| - 1]
  }

  function Last(fields: Record): Field
    requires fields != []
  {
    fields[|fields| - 1]
  }

  /** A whole printed record leaves its last field open, with all the others collected. */
  lemma {:induction false} ScanRecord(fields: Record, tail: string, record: Record)
    requires fields != [] && Trimmed(fields) && (tail == "" || tail[0] != '"')
    ensures Scan(PrintRecord(fields) + tail, false, "", record)
        == Scan(tail, false, Last(fields), record + Front(fields))
    decreases fields
  {
    TrimmedEnds(fields);
    PrintedRecordText(fields, tail);
    AllButLast(fields, record);
    hide Scan, Trim, PrintField, PrintRecord, Trimmed, Front, Last;
    if |fields| == 1 {
      ScanField(fields[0], tail, record);
    } else {
      var rest := PrintRecord(fields[1..]) + tail;
      ScanField(fields[0], [','] + rest, record);
      ScanStep(',', rest, false, fields[0], record);
      ScanRecord(fields[1..], tail, record + [fields[0]]);
    }
  }

  lemma AllButLast(fields: Record, record: Record)
    requires fields != []
    ensures |fields| == 1 ==> record + Front(fields) == record && Last(fields) == fields[0]
    ensures |fields| > 1 ==>
              record + [fields[0]] + Front(fields[1..]) == record + Front(fields) && Last(fields[1..]) == Last(fields)
  {
  }

  lemma PrintedRecordText(fields: Record, tail: string)
    requires fields != []
    ensures |fields| == 1 ==> PrintRecord(fields) + tail == PrintField(fields[0]) + tail
    ensures |fields| > 1 ==>
              PrintRecord(fields) + tail == PrintField(fields[0]) + ([','] + (PrintRecord(fields[1..]) + tail))
  {
    hide PrintField;
    if |fields| > 1 { Regrouped(PrintField(fields[0]), ",", PrintRecord(fields[1..]), tail); }
  }

  lemma Regrouped(a: string, b: string, c: string, d: string)
    ensures a + b + c + d == a + (b + (c + d))
  {
  }

  lemma PrintStartsQuoted(records: seq<Record>, breaks: seq<LineBreak>, final: bool)
    requires |breaks| == |records| && forall i | 0 <= i < |records| :: records[i] != []
    ensures records != [] ==> Print(records, breaks, final) != "" && Print(records, breaks, final)[0] == '"'
  {
  }

  /** A line break ends the open record, whichever of the three it is. */
  lemma ScanBreak(b: LineBreak, rest: string, field: Field, record: Record)
    requires rest == "" || rest[0] == '"'
    ensures Scan(BreakText(b) + rest, false, field, record) == Kept(record + [Trim(field)]) + Scan(rest, false, "", [])
  {
    hide Trim, Kept;
    match b {
      case LF => ScanEnd('\n', rest, field, record); assert BreakText(b) + rest == ['\n'] + rest;
      case CR => ScanEnd('\r', rest, field, record); assert BreakText(b) + rest == ['\r'] + rest;
      case CRLF => ScanEnd('\r', ['\n'] + rest, field, record); assert BreakText(b) + rest == ['\r'] + (['\n'] + rest)
          && (['\n'] + rest)[1..] == rest;
    }
    hide Scan;
  }

  lemma PrintShape(records: seq<Record>, breaks: seq<LineBreak>, final: bool)
    requires records != [] && |breaks| == |records| && forall i | 0 <= i < |records| :: records[i] != []
    ensures var rest := Print(records[1..], breaks[1..], final);
            && (rest == "" || rest[0] == '"')
            && Print(records, breaks, final)
               == PrintRecord(records[0]) + (if |records| == 1 && !final then "" else BreakText(breaks[0]) + rest)
  {
    hide PrintRecord;
    var rest := Print(records[1..], breaks[1..], final);
    assert rest == "" || rest[0] == '"' by { if |records| > 1 { PrintStartsQuoted(records[1..], breaks[1..], final); } }
  }

  /** A printed record leaves nothing open but its last field, which closes it exactly. */
  lemma ScanPrintedOpen(record: Record, tail: string) returns (open: Record, last: Field)
    requires record != [] && Printable(record) && (tail == "" || tail[0] != '"')
    ensures Scan(PrintRecord(record) + tail, false, "", []) == Scan(tail, false, last, open)
    ensures Kept(open + [Trim(last)]) == [record]
  {
    open, last := Front(record), Last(record);
    PrintableFacts(record);
    SplitLast(record);
    hide Scan, PrintRecord, Trim, Kept, HasText, Printable, Trimmed, Front, Last;
    ScanRecord(record, tail, []);
  }

  /** A printed record and its line break are read as exactly that record. */
  lemma ScanPrinted(record: Record, b: LineBreak, rest: string)
    requires record != [] && Printable(record) && (rest == "" || rest[0] == '"')
    ensures Scan(PrintRecord(record) + (BreakText(b) + rest), false, "", []) == [record] + Scan(rest, false, "", [])
    ensures Scan(PrintRecord(record) + "", false, "", []) == [record]
  {
    hide Scan, PrintRecord, Trim, Kept, HasText, Printable;
    var open, last := ScanPrintedOpen(record, BreakText(b) + rest);
    ScanBreak(b, rest, last, open);
    open, last := ScanPrintedOpen(record, "");
    ScanNothing(false, last, open);
  }

  lemma SplitLast(record: Record)
    requires record != []
    ensures Front(record) + [Last(record)] == record && [] + Front(record) == Front(record)
  {
  }

  lemma PrintableFacts(record: Record)
    requires record != [] && Printable(record)
    ensures Trim(Last(record)) == Last(record) && Kept(record) == [record] && Trimmed(record)
  {
    TrimmedEnds(record);
    hide Trim, Trimmed;
  }

  /**
   Round trip: whatever records are printed with every field quoted and quotes doubled,
   under any mixture of the three line breaks and with or without a final one, reading
   the text gives exactly those records back.
   */
  lemma {:induction false} ReadingUndoesPrinting(records: seq<Record>, breaks: seq<LineBreak>, final: bool)
    requires |breaks| == |records| && forall i | 0 <= i < |records| :: Printable(records[i])
    requires forall i | 0 <= i < |records| :: records[i] != []
    ensures Scan(Print(records, breaks, final), false, "", []) == records
    decreases records
  {
    if records == [] {
      EmptyTextHasNoRecords();
    } else {
      ReadingUndoesPrinting(records[1..], breaks[1..], final);
      OneMoreRecord(records, breaks, final);
    }
  }

  lemma OneMoreRecord(records: seq<Record>, breaks: seq<LineBreak>, final: bool)
    requires records != [] && |breaks| == |records| && Printable(records[0]) && forall i | 0 <= i < |records| ::
        records[i] != []
    requires Scan(Print(records[1..], breaks[1..], final), false, "", []) == records[1..]
    ensures Scan(Print(records, breaks, final), false, "", []) == records
  {
    hide Scan, Print, PrintRecord, Printable, BreakText;
    PrintShape(records, breaks, final);
    ScanPrinted(records[0], breaks[0], Print(records[1..], breaks[1..], final));
    assert records == [records[0]] + records[1..];
  }

  lemma EmptyTextHasNoRecords()
    ensures Scan("", false, "", []) == []
  {
    assert Trim("") == "" && [] + [Trim("")] == [""] && !HasText([""]);
  }

  // ---------------------------------------------------------------- trimming, and text without quotes

  /** Where the text that trimming keeps begins, and where it ends. */
  lemma TrimStripsEnds(s: string) returns (i: nat, j: nat)
    ensures i <= j <= |s| && Trim(s) == s[i..j]
    ensures forall k | 0 <= k < i || j <= k < |s| :: IsSpace(s[k])
    ensures i < j ==> !IsSpace(s[i]) && !IsSpace(s[j - 1])
  {
    hide IsSpace;
    var rest := TrimStart(s);
    i := |s| - |rest|;
    StartIsSpace(s);
    EndIsSpace(rest);
    hide TrimStart, TrimEnd;
    j := i + |Trim(s)|;
    assert rest == s[i..] && Trim(s) == rest[..|Trim(s)|];
    forall k | j <= k < |s| ensures IsSpace(s[k]) {
      assert s[k] == rest[k - i];
    }
  }

  lemma {:induction false} StartIsSpace(s: string)
    ensures forall k | 0 <= k < |s| - |TrimStart(s)| :: IsSpace(s[k])
  {
    hide IsSpace;
    if s != "" && IsSpace(s[0]) {
      StartIsSpace(s[1..]);
      forall k | 0 <= k < |s| - |TrimStart(s)| ensures IsSpace(s[k]) {
        if k > 0 { assert s[k] == s[1..][k - 1]; }
      }
    }
  }

  lemma {:induction false} EndIsSpace(s: string)
    ensures forall k | |TrimEnd(s)| <= k < |s| :: IsSpace(s[k])
  {
    hide IsSpace;
    if s != "" && IsSpace(s[|s| - 1]) {
      EndIsSpace(s[..|s| - 1]);
      forall k | |TrimEnd(s)| <= k < |s| ensures IsSpace(s[k]) {
        if k < |s| - 1 { assert s[k] == s[..|s| - 1][k]; }
      }
    }
  }

  /** A field that neither begins nor ends with white space. */
  predicate Bare(field: Field) {
    field != "" ==> !IsSpace(field[0]) && !IsSpace(field[|field| - 1])
  }

  lemma TrimmedIsBare(field: string)
    ensures Bare(Trim(field))
  {
    var i, j := TrimStripsEnds(field);
    hide IsSpace, Trim;
  }

  /** Every record that is read has some text, and none of its fields begins or ends with white space. */
  lemma {:induction false} ReadFieldsAreTrimmed(rest: string, quoted: bool, field: string, record: Record, r: Record,
                                                i: nat)
    requires forall j | 0 <= j < |record| :: Bare(record[j])
    requires r in Scan(rest, quoted, field, record) && i < |r|
    ensures Bare(r[i]) && HasText(r)
    decreases rest
  {
    TrimmedIsBare(field);
    hide Trim, Bare;
    var more := record + [Trim(field)];
    if rest == "" {
    } else {
      var c := rest[0];
      if c == '"' && quoted && |rest| > 1 && rest[1] == '"' {
        ReadFieldsAreTrimmed(rest[2..], quoted, field + "\"", record, r, i);
      } else if c == '"' {
        ReadFieldsAreTrimmed(rest[1..], !quoted, field, record, r, i);
      } else if c == ',' && !quoted {
        ReadFieldsAreTrimmed(rest[1..], quoted, "", more, r, i);
      } else if (c == '\n' || c == '\r') && !quoted {
        if r !in Kept(more) {
          ReadFieldsAreTrimmed(if c == '\r' && |rest| > 1 && rest[1] == '\n' then rest[2..] else rest[1..], quoted, "",
                               [], r, i);
        }
      } else {
        ReadFieldsAreTrimmed(rest[1..], quoted, field + [c], record, r, i);
      }
    }
  }

  /** Text that needs no quotes: white space anywhere, but none of the reader's special characters. */
  predicate Plain(field: Field) {
    forall i | 0 <= i < |field| :: field[i] != '"' && field[i] != ',' && field[i] != '\n' && field[i] != '\r'
  }

  predicate PlainRecord(record: Record) {
    record != [] && forall i | 0 <= i < |record| :: Plain(record[i])
  }

  function PlainText(record: Record): string
    requires record != []
  {
    if |record| == 1 then record[0] else record[0] + "," + PlainText(record[1..])
  }

  function TrimAll(record: Record): (trimmed: Record)
    ensures |trimmed| == |record| && forall i | 0 <= i < |record| :: trimmed[i] == Trim(record[i])
  {
    seq(|record|, i requires 0 <= i < |record| => Trim(record[i]))
  }

  lemma {:induction false} ScanPlainField(s: Field, tail: string, field: string, record: Record)
    requires Plain(s)
    ensures Scan(s + tail, false, field, record) == Scan(tail, false, field + s, record)
  {
    hide Scan;
    if s == "" {
      assert s + tail == tail && field + s == field;
    } else {
      assert s + tail == [s[0]] + (s[1..] + tail);
      ScanStep(s[0], s[1..] + tail, false, field, record);
      ScanPlainField(s[1..], tail, field + [s[0]], record);
      assert field + [s[0]] + s[1..] == field + s;
    }
  }

  lemma PlainTextFrom(fields: Record, tail: string)
    requires |fields| > 1
    ensures PlainText(fields) + tail == fields[0] + ([','] + (PlainText(fields[1..]) + tail))
  {
    var rest := PlainText(fields[1..]);
    assert PlainText(fields) == fields[0] + "," + rest;
    hide PlainText;
    Regrouped(fields[0], ",", rest, tail);
  }

  lemma TrimmedFront(fields: Record, record: Record)
    requires |fields| > 1
    ensures record + [Trim(fields[0])] + TrimAll(Front(fields[1..])) == record + TrimAll(Front(fields))
    ensures Last(fields[1..]) == Last(fields)
  {
    hide Trim;
  }

  lemma {:induction false} ScanPlainRecord(fields: Record, tail: string, record: Record)
    requires PlainRecord(fields)
    ensures Scan(PlainText(fields) + tail, false, "", record)
            == Scan(tail, false, Last(fields), record + TrimAll(Front(fields)))
    decreases fields
  {
    assert "" + fields[0] == fields[0] && Plain(fields[0]);
    if |fields| == 1 {
      assert PlainText(fields) == fields[0] && record + TrimAll(Front(fields)) == record;
      hide Scan, Trim, Plain, PlainText;
      ScanPlainField(fields[0], tail, "", record);
    } else {
      assert PlainRecord(fields[1..]);
      PlainTextFrom(fields, tail);
      TrimmedFront(fields, record);
      hide Scan, Trim, Plain, PlainText, PlainRecord, TrimAll, Front, Last;
      var rest := PlainText(fields[1..]) + tail;
      ScanPlainField(fields[0], [','] + rest, "", record);
      ScanStep(',', rest, false, fields[0], record);
      ScanPlainRecord(fields[1..], tail, record + [Trim(fields[0])]);
    }
  }

  /**
   Unquoted text: a line of fields separated by commas is read as the record of its
   trimmed fields, and skipped if none of them has any text.
   */
  lemma PlainLineIsRead(fields: Record, b: LineBreak, rest: string)
    requires PlainRecord(fields) && (rest == "" || rest[0] != '\n')
    ensures Scan(PlainText(fields) + (BreakText(b) + rest), false, "", [])
            == Kept(TrimAll(fields)) + Scan(rest, false, "", [])
    ensures Scan(PlainText(fields), false, "", []) == Kept(TrimAll(fields))
  {
    FieldsAreFrontAndLast(fields);
    ScanPlainRecord(fields, BreakText(b) + rest, []);
    PlainBreak(b, rest, Last(fields), [] + TrimAll(Front(fields)));
    ScanPlainRecord(fields, "", []);
    ScanNothing(false, Last(fields), [] + TrimAll(Front(fields)));
    assert PlainText(fields) + "" == PlainText(fields);
    hide Scan, Trim, Kept, PlainText, PlainRecord, BreakText, TrimAll, Front, Last;
  }

  lemma FieldsAreFrontAndLast(fields: Record)
    requires fields != []
    ensures [] + TrimAll(Front(fields)) + [Trim(Last(fields))] == TrimAll(fields)
  {
    hide Trim;
  }

  lemma PlainBreak(b: LineBreak, rest: string, field: Field, record: Record)
    requires rest == "" || rest[0] != '\n'
    ensures Scan(BreakText(b) + rest, false, field, record) == Kept(record + [Trim(field)]) + Scan(rest, false, "", [])
  {
    hide Trim, Kept, Scan;
    match b {
      case LF => ScanEnd('\n', rest, field, record); assert BreakText(b) + rest == ['\n'] + rest;
      case CR => ScanEnd('\r', rest, field, record); assert BreakText(b) + rest == ['\r'] + rest;
      case CRLF =>
        ScanEnd('\r', ['\n'] + rest, field, record);
        assert BreakText(b) + rest == ['\r'] + (['\n'] + rest) && (['\n'] + rest)[1..] == rest;
    }
  }

  // ---------------------------------------------------------------- rows

  /** What JavaScript's `Number` makes of a text, when that is finite: an input of the model. */
  type Reader<!Num> = string -> Option<Num>

  datatype Value<+Num> = Number(number: Num) | Text(text: string)

  /** `coerceValue`. */
  function Coerced<Num>(read: Reader<Num>, text: string): Value<Num> {
    if Trim(text) != "" && read(text).Some? then Number(read(text).value) else Text(text)
  }

  /** A missing or empty field is null. */
  function CellAt<Num>(read: Reader<Num>, values: Record, index: nat): Option<Value<Num>> {
    if index >= |values| || values[index] == "" then None else Some(Coerced(read, values[index]))
  }

  /** `Object.fromEntries`: a repeated column keeps its last value. */
  function RowOf<Num>(read: Reader<Num>, header: Record, values: Record, count: nat): map<string, Option<Value<Num>>>
    requires count <= |header|
  {
    if count == 0 then map[]
    else RowOf(read, header, values, count - 1)[header[count - 1] := CellAt(read, values, count - 1)]
  }

  datatype CsvError = NoDataRows

  method ParseCsvText<Num>(read: Reader<Num>, text: string)
    returns (r: Result<seq<map<string, Option<Value<Num>>>>, CsvError>)
    ensures var records := Scan(text, false, "", []);
            && (r.Err? <==> |records| < 2)
            && (r.Ok? ==> |r.value| == Min(|records| - 1, 100)
                          && forall i | 0 <= i < |r.value| ::
                              r.value[i] == RowOf(read, records[0], records[i + 1], |records[0]|))
  {
    var records := ParseRecords(text);
    if |records| < 2 { return Err(NoDataRows); }
    var header, rows := records[0], records[1..];
    var shown := rows[..Min(|rows|, 100)];
    r := Ok(seq(|shown|, i requires 0 <= i < |shown| => RowOf(read, header, shown[i], |header|)));
  }

  /** Every cell of a printed table is read back under its column's name. */
  lemma {:induction false} CellsAreReadBack<Num>(read: Reader<Num>, header: Record, values: Record, count: nat,
                                                 column: nat)
    requires column < count <= |header|
    requires forall i, j | 0 <= i < j < |header| :: header[i] != header[j]
    ensures header[column] in RowOf(read, header, values, count)
    ensures RowOf(read, header, values, count)[header[column]] == CellAt(read, values, column)
  {
    if column < count - 1 {
      CellsAreReadBack(read, header, values, count - 1, column);
    }
  }
}
