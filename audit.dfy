/** The audit trail: every recorded change becomes one JSON object written
    as one line at the end of the log file. The file only grows, and since
    the JSON text escapes every character outside printable ASCII, no entry
    spills onto a second line. */
module Audit {

  import opened Wrappers
  import opened Strings

  /** A JSON value as `json.dumps` receives it. */
  datatype Json =
    | JNull
    | JBool(b: bool)
    | JInt(i: int)
    | JStr(s: string)
    | JList(items: seq<Json>)
    | JObject(fields: seq<(string, Json)>)

  /** A character `json.dumps` writes as it is (with `ensure_ascii`):
      printable ASCII. */
  predicate PrintableChar(c: char) {
    ' ' <= c <= '~'
  }

  predicate Printable(s: string) {
    forall i :: 0 <= i < |s| ==> PrintableChar(s[i])
  }

  lemma PrintableConcat(a: string, b: string)
    requires Printable(a) && Printable(b)
    ensures Printable(a + b)
  {
    forall i | 0 <= i < |a + b| ensures PrintableChar((a + b)[i]) {
      if i >= |a| {
        assert (a + b)[i] == b[i - |a|];
      }
    }
  }

  function HexDigit(d: nat): (c: char)
    requires d < 16
    ensures PrintableChar(c)
  {
    if d < 10 then ('0' as int + d) as char else ('a' as int + d - 10) as char
  }

  /** `\uXXXX` with four lower-case hex digits. */
  function UnicodeEscape(n: nat): (r: string)
    requires n < 0x1_0000
    ensures |r| == 6 && Printable(r)
  {
    ['\\', 'u', HexDigit(n / 0x1000), HexDigit(n / 0x100 % 16), HexDigit(n / 16 % 16), HexDigit(n % 16)]
  }

  /** How `json.dumps` writes one character of a string: the two-character
      escapes for `"`, `\` and five control characters, printable ASCII as it
      is, and every other code point as `\uXXXX`, a UTF-16 surrogate pair
      above U+FFFF. */
  function EscapeChar(c: char): (r: string)
    ensures r != [] && Printable(r)
  {
    if c == '"' then "\\\""
    else if c == '\\' then "\\\\"
    else if c == '\n' then "\\n"
    else if c == '\r' then "\\r"
    else if c == '\t' then "\\t"
    else if c == '\U{0008}' then "\\b"
    else if c == '\U{000C}' then "\\f"
    else if PrintableChar(c) then [c]
    else if c as int < 0x1_0000 then UnicodeEscape(c as int)
    else
      var v := c as int - 0x1_0000;
      PrintableConcat(UnicodeEscape(0xD800 + v / 0x400), UnicodeEscape(0xDC00 + v % 0x400));
      UnicodeEscape(0xD800 + v / 0x400) + UnicodeEscape(0xDC00 + v % 0x400)
  }

  function EscapeAll(s: string): string {
    if s == [] then [] else EscapeChar(s[0]) + EscapeAll(s[1..])
  }

  /** A JSON string literal. */
  function Quote(s: string): string {
    "\"" + EscapeAll(s) + "\""
  }

  /** The pieces joined with `sep` between them. */
  function Join(parts: seq<string>, sep: string): string {
    if |parts| == 0 then ""
    else if |parts| == 1 then parts[0]
    else parts[0] + sep + Join(parts[1..], sep)
  }

  function IntText(i: int): string {
    if i < 0 then "-" + NatToString(-i) else NatToString(i)
  }

  /** `json.dumps(value)` with the default separators `", "` and `": "`;
      object keys keep their order. */
  function Encode(j: Json): string
    decreases j
  {
    match j
    case JNull => "null"
    case JBool(b) => if b then "true" else "false"
    case JInt(i) => IntText(i)
    case JStr(s) => Quote(s)
    case JList(items) =>
      "[" + Join(seq(|items|, k requires 0 <= k < |items| => Encode(items[k])), ", ") + "]"
    case JObject(fields) =>
      "{" + Join(seq(|fields|, k requires 0 <= k < |fields| => Quote(fields[k].0) + ": " + Encode(fields[k].1)), ", ") + "}"
  }

  lemma {:induction false} EscapeAllPrintable(s: string)
    ensures Printable(EscapeAll(s))
  {
    if s != [] {
      EscapeAllPrintable(s[1..]);
      PrintableConcat(EscapeChar(s[0]), EscapeAll(s[1..]));
    }
  }

  lemma QuotePrintable(s: string)
    ensures Printable(Quote(s))
  {
    EscapeAllPrintable(s);
    PrintableConcat("\"", EscapeAll(s));
    PrintableConcat("\"" + EscapeAll(s), "\"");
  }

  lemma {:induction false} JoinPrintable(parts: seq<string>, sep: string)
    requires Printable(sep) && forall k :: 0 <= k < |parts| ==> Printable(parts[k])
    ensures Printable(Join(parts, sep))
    decreases |parts|
  {
    if |parts| > 1 {
      JoinPrintable(parts[1..], sep);
      PrintableConcat(parts[0], sep);
      PrintableConcat(parts[0] + sep, Join(parts[1..], sep));
    }
  }

  lemma DigitsPrintable(n: nat)
    ensures Printable(NatToString(n))
  {
    var s := NatToString(n);
    forall i | 0 <= i < |s| ensures PrintableChar(s[i]) {
      assert IsDigit(s[i]);
    }
  }

  /** Bracket `body` with two printable characters. */
  lemma WrapPrintable(open: string, body: string, close: string)
    requires Printable(open) && Printable(body) && Printable(close)
    ensures Printable(open + body + close)
  {
    PrintableConcat(open, body);
    PrintableConcat(open + body, close);
  }

  /** The text `json.dumps` produces is printable ASCII: every character
      outside it, line breaks included, is escaped. */
  lemma {:induction false} EncodePrintable(j: Json)
    ensures Printable(Encode(j))
    decreases j
  {
    match j
    case JNull =>
    case JBool(b) =>
    case JInt(i) =>
      DigitsPrintable(if i < 0 then -i else i);
      if i < 0 {
        PrintableConcat("-", NatToString(-i));
      }
    case JStr(s) =>
      QuotePrintable(s);
    case JList(items) =>
      var parts := seq(|items|, k requires 0 <= k < |items| => Encode(items[k]));
      forall k | 0 <= k < |items| ensures Printable(parts[k]) {
        EncodePrintable(items[k]);
      }
      JoinPrintable(parts, ", ");
      WrapPrintable("[", Join(parts, ", "), "]");
    case JObject(fields) =>
      var parts := seq(|fields|, k requires 0 <= k < |fields| => Quote(fields[k].0) + ": " + Encode(fields[k].1));
      forall k | 0 <= k < |fields| ensures Printable(parts[k]) {
        QuotePrintable(fields[k].0);
        EncodePrintable(fields[k].1);
        WrapPrintable(Quote(fields[k].0), ": ", Encode(fields[k].1));
      }
      JoinPrintable(parts, ", ");
      WrapPrintable("{", Join(parts, ", "), "}");
  }

  /** One change: when (the UTC ISO time), which kind of resource, what was
      done, to which UID, and the payload before and after. */
  datatype Entry = Entry(timestamp: string, resource: string, action: string, uid: string,
                         before: Option<Json>, after: Option<Json>)

  /** The JSON object of an entry: its six keys in order, `None` as `null`. */
  function EntryJson(e: Entry): (r: Json)
    ensures r.JObject? && |r.fields| == 6
    ensures forall k :: 0 <= k < 4 ==> r.fields[k].1.JStr?
    ensures r.fields[0] == ("timestamp", JStr(e.timestamp)) && r.fields[1] == ("resource", JStr(e.resource))
    ensures r.fields[2] == ("action", JStr(e.action)) && r.fields[3] == ("uid", JStr(e.uid))
    ensures r.fields[4].0 == "before" && r.fields[5].0 == "after"
    ensures r.fields[4].1 == e.before.GetOr(JNull) && r.fields[5].1 == e.after.GetOr(JNull)
  {
    JObject([("timestamp", JStr(e.timestamp)), ("resource", JStr(e.resource)),
             ("action", JStr(e.action)), ("uid", JStr(e.uid)),
             ("before", e.before.GetOr(JNull)), ("after", e.after.GetOr(JNull))])
  }

  /** The line written for an entry, without its line break. */
  function Line(e: Entry): (r: string)
    ensures '\n' !in r
  {
    EncodePrintable(EntryJson(e));
    Encode(EntryJson(e))
  }

  /** The text of a file holding `lines`, each ended by `\n`. */
  function Joined(lines: seq<string>): string
    decreases |lines|
  {
    if lines == [] then "" else lines[0] + "\n" + Joined(lines[1..])
  }

  predicate NoBreaks(lines: seq<string>) {
    forall k :: 0 <= k < |lines| ==> '\n' !in lines[k]
  }

  /** The lines of a text whose lines each end in `\n`. */
  function Lines(text: string): seq<string>
    decreases |text|
  {
    match FindChar(text, '\n')
    case None => if text == "" then [] else [text]
    case Some(k) => [text[..k]] + Lines(text[k + 1..])
  }

  /** A line with no break inside, then more lines. */
  lemma LinesCons(line: string, rest: string)
    requires '\n' !in line
    ensures Lines(line + "\n" + rest) == [line] + Lines(rest)
  {
    var t := line + "\n" + rest;
    assert t[..|line|] == line && t[|line| + 1..] == rest;
    assert t[..|line| + 1][|line|] == '\n';
  }

  /** Reading a file back line by line gives the lines written, in order,
      as long as no line holds a break of its own. */
  lemma {:induction false} SplitJoined(lines: seq<string>)
    requires NoBreaks(lines)
    ensures Lines(Joined(lines)) == lines
    decreases |lines|
  {
    if lines == [] {
      assert FindChar("", '\n').None?;
    } else {
      assert NoBreaks(lines[1..]) by {
        forall k | 0 <= k < |lines| - 1 ensures '\n' !in lines[1..][k] {
          assert lines[1..][k] == lines[k + 1];
        }
      }
      SplitJoined(lines[1..]);
      LinesCons(lines[0], Joined(lines[1..]));
    }
  }

  /** Appending a line adds its text, and a break, at the end. */
  lemma {:induction false} JoinedSnoc(lines: seq<string>, line: string)
    ensures Joined(lines + [line]) == Joined(lines) + line + "\n"
    decreases |lines|
  {
    if lines == [] {
      assert [] + [line] == [line];
    } else {
      assert (lines + [line])[1..] == lines[1..] + [line];
      JoinedSnoc(lines[1..], line);
    }
  }

  /** The lines written for `entries`, oldest first. */
  function LinesOf(entries: seq<Entry>): (r: seq<string>)
    ensures |r| == |entries|
    decreases |entries|
  {
    if entries == [] then []
    else LinesOf(entries[..|entries| - 1]) + [Line(entries[|entries| - 1])]
  }

  lemma {:induction false} LinesOfAt(entries: seq<Entry>, k: nat)
    requires k < |entries|
    ensures LinesOf(entries)[k] == Line(entries[k])
    decreases |entries|
  {
    if k < |entries| - 1 {
      LinesOfAt(entries[..|entries| - 1], k);
    }
  }

  /** The log file holding `entries`. */
  function File(entries: seq<Entry>): string {
    Joined(LinesOf(entries))
  }

  /** Reading the log back line by line gives one line per entry, the JSON
      text of that entry, in the order they were recorded. */
  lemma FileLines(entries: seq<Entry>)
    ensures |Lines(File(entries))| == |entries|
    ensures forall k :: 0 <= k < |entries| ==> Lines(File(entries))[k] == Line(entries[k])
  {
    forall k | 0 <= k < |entries| ensures LinesOf(entries)[k] == Line(entries[k]) {
      LinesOfAt(entries, k);
    }
    SplitJoined(LinesOf(entries));
  }

  /** Recording an entry writes its line after everything already in the
      file: earlier text is never rewritten. */
  lemma FileGrows(entries: seq<Entry>, e: Entry)
    ensures File(entries + [e]) == File(entries) + Line(e) + "\n"
  {
    assert (entries + [e])[..|entries|] == entries;
    JoinedSnoc(LinesOf(entries), Line(e));
  }

  /** The log file, opened for appending on every write. */
  class AuditLog {
    var text: string
    ghost var entries: seq<Entry>

    ghost predicate Valid()
      reads this
    {
      text == File(entries)
    }

    constructor ()
      ensures Valid() && entries == []
    {
      text := "";
      entries := [];
    }

    /** `record_change`: the entry with the time of the call is serialised
        and appended as one line. `after` is `None` unless given. */
    method RecordChange(resource: string, uid: string, action: string,
                        before: Option<Json>, after: Option<Json>, now: string)
      requires Valid()
      modifies this
      ensures Valid()
      ensures entries == old(entries) + [Entry(now, resource, action, uid, before, after)]
      ensures text == old(text) + Line(Entry(now, resource, action, uid, before, after)) + "\n"
    {
      var entry := Entry(now, resource, action, uid, before, after);
      var line := Line(entry);
      assert (entries + [entry])[..|entries|] == entries;
      JoinedSnoc(LinesOf(entries), line);
      text := text + line + "\n";
      entries := entries + [entry];
    }
  }
}
