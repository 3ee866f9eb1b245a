/**
 * The pure string expressions of the webhook handler: JavaScript's one-character
 * `split`, `Array.prototype.join`, the date prefix of an ISO timestamp, the
 * log-entry format and the text inserted into the document.
 */
module Text {
  import opened Wrappers

  /** `s.split(c)` for a one-character separator: the pieces of `s` between the occurrences of `c`. */
  function Split(s: string, c: char): (parts: seq<string>)
    ensures |parts| > 0
    ensures forall i :: 0 <= i < |parts| ==> c !in parts[i]
    ensures Join(parts, [c]) == s
  {
    if s == [] then [""]
    else
      var rest := Split(s[1..], c);
      if s[0] == c then
        assert ([""] + rest)[1..] == rest;
        [""] + rest
      else
        var head := [s[0]] + rest[0];
        assert ([head] + rest[1..])[1..] == rest[1..];
        assert |rest| > 1 ==> Join(rest, [c]) == rest[0] + [c] + Join(rest[1..], [c]);
        [head] + rest[1..]
  }

  /** `xs.join(sep)`: the elements in order with `sep` between neighbours. */
  function Join(xs: seq<string>, sep: string): string
  {
    if |xs| == 0 then ""
    else if |xs| == 1 then xs[0]
    else xs[0] + sep + Join(xs[1..], sep)
  }

  /** The first piece of `s.split(c)` is the longest prefix of `s` without `c`, followed in `s` by `c` when shorter. */
  lemma FirstPiece(s: string, c: char)
    ensures Split(s, c)[0] <= s
    ensures c !in Split(s, c)[0]
    ensures |Split(s, c)[0]| < |s| ==> s[|Split(s, c)[0]|] == c
  {
    var parts := Split(s, c);
    if |parts| > 1 {
      assert s == parts[0] + [c] + Join(parts[1..], [c]);
    }
  }

  /** Splitting text whose first piece is `a` peels `a` off and continues after the separator. */
  lemma {:induction false} SplitAfterPiece(a: string, c: char, t: string)
    requires c !in a
    ensures Split(a + [c] + t, c) == [a] + Split(t, c)
  {
    if a != [] {
      assert (a + [c] + t)[1..] == a[1..] + [c] + t;
      SplitAfterPiece(a[1..], c, t);
      assert [a[0]] + a[1..] == a;
    } else {
      assert a + [c] + t == [c] + t;
    }
  }

  /** Text without the separator splits into itself alone. */
  lemma {:induction false} SplitWithoutSeparator(a: string, c: char)
    requires c !in a
    ensures Split(a, c) == [a]
  {
    if a != [] {
      SplitWithoutSeparator(a[1..], c);
      assert [a[0]] + a[1..] == a;
    }
  }

  /** Splitting undoes joining when no element contains the separator. */
  lemma {:induction false} SplitJoin(xs: seq<string>, c: char)
    requires |xs| > 0
    requires forall i :: 0 <= i < |xs| ==> c !in xs[i]
    ensures Split(Join(xs, [c]), c) == xs
  {
    if |xs| == 1 {
      SplitWithoutSeparator(xs[0], c);
    } else {
      SplitJoin(xs[1..], c);
      SplitAfterPiece(xs[0], c, Join(xs[1..], [c]));
      assert [xs[0]] + xs[1..] == xs;
    }
  }

  /** Joining one more element adds the separator and that element at the end. */
  lemma {:induction false} JoinSnoc(xs: seq<string>, x: string, sep: string)
    requires |xs| > 0
    ensures Join(xs + [x], sep) == Join(xs, sep) + sep + x
  {
    if |xs| == 1 {
      assert xs + [x] == [xs[0], x];
    } else {
      assert (xs + [x])[1..] == xs[1..] + [x];
      JoinSnoc(xs[1..], x, sep);
    }
  }

  /** `timestamp.split('T')[0]`: the calendar day of an ISO-8601 instant. */
  function DatePrefix(timestamp: string): string
  {
    Split(timestamp, 'T')[0]
  }

  predicate IsDigits(s: string)
  {
    forall i :: 0 <= i < |s| ==> '0' <= s[i] <= '9'
  }

  /** The shape `YYYY-MM-DDTHH:mm:ss.sssZ` that `Date.prototype.toISOString` produces for years 0 to 9999. */
  predicate IsIsoInstant(ts: string)
  {
    && |ts| == 24
    && IsDigits(ts[0..4]) && ts[4] == '-' && IsDigits(ts[5..7]) && ts[7] == '-' && IsDigits(ts[8..10])
    && ts[10] == 'T'
    && IsDigits(ts[11..13]) && ts[13] == ':' && IsDigits(ts[14..16]) && ts[16] == ':' && IsDigits(ts[17..19])
    && ts[19] == '.' && IsDigits(ts[20..23]) && ts[23] == 'Z'
  }

  /** The date prefix of an ISO instant is its first ten characters, and the instant holds no `]` or newline. */
  lemma IsoInstantFields(ts: string)
    requires IsIsoInstant(ts)
    ensures DatePrefix(ts) == ts[..10]
    ensures ']' !in ts && '\n' !in ts
  {
    assert forall i :: 0 <= i < 24 && i != 10 ==> ts[i] != 'T' && ts[i] != ']' && ts[i] != '\n' by {
      forall i | 0 <= i < 24 && i != 10
        ensures ts[i] != 'T' && ts[i] != ']' && ts[i] != '\n'
      {
        if i < 4 { assert ts[0..4][i] == ts[i]; }
        else if 5 <= i < 7 { assert ts[5..7][i - 5] == ts[i]; }
        else if 8 <= i < 10 { assert ts[8..10][i - 8] == ts[i]; }
        else if 11 <= i < 13 { assert ts[11..13][i - 11] == ts[i]; }
        else if 14 <= i < 16 { assert ts[14..16][i - 14] == ts[i]; }
        else if 17 <= i < 19 { assert ts[17..19][i - 17] == ts[i]; }
        else if 20 <= i < 23 { assert ts[20..23][i - 20] == ts[i]; }
      }
    }
    assert ts == ts[..10] + ['T'] + ts[11..];
    SplitAfterPiece(ts[..10], 'T', ts[11..]);
  }

  /** A conversation log entry as stored: the instant it was sent and the message text. */
  datatype Entry = Entry(timestamp: string, text: string)

  /** The log line `[<timestamp>] <text>` recorded for a non-trigger message. */
  function FormatEntry(timestamp: string, text: string): string
  {
    "[" + timestamp + "] " + text
  }

  /** Reads a log line back: the text between `[` and the first `]`, which must be followed by a space, then the rest. */
  function ParseEntry(line: string): Option<Entry>
  {
    if |line| == 0 || line[0] != '[' then None
    else
      var body := line[1..];
      var timestamp := Split(body, ']')[0];
      if |timestamp| + 2 <= |body| && body[|timestamp|..|timestamp| + 2] == "] " then
        Some(Entry(timestamp, body[|timestamp| + 2..]))
      else
        None
  }

  /** Parsing recovers the timestamp and text of a formatted entry whose timestamp holds no `]`. */
  lemma ParseFormattedEntry(timestamp: string, text: string)
    requires ']' !in timestamp
    ensures ParseEntry(FormatEntry(timestamp, text)) == Some(Entry(timestamp, text))
  {
    var line := FormatEntry(timestamp, text);
    var body := line[1..];
    assert body == timestamp + [']'] + (" " + text);
    SplitAfterPiece(timestamp, ']', " " + text);
    assert body[|timestamp|..|timestamp| + 2] == "] ";
    assert body[|timestamp| + 2..] == text;
  }

  /** Every line that parses is the formatted entry it parses to, with a `]`-free timestamp. */
  lemma ParsedEntryIsFormatted(line: string)
    requires ParseEntry(line).Some?
    ensures ']' !in ParseEntry(line).value.timestamp
    ensures FormatEntry(ParseEntry(line).value.timestamp, ParseEntry(line).value.text) == line
  {
    var body := line[1..];
    FirstPiece(body, ']');
    var timestamp := Split(body, ']')[0];
    assert body == timestamp + body[|timestamp|..|timestamp| + 2] + body[|timestamp| + 2..];
    assert line == [line[0]] + body;
  }

  /** The text inserted into the document: `日期: <day of timestamp>`, a blank line, then the summary. */
  function DocContent(timestamp: string, summary: string): string
  {
    "日期: " + DatePrefix(timestamp) + "\n\n" + summary
  }

  /** For an ISO instant the document text is the fixed header, the ten-character day, a blank line and the summary. */
  lemma DocContentOfIsoInstant(timestamp: string, summary: string)
    requires IsIsoInstant(timestamp)
    ensures DocContent(timestamp, summary) == "日期: " + timestamp[..10] + "\n\n" + summary
    ensures |DocContent(timestamp, summary)| == 16 + |summary|
  {
    IsoInstantFields(timestamp);
  }

  /** Two ISO-stamped documents with the same text record the same day and the same summary. */
  lemma DocContentDeterminesDayAndSummary(t1: string, s1: string, t2: string, s2: string)
    requires IsIsoInstant(t1) && IsIsoInstant(t2)
    requires DocContent(t1, s1) == DocContent(t2, s2)
    ensures t1[..10] == t2[..10] && s1 == s2
  {
    DocContentOfIsoInstant(t1, s1);
    DocContentOfIsoInstant(t2, s2);
    var c := DocContent(t1, s1);
    assert t1[..10] == c[4..14] == t2[..10];
    assert s1 == c[16..] == s2;
  }
}
