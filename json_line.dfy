/** The worker's reply line: `emit` writes `json.dumps(payload,
    ensure_ascii=False)` and a newline to stdout, and the client keeps the
    last newline-separated piece of stdout. The serialiser is modelled for the
    flat objects of the protocol, with the string escaping as a parameter: the
    escaping Python applies, and one that also escapes the three characters
    that Python leaves raw but Swift splits lines on. */
module JsonLine {
  import opened Wrappers
  import opened Text
  import opened Json

  /** How one character of a string is written. */
  type Escape = char -> string

  function HexDigit(n: nat): (c: char)
    requires n < 16
    ensures !IsNewline(c)
  {
    if n < 10 then ('0' as int + n) as char else ('a' as int + n - 10) as char
  }

  /** `\uxxxx`, lower-case hex, for a character of the basic plane. */
  function UnicodeEscape(c: char): (r: string)
    requires c as int < 0x10000
    ensures HasNoNewline(r)
  {
    var n := c as int;
    "\\u" + [HexDigit(n / 4096), HexDigit(n / 256 % 16), HexDigit(n / 16 % 16), HexDigit(n % 16)]
  }

  /** Python's string escaping without `ensure_ascii`: backslash, quote and
      the characters below U+0020 are escaped, everything else is written
      as it is. */
  function PythonEscape(c: char): string {
    if c == '\\' then "\\\\"
    else if c == '"' then "\\\""
    else if c == '\n' then "\\n"
    else if c == '\r' then "\\r"
    else if c == '\t' then "\\t"
    else if c == '\U{8}' then "\\b"
    else if c == '\U{C}' then "\\f"
    else if (c as int) < 0x20 then UnicodeEscape(c)
    else [c]
  }

  /** The line breaks Swift recognises that are not below U+0020. */
  predicate WideLineBreak(c: char) {
    c == '\U{85}' || c == '\U{2028}' || c == '\U{2029}'
  }

  /** Python's escaping, with the wide line breaks escaped as well. */
  function LineSafeEscape(c: char): string {
    if WideLineBreak(c) then UnicodeEscape(c) else PythonEscape(c)
  }

  function EscapeAll(s: string, esc: Escape): string {
    if s == [] then "" else EscapeAll(s[..|s| - 1], esc) + esc(s[|s| - 1])
  }

  function EncodeString(s: string, esc: Escape): string {
    "\"" + EscapeAll(s, esc) + "\""
  }

  function NatText(n: nat): (r: string)
    ensures r != [] && forall k :: 0 <= k < |r| ==> '0' <= r[k] <= '9'
  {
    if n < 10 then [HexDigit(n)] else NatText(n / 10) + [HexDigit(n % 10)]
  }

  /** `str(i)`. */
  function IntText(i: int): string {
    if i < 0 then "-" + NatText(-i) else NatText(i)
  }

  /** One JSON value of the protocol; floats, arrays and nested objects do not
      occur in it. */
  function EncodeValue(v: Value, esc: Escape): string
    requires !v.Other?
  {
    match v
    case Str(s) => EncodeString(s, esc)
    case Int(i) => IntText(i)
    case Bool(b) => if b then "true" else "false"
    case Null => "null"
  }

  /** A payload as Python holds it: its entries in insertion order. */
  type Entries = seq<(string, Value)>

  predicate Flat(entries: Entries) {
    forall k :: 0 <= k < |entries| ==> !entries[k].1.Other?
  }

  function EncodeEntry(entry: (string, Value), esc: Escape): string
    requires !entry.1.Other?
  {
    EncodeString(entry.0, esc) + ": " + EncodeValue(entry.1, esc)
  }

  function EncodeEntries(entries: Entries, esc: Escape): string
    requires Flat(entries)
  {
    if entries == [] then ""
    else if |entries| == 1 then EncodeEntry(entries[0], esc)
    else EncodeEntries(entries[..|entries| - 1], esc) + ", " + EncodeEntry(entries[|entries| - 1], esc)
  }

  /** `json.dumps(payload)` with the default separators. */
  function Dumps(entries: Entries, esc: Escape): (r: string)
    requires Flat(entries)
    ensures r != [] && r[0] == '{'
  {
    "{" + EncodeEntries(entries, esc) + "}"
  }

  /** What `emit` writes. */
  function Emit(entries: Entries, esc: Escape): string
    requires Flat(entries)
  {
    Dumps(entries, esc) + "\n"
  }

  // ---------------------------------------------------------------------
  // Line safety
  // ---------------------------------------------------------------------

  /** An escaping is line-safe when nothing it writes is a line break. */
  predicate LineSafe(esc: Escape) {
    forall c :: HasNoNewline(esc(c))
  }

  lemma NoNewlineAppend(a: string, b: string)
    requires HasNoNewline(a) && HasNoNewline(b)
    ensures HasNoNewline(a + b)
  {
    forall i | 0 <= i < |a + b| ensures !IsNewline((a + b)[i]) {
      if i < |a| { assert (a + b)[i] == a[i]; } else { assert (a + b)[i] == b[i - |a|]; }
    }
  }

  /** Python's escaping writes a line break for exactly the wide line
      breaks: every other character comes out without one. */
  lemma PythonEscapeBreaksOnlyWide(c: char)
    ensures !HasNoNewline(PythonEscape(c)) <==> WideLineBreak(c)
  {
    if WideLineBreak(c) {
      assert PythonEscape(c) == [c];
      assert IsNewline(PythonEscape(c)[0]);
    }
  }

  lemma LineSafeEscapeIsLineSafe()
    ensures LineSafe(LineSafeEscape)
  {
    forall c ensures HasNoNewline(LineSafeEscape(c)) {
      PythonEscapeBreaksOnlyWide(c);
    }
  }

  lemma {:induction false} EscapeAllLineSafe(s: string, esc: Escape)
    requires LineSafe(esc)
    ensures HasNoNewline(EscapeAll(s, esc))
    decreases |s|
  {
    if s != [] {
      EscapeAllLineSafe(s[..|s| - 1], esc);
      NoNewlineAppend(EscapeAll(s[..|s| - 1], esc), esc(s[|s| - 1]));
    }
  }

  lemma EncodeStringLineSafe(s: string, esc: Escape)
    requires LineSafe(esc)
    ensures HasNoNewline(EncodeString(s, esc))
  {
    EscapeAllLineSafe(s, esc);
    NoNewlineAppend("\"", EscapeAll(s, esc));
    NoNewlineAppend("\"" + EscapeAll(s, esc), "\"");
  }

  lemma EncodeEntryLineSafe(entry: (string, Value), esc: Escape)
    requires LineSafe(esc) && !entry.1.Other?
    ensures HasNoNewline(EncodeEntry(entry, esc))
  {
    EncodeStringLineSafe(entry.0, esc);
    var v := EncodeValue(entry.1, esc);
    match entry.1 {
      case Str(s) => EncodeStringLineSafe(s, esc);
      case Int(i) =>
        if i < 0 { NoNewlineAppend("-", NatText(-i)); }
      case Bool(b) =>
      case Null =>
    }
    NoNewlineAppend(EncodeString(entry.0, esc), ": ");
    NoNewlineAppend(EncodeString(entry.0, esc) + ": ", v);
  }

  lemma {:induction false} EncodeEntriesLineSafe(entries: Entries, esc: Escape)
    requires LineSafe(esc) && Flat(entries)
    ensures HasNoNewline(EncodeEntries(entries, esc))
    decreases |entries|
  {
    if |entries| == 1 {
      EncodeEntryLineSafe(entries[0], esc);
    } else if |entries| > 1 {
      var init, last := entries[..|entries| - 1], entries[|entries| - 1];
      EncodeEntriesLineSafe(init, esc);
      EncodeEntryLineSafe(last, esc);
      NoNewlineAppend(EncodeEntries(init, esc), ", ");
      NoNewlineAppend(EncodeEntries(init, esc) + ", ", EncodeEntry(last, esc));
    }
  }

  /** With a line-safe escaping a payload is one line. */
  lemma DumpsLineSafe(entries: Entries, esc: Escape)
    requires LineSafe(esc) && Flat(entries)
    ensures HasNoNewline(Dumps(entries, esc))
  {
    EncodeEntriesLineSafe(entries, esc);
    NoNewlineAppend("{", EncodeEntries(entries, esc));
    NoNewlineAppend("{" + EncodeEntries(entries, esc), "}");
  }

  /** With the line-safe escaping, whatever complete lines came before it on
      stdout, the client's last line is exactly the payload the worker
      emitted. */
  lemma CorrectedLineIsWhole(before: string, entries: Entries)
    requires Flat(entries)
    requires before == [] || IsNewline(before[|before| - 1])
    ensures LastLine(before + Emit(entries, LineSafeEscape)) == Some(Dumps(entries, LineSafeEscape))
  {
    LineSafeEscapeIsLineSafe();
    DumpsLineSafe(entries, LineSafeEscape);
    assert before + Emit(entries, LineSafeEscape) == before + Dumps(entries, LineSafeEscape) + "\n";
    LastLineOfDecomposition(before, Dumps(entries, LineSafeEscape), "\n");
  }

  /** A string without wide line breaks. */
  predicate WideFree(s: string) {
    forall k :: 0 <= k < |s| ==> !WideLineBreak(s[k])
  }

  /** Entries whose keys and string values hold no wide line break. */
  predicate EntriesWideFree(entries: Entries) {
    forall k :: 0 <= k < |entries| ==>
      WideFree(entries[k].0) && (entries[k].1.Str? ==> WideFree(entries[k].1.s))
  }

  lemma {:induction false} EscapeAllAppend(a: string, b: string, esc: Escape)
    ensures EscapeAll(a + b, esc) == EscapeAll(a, esc) + EscapeAll(b, esc)
    decreases |b|
  {
    if b != [] {
      var b' := b[..|b| - 1];
      assert (a + b)[..|a + b| - 1] == a + b';
      assert (a + b)[|a + b| - 1] == b[|b| - 1];
      EscapeAllAppend(a, b', esc);
    } else {
      assert a + b == a;
    }
  }

  lemma FlatAppend(a: Entries, b: Entries)
    requires Flat(a) && Flat(b)
    ensures Flat(a + b)
  {
    forall k | 0 <= k < |a + b| ensures !(a + b)[k].1.Other? {
      if k < |a| { assert (a + b)[k] == a[k]; } else { assert (a + b)[k] == b[k - |a|]; }
    }
  }

  lemma EncodeEntriesLast(entries: Entries, esc: Escape)
    requires Flat(entries) && |entries| > 1
    ensures Flat(entries[..|entries| - 1])
    ensures EncodeEntries(entries, esc)
         == EncodeEntries(entries[..|entries| - 1], esc) + ", " + EncodeEntry(entries[|entries| - 1], esc)
  {
  }

  lemma {:induction false} EncodeEntriesAppend(a: Entries, b: Entries, esc: Escape)
    requires Flat(a) && Flat(b) && a != [] && b != []
    ensures Flat(a + b)
    ensures EncodeEntries(a + b, esc) == EncodeEntries(a, esc) + ", " + EncodeEntries(b, esc)
    decreases |b|
  {
    FlatAppend(a, b);
    var ab := a + b;
    var last := b[|b| - 1];
    assert ab[|ab| - 1] == last;
    if |b| == 1 {
      assert ab[..|ab| - 1] == a;
      assert EncodeEntries(b, esc) == EncodeEntry(last, esc);
    } else {
      var b' := b[..|b| - 1];
      assert ab[..|ab| - 1] == a + b';
      assert Flat(b');
      EncodeEntriesAppend(a, b', esc);
      EncodeEntriesLast(ab, esc);
      EncodeEntriesLast(b, esc);
      AppendAssoc(EncodeEntries(a, esc) + ", ", EncodeEntries(b', esc), ", " + EncodeEntry(last, esc));
    }
  }

  /** On entries without wide line breaks, Python's escaping and the
      line-safe one write the same text. */
  lemma {:induction false} EncodeEntriesWideFree(entries: Entries)
    requires Flat(entries) && EntriesWideFree(entries)
    ensures EncodeEntries(entries, PythonEscape) == EncodeEntries(entries, LineSafeEscape)
    decreases |entries|
  {
    if entries != [] {
      var last := entries[|entries| - 1];
      FixChangesOnlyWideBreaks(last.0);
      if last.1.Str? {
        FixChangesOnlyWideBreaks(last.1.s);
      }
      assert EncodeEntry(last, PythonEscape) == EncodeEntry(last, LineSafeEscape);
      if |entries| > 1 {
        EncodeEntriesWideFree(entries[..|entries| - 1]);
      }
    }
  }

  /** The string field holding the break is written up to and including the
      raw break, then the rest of the string and its closing quote. */
  lemma BrokenFieldWritten(key: string, t: string, c: char, u: string)
    requires WideLineBreak(c)
    ensures EncodeEntries([(key, Str(t + [c] + u))], PythonEscape)
         == (EncodeString(key, PythonEscape) + ": \"" + EscapeAll(t, PythonEscape) + [c])
          + (EscapeAll(u, PythonEscape) + "\"")
  {
    var tc := t + [c];
    assert tc[..|tc| - 1] == t && tc[|tc| - 1] == c;
    assert PythonEscape(c) == [c];
    assert EscapeAll(tc, PythonEscape) == EscapeAll(t, PythonEscape) + [c];
    assert t + [c] + u == tc + u;
    EscapeAllAppend(tc, u, PythonEscape);
    var entry := (key, Str(tc + u));
    assert EncodeEntries([entry], PythonEscape) == EncodeEntry(entry, PythonEscape);
    assert EncodeEntry(entry, PythonEscape)
        == EncodeString(key, PythonEscape) + ": " + ("\"" + (EscapeAll(t, PythonEscape) + [c] + EscapeAll(u, PythonEscape)) + "\"");
    FieldRegroup(EncodeString(key, PythonEscape), EscapeAll(t, PythonEscape), [c], EscapeAll(u, PythonEscape));
  }

  lemma FieldRegroup(k: string, a: string, b: string, d: string)
    ensures k + ": " + ("\"" + (a + b + d) + "\"") == (k + ": \"" + a + b) + (d + "\"")
  {
  }

  /** The entries written after the break hold no line break. */
  lemma TailHasNoNewline(u: string, after: Entries)
    requires Flat(after) && EntriesWideFree(after) && WideFree(u)
    ensures HasNoNewline(EscapeAll(u, PythonEscape) + "\""
                         + (if after == [] then "" else ", " + EncodeEntries(after, PythonEscape)) + "}")
  {
    var post := if after == [] then "" else ", " + EncodeEntries(after, PythonEscape);
    LineSafeEscapeIsLineSafe();
    FixChangesOnlyWideBreaks(u);
    EscapeAllLineSafe(u, LineSafeEscape);
    NoNewlineAppend(EscapeAll(u, PythonEscape), "\"");
    if after != [] {
      EncodeEntriesWideFree(after);
      EncodeEntriesLineSafe(after, LineSafeEscape);
      NoNewlineAppend(", ", EncodeEntries(after, PythonEscape));
    }
    NoNewlineAppend(EscapeAll(u, PythonEscape) + "\"", post);
    NoNewlineAppend(EscapeAll(u, PythonEscape) + "\"" + post, "}");
  }

  /** Two runs of entries written one after the other, with a separator
      between them when both are non-empty. */
  lemma EncodeEntriesJoin(a: Entries, b: Entries, esc: Escape)
    requires Flat(a) && Flat(b)
    ensures Flat(a + b)
    ensures EncodeEntries(a + b, esc)
         == if a == [] then EncodeEntries(b, esc)
            else if b == [] then EncodeEntries(a, esc)
            else EncodeEntries(a, esc) + ", " + EncodeEntries(b, esc)
  {
    if a == [] {
      assert a + b == b;
    } else if b == [] {
      assert a + b == a;
    } else {
      EncodeEntriesAppend(a, b, esc);
    }
  }

  /** A payload text `{pre lead rest post}` whose `lead` ends with a line
      break and whose remainder has none: the client's last line is the
      remainder. */
  lemma SplitAtBreak(pre: string, lead: string, rest: string, post: string)
    requires lead != [] && IsNewline(lead[|lead| - 1])
    requires HasNoNewline(rest + post + "}")
    ensures var line := "{" + (pre + (lead + rest) + post) + "}";
      && LastLine(line + "\n") == Some(rest + post + "}")
      && LastLine(line + "\n") != Some(line)
  {
    var line := "{" + (pre + (lead + rest) + post) + "}";
    var head := "{" + pre + lead;
    var tail := rest + post + "}";
    assert line == head + tail;
    assert line + "\n" == head + tail + "\n";
    assert head[|head| - 1] == lead[|lead| - 1];
    LastLineOfDecomposition(head, tail, "\n");
    assert line[|head| - 1] == lead[|lead| - 1];
  }

  /** Entries followed by one more: a separator between them when there are
      entries before. */
  lemma EncodeEntriesBefore(before: Entries, mid: Entries, esc: Escape)
    requires Flat(before) && Flat(mid) && |mid| == 1
    ensures Flat(before + mid)
    ensures EncodeEntries(before + mid, esc)
         == (if before == [] then "" else EncodeEntries(before, esc) + ", ") + EncodeEntries(mid, esc)
  {
    EncodeEntriesJoin(before, mid, esc);
  }

  /** Non-empty entries followed by more: a separator between them when there
      are entries after. */
  lemma EncodeEntriesAfter(front: Entries, after: Entries, esc: Escape)
    requires Flat(front) && Flat(after) && front != []
    ensures Flat(front + after)
    ensures EncodeEntries(front + after, esc)
         == EncodeEntries(front, esc) + (if after == [] then "" else ", " + EncodeEntries(after, esc))
  {
    EncodeEntriesJoin(front, after, esc);
    if after != [] {
      AppendAssoc(EncodeEntries(front, esc), ", ", EncodeEntries(after, esc));
    }
  }

  lemma AppendAssoc(a: string, b: string, c: string)
    ensures a + b + c == a + (b + c)
  {
  }

  /** The text of a payload around its broken string field. */
  lemma BrokenPayloadWritten(before: Entries, key: string, t: string, c: char, u: string, after: Entries)
    requires Flat(before) && Flat(after) && WideLineBreak(c)
    ensures var entries := before + [(key, Str(t + [c] + u))] + after;
      && Flat(entries)
      && Dumps(entries, PythonEscape)
         == "{" + ((if before == [] then "" else EncodeEntries(before, PythonEscape) + ", ")
                   + ((EncodeString(key, PythonEscape) + ": \"" + EscapeAll(t, PythonEscape) + [c])
                      + (EscapeAll(u, PythonEscape) + "\""))
                   + (if after == [] then "" else ", " + EncodeEntries(after, PythonEscape))) + "}"
  {
    var mid: Entries := [(key, Str(t + [c] + u))];
    var pre := if before == [] then "" else EncodeEntries(before, PythonEscape) + ", ";
    var post := if after == [] then "" else ", " + EncodeEntries(after, PythonEscape);
    var field := EncodeEntries(mid, PythonEscape);
    assert field == (EncodeString(key, PythonEscape) + ": \"" + EscapeAll(t, PythonEscape) + [c])
                    + (EscapeAll(u, PythonEscape) + "\"") by {
      BrokenFieldWritten(key, t, c, u);
    }
    assert Flat(mid);
    EncodeEntriesBefore(before, mid, PythonEscape);
    EncodeEntriesAfter(before + mid, after, PythonEscape);
  }

  /** As written, a payload one of whose strings holds a wide line break
      (U+2028, say), with no wide line break in anything written after it, is
      split by the client: its last line is only the text after that break,
      up to the closing brace, and never the payload itself. */
  lemma AsWrittenSplitsLine(before: Entries, key: string, t: string, c: char, u: string, after: Entries)
    requires Flat(before) && Flat(after) && EntriesWideFree(after)
    requires WideLineBreak(c) && WideFree(u)
    ensures var entries := before + [(key, Str(t + [c] + u))] + after;
      && Flat(entries)
      && LastLine(Emit(entries, PythonEscape))
         == Some(EscapeAll(u, PythonEscape) + "\"" + (if after == [] then "" else ", " + EncodeEntries(after, PythonEscape)) + "}")
      && LastLine(Emit(entries, PythonEscape)) != Some(Dumps(entries, PythonEscape))
  {
    var pre := if before == [] then "" else EncodeEntries(before, PythonEscape) + ", ";
    var lead := EncodeString(key, PythonEscape) + ": \"" + EscapeAll(t, PythonEscape) + [c];
    var rest := EscapeAll(u, PythonEscape) + "\"";
    var post := if after == [] then "" else ", " + EncodeEntries(after, PythonEscape);
    BrokenPayloadWritten(before, key, t, c, u, after);
    TailHasNoNewline(u, after);
    SplitAtBreak(pre, lead, rest, post);
  }

  /** The line-safe escaping differs from Python's only on the wide line
      breaks, so texts without them are written byte for byte as before. */
  lemma {:induction false} FixChangesOnlyWideBreaks(s: string)
    requires forall k :: 0 <= k < |s| ==> !WideLineBreak(s[k])
    ensures EncodeString(s, LineSafeEscape) == EncodeString(s, PythonEscape)
    ensures EscapeAll(s, LineSafeEscape) == EscapeAll(s, PythonEscape)
    decreases |s|
  {
    if s != [] {
      FixChangesOnlyWideBreaks(s[..|s| - 1]);
    }
  }
}
