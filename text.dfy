/** The string primitives the two halves of the system rely on: Python's
    `str.strip`, `str.lower`, `str.title`, `str.replace` and `str.join` on
    the backend side, and Swift's `split(whereSeparator: \.isNewline)` on
    the client side. Letters are ASCII only (see README). */
module Text {
  import opened Wrappers

  // ---------------------------------------------------------------------
  // Whitespace and stripping (Python `str.isspace`, `str.strip`)
  // ---------------------------------------------------------------------

  /** Python's `str.isspace` for one character. */
  predicate IsSpace(c: char) {
    ('\t' <= c <= '\r') || ('\U{1C}' <= c <= ' ') || c == '\U{85}' || c == '\U{A0}'
    || c == '\U{1680}' || ('\U{2000}' <= c <= '\U{200A}') || c == '\U{2028}' || c == '\U{2029}'
    || c == '\U{202F}' || c == '\U{205F}' || c == '\U{3000}'
  }

  predicate AllSpace(s: string) {
    forall i :: 0 <= i < |s| ==> IsSpace(s[i])
  }

  /** Neither end of `s` is whitespace: what `strip` returns. */
  predicate IsStripped(s: string) {
    s == [] || (!IsSpace(s[0]) && !IsSpace(s[|s| - 1]))
  }

  /** `str.lstrip()`: the longest suffix of `s` that does not start with whitespace. */
  function StripLeft(s: string): (r: string)
    ensures |r| <= |s| && r == s[|s| - |r|..]
    ensures r == [] || !IsSpace(r[0])
    ensures forall k :: 0 <= k < |s| - |r| ==> IsSpace(s[k])
  {
    if s != [] && IsSpace(s[0]) then StripLeft(s[1..]) else s
  }

  /** `str.rstrip()`: the longest prefix of `s` that does not end with whitespace. */
  function StripRight(s: string): (r: string)
    ensures |r| <= |s| && r == s[..|r|]
    ensures r == [] || !IsSpace(r[|r| - 1])
    ensures forall k :: |r| <= k < |s| ==> IsSpace(s[k])
  {
    if s != [] && IsSpace(s[|s| - 1]) then StripRight(s[..|s| - 1]) else s
  }

  /** `str.strip()`. */
  function Strip(s: string): (r: string)
    ensures IsStripped(r)
    ensures r == [] <==> AllSpace(s)
    ensures |r| <= |s|
  {
    var left := StripLeft(s);
    assert left == [] ==> AllSpace(s);
    StripRight(left)
  }

  /** Stripping a string that is already stripped changes nothing; in
      particular `Strip` is idempotent. */
  lemma StrippedIsFixpoint(s: string)
    requires IsStripped(s)
    ensures Strip(s) == s
  {
  }

  // ---------------------------------------------------------------------
  // Case mapping (Python `str.lower`, `str.title`), ASCII letters only
  // ---------------------------------------------------------------------

  predicate IsAsciiLetter(c: char) {
    ('A' <= c <= 'Z') || ('a' <= c <= 'z')
  }

  function LowerChar(c: char): char {
    if 'A' <= c <= 'Z' then (c as int + 32) as char else c
  }

  function UpperChar(c: char): char {
    if 'a' <= c <= 'z' then (c as int - 32) as char else c
  }

  /** `str.lower()`. */
  function Lower(s: string): (r: string)
    ensures |r| == |s|
    ensures forall i :: 0 <= i < |s| ==> r[i] == LowerChar(s[i])
  {
    seq(|s|, i requires 0 <= i < |s| => LowerChar(s[i]))
  }

  /** A string without upper-case letters is its own lower case. */
  lemma LowerOfLower(s: string)
    requires forall i :: 0 <= i < |s| ==> !('A' <= s[i] <= 'Z')
    ensures Lower(s) == s
  {
  }

  /** Lower-casing leaves whitespace where it was, so it keeps a string stripped,
      and lower-casing twice is lower-casing once. */
  lemma LowerKeepsStripped(s: string)
    requires IsStripped(s)
    ensures IsStripped(Lower(s))
    ensures Lower(Lower(s)) == Lower(s)
  {
  }

  /** `str.title()` continued after a character that was (`afterLetter`) or was
      not a cased letter: a letter becomes upper case when no letter precedes
      it and lower case otherwise; every other character is kept. */
  function TitleFrom(s: string, afterLetter: bool): (r: string)
    ensures |r| == |s|
    ensures forall i :: 0 <= i < |s| && !IsAsciiLetter(s[i]) ==> r[i] == s[i]
    ensures forall i :: 0 <= i < |s| && IsAsciiLetter(s[i]) ==>
      r[i] == if (if i == 0 then afterLetter else IsAsciiLetter(s[i - 1])) then LowerChar(s[i]) else UpperChar(s[i])
  {
    if s == [] then []
    else
      var c := s[0];
      var c' := if !IsAsciiLetter(c) then c else if afterLetter then LowerChar(c) else UpperChar(c);
      [c'] + TitleFrom(s[1..], IsAsciiLetter(c))
  }

  /** `str.title()`. */
  function Title(s: string): string {
    TitleFrom(s, false)
  }

  /** `str.replace(from, to)` for single characters. */
  function ReplaceChar(s: string, from: char, to: char): (r: string)
    ensures |r| == |s|
    ensures forall i :: 0 <= i < |s| ==> r[i] == if s[i] == from then to else s[i]
  {
    seq(|s|, i requires 0 <= i < |s| => if s[i] == from then to else s[i])
  }

  // ---------------------------------------------------------------------
  // Joining (Python `sep.join(parts)`)
  // ---------------------------------------------------------------------

  function Join(parts: seq<string>, sep: string): string {
    if parts == [] then []
    else if |parts| == 1 then parts[0]
    else parts[0] + sep + Join(parts[1..], sep)
  }

  // ---------------------------------------------------------------------
  // Lines (Swift `split(whereSeparator: \.isNewline)`)
  // ---------------------------------------------------------------------

  /** Swift's `Character.isNewline`: LF, VT, FF, CR, NEL, LINE SEPARATOR and
      PARAGRAPH SEPARATOR. Each of them is a grapheme of its own (CR LF is one
      grapheme, made of two newline scalars), so splitting the scalars with
      empty pieces dropped gives the same pieces as Swift's split. */
  predicate IsNewline(c: char) {
    ('\n' <= c <= '\r') || c == '\U{85}' || c == '\U{2028}' || c == '\U{2029}'
  }

  predicate HasNoNewline(s: string) {
    forall i :: 0 <= i < |s| ==> !IsNewline(s[i])
  }

  predicate AllNewlines(s: string) {
    forall i :: 0 <= i < |s| ==> IsNewline(s[i])
  }

  /** Where the final line of `s` starts: just past its last newline, or 0. */
  function LineStart(s: string): (k: nat)
    ensures k <= |s|
    ensures k == 0 || IsNewline(s[k - 1])
    ensures HasNoNewline(s[k..])
  {
    if s == [] || IsNewline(s[|s| - 1]) then |s| else LineStart(s[..|s| - 1])
  }

  /** `s.split(whereSeparator: \.isNewline)`: the maximal runs of non-newline
      characters, in order; empty pieces are omitted, as Swift's default does. */
  function SplitLines(s: string): (lines: seq<string>)
    ensures forall l <- lines :: l != [] && HasNoNewline(l)
    decreases |s|
  {
    if s == [] then []
    else if IsNewline(s[|s| - 1]) then SplitLines(s[..|s| - 1])
    else
      var k := LineStart(s);
      SplitLines(s[..k]) + [s[k..]]
  }

  /** `s` with its newline characters removed. */
  function DropNewlines(s: string): (r: string)
    ensures HasNoNewline(r)
  {
    if s == [] then []
    else DropNewlines(s[..|s| - 1]) + (if IsNewline(s[|s| - 1]) then [] else [s[|s| - 1]])
  }

  function Concat(parts: seq<string>): string {
    if parts == [] then [] else Concat(parts[..|parts| - 1]) + parts[|parts| - 1]
  }

  lemma {:induction false} DropNewlinesAppend(a: string, b: string)
    requires HasNoNewline(b)
    ensures DropNewlines(a + b) == DropNewlines(a) + b
    decreases |b|
  {
    if b == [] {
      assert a + b == a;
    } else {
      var b' := b[..|b| - 1];
      assert (a + b)[..|a + b| - 1] == a + b';
      DropNewlinesAppend(a, b');
    }
  }

  lemma {:induction false} DropNewlinesOfNewlines(s: string)
    requires AllNewlines(s)
    ensures DropNewlines(s) == []
    decreases |s|
  {
    if s != [] {
      DropNewlinesOfNewlines(s[..|s| - 1]);
    }
  }

  /** Splitting loses nothing but the newlines: the lines, put back together,
      are the text with its newline characters removed. */
  lemma {:induction false} SplitLinesKeepsText(s: string)
    ensures Concat(SplitLines(s)) == DropNewlines(s)
    decreases |s|
  {
    if s == [] {
    } else if IsNewline(s[|s| - 1]) {
      SplitLinesKeepsText(s[..|s| - 1]);
    } else {
      var k := LineStart(s);
      var lines := SplitLines(s[..k]) + [s[k..]];
      assert lines[..|lines| - 1] == SplitLines(s[..k]);
      SplitLinesKeepsText(s[..k]);
      assert s == s[..k] + s[k..];
      DropNewlinesAppend(s[..k], s[k..]);
    }
  }

  /** There are no lines exactly when the text is nothing but newlines. */
  lemma {:induction false} SplitLinesEmptyIff(s: string)
    ensures SplitLines(s) == [] <==> AllNewlines(s)
    decreases |s|
  {
    if s != [] && IsNewline(s[|s| - 1]) {
      SplitLinesEmptyIff(s[..|s| - 1]);
      if AllNewlines(s[..|s| - 1]) {
        assert forall i :: 0 <= i < |s| ==> IsNewline(s[i]) by {
          forall i | 0 <= i < |s| ensures IsNewline(s[i]) {
            if i < |s| - 1 { assert s[i] == s[..|s| - 1][i]; }
          }
        }
      }
    }
  }

  /** The piece of stdout the client parses: the last element of the split,
      if there is one (`lines.last`). */
  function LastLine(s: string): (r: Option<string>)
    ensures r == None <==> AllNewlines(s)
    ensures r.Some? ==> r.value != [] && HasNoNewline(r.value)
  {
    SplitLinesEmptyIff(s);
    var lines := SplitLines(s);
    if lines == [] then None
    else
      assert lines[|lines| - 1] in lines;
      Some(lines[|lines| - 1])
  }

  /** A final run `l` of non-newline text after a newline (or at the start)
      starts exactly where `p` ends. */
  lemma {:induction false} LineStartAfter(p: string, l: string)
    requires HasNoNewline(l)
    requires p == [] || IsNewline(p[|p| - 1])
    ensures LineStart(p + l) == |p|
    decreases |l|
  {
    if l == [] {
      assert p + l == p;
    } else {
      var s := p + l;
      assert s[|s| - 1] == l[|l| - 1];
      assert s[..|s| - 1] == p + l[..|l| - 1];
      LineStartAfter(p, l[..|l| - 1]);
    }
  }

  /** The last line is the final run of non-newline text: for a text made of
      anything ending in a newline `p`, a line `l` and trailing newlines `q`,
      `LastLine` is `l`, whatever `p` holds. */
  lemma {:induction false} LastLineOfDecomposition(p: string, l: string, q: string)
    requires l != [] && HasNoNewline(l) && AllNewlines(q)
    requires p == [] || IsNewline(p[|p| - 1])
    ensures LastLine(p + l + q) == Some(l)
    decreases |q|
  {
    var s := p + l + q;
    if q == [] {
      assert s == p + l;
      assert s[|s| - 1] == l[|l| - 1];
      LineStartAfter(p, l);
      assert s[..|p|] == p && s[|p|..] == l;
    } else {
      var q' := q[..|q| - 1];
      assert s[|s| - 1] == q[|q| - 1];
      assert s[..|s| - 1] == p + l + q';
      LastLineOfDecomposition(p, l, q');
    }
  }

  /** Conversely, whenever there is a last line, the text decomposes that way. */
  lemma {:induction false} LastLineDecomposes(s: string) returns (p: string, q: string)
    requires LastLine(s).Some?
    ensures s == p + LastLine(s).value + q
    ensures AllNewlines(q) && (p == [] || IsNewline(p[|p| - 1]))
    decreases |s|
  {
    var l := LastLine(s).value;
    if IsNewline(s[|s| - 1]) {
      var s' := s[..|s| - 1];
      assert SplitLines(s) == SplitLines(s');
      var q';
      p, q' := LastLineDecomposes(s');
      q := q' + [s[|s| - 1]];
      assert s == s' + [s[|s| - 1]];
    } else {
      var k := LineStart(s);
      p, q := s[..k], [];
      assert s == s[..k] + s[k..];
    }
  }
}
