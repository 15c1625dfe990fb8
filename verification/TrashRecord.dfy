/**
 The text of a trash record: percent-encoding, and the lines around it, as the
 FreeDesktop.org Trash specification ("Contents of a trash directory") has them.
 */
module TrashRecord {
  import opened Wrappers
  import opened Paths

  /******* Percent-encoding *******/

  const PERCENT: byte := 37
  const NEWLINE: byte := 10
  const RETURN: byte := 13

  predicate Unreserved(b: byte) {
    || 65 <= b <= 90 || 97 <= b <= 122 || 48 <= b <= 57
    || b == 47 || b == 45 || b == 95 || b == 46 || b == 126
  }

  /** An upper-case hexadecimal digit. */
  function Hex(n: byte): byte
    requires n < 16
  {
    if n < 10 then 48 + n else 55 + n
  }

  function HexDigit(b: byte): Option<byte> {
    if 48 <= b <= 57 then Some(b - 48)
    else if 97 <= b <= 102 then Some(b - 97 + 10)
    else if 65 <= b <= 70 then Some(b - 65 + 10)
    else None
  }

  function EscapeByte(b: byte): Bytes {
    if Unreserved(b) then [b] else [PERCENT, Hex(b / 16), Hex(b % 16)]
  }

  function Escape(s: Bytes): Bytes {
    if s == [] then [] else EscapeByte(s[0]) + Escape(s[1..])
  }

  /** An escape stands at the head of `s`. */
  predicate Escaped(s: Bytes) {
    |s| > 2 && s[0] == PERCENT && HexDigit(s[1]).Some? && HexDigit(s[2]).Some?
  }

  function Decoded(s: Bytes): byte
    requires Escaped(s)
  {
    var hi, lo := HexDigit(s[1]).value as int, HexDigit(s[2]).value as int;
    (hi * 16 + lo) as byte
  }

  /** Escapes decoded, everything else as it stands. */
  function Unescape(s: Bytes): Bytes {
    if s == [] then []
    else if Escaped(s) then [Decoded(s)] + Unescape(s[3..])
    else [s[0]] + Unescape(s[1..])
  }

  /** One turn of the decoder, from the `i`-th byte on. */
  lemma StepsAt(s: Bytes, i: nat)
    requires i < |s|
    ensures Escape(s[i..]) == EscapeByte(s[i]) + Escape(s[i + 1..])
    ensures Escaped(s[i..]) <==> i + 2 < |s| && s[i] == PERCENT && HexDigit(s[i + 1]).Some? && HexDigit(s[i + 2]).Some?
    ensures Unescape(s[i..]) ==
      if Escaped(s[i..]) then [Decoded(s[i..])] + Unescape(s[i + 3..]) else [s[i]] + Unescape(s[i + 1..])
  {
    assert s[i..][1..] == s[i + 1..];
    if i + 2 < |s| { assert s[i..][3..] == s[i + 3..]; }
  }

  lemma Regroups(a: Bytes, b: Bytes, c: Bytes)
    ensures (a + b) + c == a + (b + c)
  {
  }

  method UriEscape(s: Bytes) returns (out: Bytes)
    ensures out == Escape(s)
  {
    hide Unescape, Unreserved, Hex, Escaped, HexDigit;
    out := [];
    for i := 0 to |s|
      invariant out + Escape(s[i..]) == Escape(s)
    {
      StepsAt(s, i);
      Regroups(out, EscapeByte(s[i]), Escape(s[i + 1..]));
      if Unreserved(s[i]) {
        out := out + [s[i]];
      } else {
        out := out + [PERCENT, Hex(s[i] / 16), Hex(s[i] % 16)];
      }
    }
  }

  method UriUnescape(s: Bytes) returns (out: Bytes)
    ensures out == Unescape(s)
  {
    hide Escape, EscapeByte, Escaped, HexDigit, Unreserved, Hex;
    out := [];
    var i := 0;
    while i < |s|
      invariant i <= |s| && out + Unescape(s[i..]) == Unescape(s)
    {
      StepsAt(s, i);
      if s[i] == PERCENT && i + 2 < |s| {
        var hi, lo := HexDigit(s[i + 1]), HexDigit(s[i + 2]);
        if hi.Some? && lo.Some? {
          var b := (hi.value as int * 16 + lo.value as int) as byte;
          Regroups(out, [b], Unescape(s[i + 3..]));
          out := out + [b];
          i := i + 3;
          continue;
        }
      }
      Regroups(out, [s[i]], Unescape(s[i + 1..]));
      out := out + [s[i]];
      i := i + 1;
    }
  }

  lemma HexInverts(b: byte)
    requires !Unreserved(b)
    ensures forall t: Bytes :: Escaped(EscapeByte(b) + t) && Decoded(EscapeByte(b) + t) == b
  {
  }

  /** For every byte string: what was escaped comes back. */
  lemma {:induction false} EscapeRoundTrips(s: Bytes)
    ensures Unescape(Escape(s)) == s
  {
    if s != [] {
      var e := EscapeByte(s[0]);
      EscapeRoundTrips(s[1..]);
      assert (e + Escape(s[1..]))[|e|..] == Escape(s[1..]);
      if !Unreserved(s[0]) { HexInverts(s[0]); }
    }
  }

  /** Letters, digits, slash, and four marks. */
  predicate Plain(b: byte) {
    var c := b as char;
    'A' <= c <= 'Z' || 'a' <= c <= 'z' || '0' <= c <= '9' || c in {'/', '-', '_', '.', '~'}
  }

  /** Escaped text holds nothing but plain characters and percent signs, so it never
      breaks a line; and only text that holds others is changed. */
  lemma {:induction false} EscapeIsPlain(s: Bytes)
    ensures forall b | b in Escape(s) :: Plain(b) || b as char == '%'
    ensures Escape(s) == s <==> forall b | b in s :: Plain(b)
    ensures |Escape(s)| >= |s|
  {
    if s != [] {
      EscapeIsPlain(s[1..]);
      assert s == [s[0]] + s[1..];
      if Unreserved(s[0]) {
        assert Escape(s) == [s[0]] + Escape(s[1..]);
        assert Escape(s)[1..] == Escape(s[1..]);
      } else {
        assert |Escape(s)| == 3 + |Escape(s[1..])| && s[0] in s && !Plain(s[0]);
      }
    }
  }

  /** What is not plain becomes a percent sign and its number in two digits of base
      sixteen, in capitals. */
  lemma EscapedInCapitals(b: byte)
    ensures !Plain(b) ==> exists hi, lo ::
      && EscapeByte(b) == [37, hi, lo] && CapitalDigit(hi) && CapitalDigit(lo)
      && HexDigit(hi) == Some(b / 16) && HexDigit(lo) == Some(b % 16)
  {
    if !Plain(b) { assert EscapeByte(b) == [37, Hex(b / 16), Hex(b % 16)]; }
  }

  predicate CapitalDigit(b: byte) { '0' <= b as char <= '9' || 'A' <= b as char <= 'F' }

  /** A digit of base sixteen, and nothing but one: no sign, no space. */
  lemma HexDigitIs(b: byte)
    ensures var c := b as char;
      && (HexDigit(b).Some? <==> '0' <= c <= '9' || 'a' <= c <= 'f' || 'A' <= c <= 'F')
      && ('0' <= c <= '9' ==> HexDigit(b).value as int == (c - '0') as int)
      && ('a' <= c <= 'f' ==> HexDigit(b).value as int == (c - 'a') as int + 10)
      && ('A' <= c <= 'F' ==> HexDigit(b).value as int == (c - 'A') as int + 10)
  {
  }

  /** How many escapes `s` holds; none overlaps another. */
  function Escapes(s: Bytes): nat {
    if s == [] then 0 else (if Escaped(s) then 1 else 0) + Escapes(s[1..])
  }

  /** Each escape shortens the text by two, and nothing else changes its length. */
  lemma {:induction false} UnescapeShortens(s: Bytes)
    ensures |Unescape(s)| + 2 * Escapes(s) == |s|
  {
    if s == [] {
    } else if Escaped(s) {
      UnescapeShortens(s[3..]);
      assert s[1..][1..] == s[2..] && s[2..][1..] == s[3..];
      assert Escapes(s[1..]) == Escapes(s[2..]) == Escapes(s[3..]);
    } else {
      UnescapeShortens(s[1..]);
    }
  }

  lemma {:induction false} EscapesSomewhere(s: Bytes)
    ensures Escapes(s) > 0 <==> exists i :: 0 <= i < |s| && Escaped(s[i..])
  {
    if s != [] {
      EscapesSomewhere(s[1..]);
      assert s[0..] == s;
      forall i | 0 <= i < |s| - 1 ensures s[1..][i..] == s[i + 1..] {}
      if Escapes(s[1..]) > 0 {
        var i :| 0 <= i < |s[1..]| && Escaped(s[1..][i..]);
        assert Escaped(s[i + 1..]);
      }
      if i :| 0 <= i < |s| && Escaped(s[i..]) {
        if i > 0 { assert s[1..][i - 1..] == s[i..]; }
      }
    }
  }

  /** Foreign text is left alone exactly when it holds no escape. */
  lemma {:induction false} UntouchedIffNoEscape(s: Bytes)
    ensures Unescape(s) == s <==> forall i | 0 <= i < |s| :: !Escaped(s[i..])
  {
    UnescapeShortens(s);
    EscapesSomewhere(s);
    if Escapes(s) == 0 { UntouchedWithoutEscapes(s); }
  }

  lemma {:induction false} UntouchedWithoutEscapes(s: Bytes)
    requires Escapes(s) == 0
    ensures Unescape(s) == s
  {
    if s != [] { UntouchedWithoutEscapes(s[1..]); }
  }

  lemma HeadStaysEscaped(a: Bytes, t: Bytes)
    requires a != []
    ensures var s := a + ([PERCENT] + t); Escaped(s) == Escaped(a) && (Escaped(a) ==> Decoded(s) == Decoded(a))
  {
    var s := a + ([PERCENT] + t);
    assert HexDigit(PERCENT) == None;
    assert s[|a|] == PERCENT;
  }

  /** A percent sign with no two digits after it stays, and what is on either side
      is decoded as if the other were not there. */
  lemma {:induction false} BarePercentStays(a: Bytes, t: Bytes)
    requires !Escaped([PERCENT] + t)
    ensures Unescape(a + ([PERCENT] + t)) == Unescape(a) + ([PERCENT] + Unescape(t))
  {
    hide Escaped, Decoded, HexDigit;
    var s := a + ([PERCENT] + t);
    if a == [] {
      assert s == [PERCENT] + t && s[1..] == t;
    } else {
      HeadStaysEscaped(a, t);
      UnescapeStep(a);
      UnescapeStep(s);
      var n := if Escaped(a) then 3 else 1;
      BarePercentStays(a[n..], t);
      hide Unescape;
      assert s[0] == a[0] && s[n..] == a[n..] + ([PERCENT] + t);
      Regroups([if Escaped(a) then Decoded(a) else a[0]], Unescape(a[n..]), [PERCENT] + Unescape(t));
    }
  }

  lemma UnescapeStep(s: Bytes)
    requires s != []
    ensures Escaped(s) ==> |s| >= 3
    ensures Unescape(s) == if Escaped(s) then [Decoded(s)] + Unescape(s[3..]) else [s[0]] + Unescape(s[1..])
  {
  }

  /******* The record *******/

  /** The lines of a text: each ends at a newline, less a carriage return before it. */
  function Lines(raw: Bytes): seq<Bytes> {
    if raw == [] then []
    else
      var n := LineEnd(raw);
      if n == |raw| then [raw] else [Chomp(raw[..n])] + Lines(raw[n + 1..])
  }

  /** Where the first line ends. */
  function LineEnd(raw: Bytes): (n: nat)
    ensures n <= |raw| && NEWLINE !in raw[..n] && (n < |raw| ==> raw[n] == NEWLINE)
  {
    if raw == [] || raw[0] == NEWLINE then 0
    else
      var n := LineEnd(raw[1..]);
      assert raw[..1 + n] == [raw[0]] + raw[1..][..n];
      1 + n
  }

  function Chomp(line: Bytes): Bytes {
    if line != [] && line[|line| - 1] == RETURN then line[..|line| - 1] else line
  }

  const HEADER: Bytes := [91, 84, 114, 97, 115, 104, 32, 73, 110, 102, 111, 93] // [Trash Info]
  const PATH_KEY: Bytes := [80, 97, 116, 104, 61] // Path=
  const DATE_KEY: Bytes := [68, 101, 108, 101, 116, 105, 111, 110, 68, 97, 116, 101, 61] // DeletionDate=

  /** Text as its bytes. */
  function Ascii(s: string): Bytes {
    seq(|s|, i requires 0 <= i < |s| => if s[i] < 128 as char then s[i] as int as byte else 63)
  }

  /** The three keys in words. */
  lemma TheWords()
    ensures HEADER == Ascii("[Trash Info]") && PATH_KEY == Ascii("Path=") && DATE_KEY == Ascii("DeletionDate=")
  {
  }

  function Line(text: Bytes): Bytes { text + [NEWLINE] }

  function Render(path: Bytes, date: Bytes): Bytes {
    Line(HEADER) + (Line(PATH_KEY + Escape(path)) + (Line(DATE_KEY + date) + []))
  }

  /** What is written, in full. */
  lemma RecordReads(path: Bytes, date: Bytes)
    ensures Render(path, date) ==
      Ascii("[Trash Info]\nPath=") + Escape(path) + Ascii("\nDeletionDate=") + date + Ascii("\n")
  {
    assert Ascii("[Trash Info]\nPath=") == HEADER + [NEWLINE] + PATH_KEY;
    assert Ascii("\nDeletionDate=") == [NEWLINE] + DATE_KEY;
    assert Ascii("\n") == [NEWLINE];
    hide Escape, Ascii;
    Joined(HEADER, PATH_KEY, Escape(path), DATE_KEY, date);
  }

  lemma Joined(a: Bytes, b: Bytes, c: Bytes, d: Bytes, e: Bytes)
    ensures Line(a) + (Line(b + c) + (Line(d + e) + [])) == (a + [NEWLINE] + b) + c + ([NEWLINE] + d) + e + [NEWLINE]
  {
  }

  method RecordText(path: Bytes, date: Bytes) returns (text: Bytes)
    ensures text == Render(path, date)
  {
    var escaped := UriEscape(path);
    text := Line(HEADER) + (Line(PATH_KEY + escaped) + Line(DATE_KEY + date));
    assert Line(DATE_KEY + date) + [] == Line(DATE_KEY + date);
  }

  /** The last `Path=` line names the original. */
  function Named(lines: seq<Bytes>): Option<Bytes> {
    if lines == [] then None
    else if PATH_KEY <= lines[|lines| - 1] then Some(Unescape(lines[|lines| - 1][|PATH_KEY|..]))
    else Named(lines[..|lines| - 1])
  }

  function Original(raw: Bytes): Option<Bytes> { Named(Lines(raw)) }

  method ReadOriginal(raw: Bytes) returns (original: Option<Bytes>)
    ensures original == Original(raw)
  {
    original := None;
    var lines := Lines(raw);
    for i := 0 to |lines|
      invariant original == Named(lines[..i])
    {
      assert lines[..i + 1][..i] == lines[..i];
      if PATH_KEY <= lines[i] {
        var path := UriUnescape(lines[i][|PATH_KEY|..]);
        original := Some(path);
      }
    }
    assert lines[..|lines|] == lines;
  }

  lemma {:induction false} EndsAt(raw: Bytes, n: nat)
    requires n < |raw| && raw[n] == NEWLINE && forall i | 0 <= i < n :: raw[i] != NEWLINE
    ensures LineEnd(raw) == n
  {
    if n > 0 { EndsAt(raw[1..], n - 1); }
  }

  lemma FirstLine(text: Bytes, rest: Bytes)
    requires NEWLINE !in text && RETURN !in text
    ensures Lines(Line(text) + rest) == [text] + Lines(rest)
  {
    var raw := Line(text) + rest;
    EndsAt(raw, |text|);
    assert raw[..|text|] == text && raw[|text| + 1..] == rest;
  }

  /** A line ends at its newline, with or without a carriage return before it; text
      after the last newline is a line as it stands. */
  lemma LinesEnd(text: Bytes, rest: Bytes)
    requires NEWLINE !in text && (text == [] || text[|text| - 1] != RETURN)
    ensures Lines(text + [10] + rest) == Lines(text + [13, 10] + rest) == [text] + Lines(rest)
    ensures text != [] ==> Lines(text) == [text] && Lines(text + [13]) == [text + [13]]
  {
    assert Chomp(text) == text && Chomp(text + [13]) == text;
    EndsOnce(text, rest);
    EndsOnce(text + [13], rest);
    assert text + [13] + [10] + rest == text + [13, 10] + rest;
    hide Chomp;
    Unended(text);
    Unended(text + [13]);
  }

  lemma EndsOnce(text: Bytes, rest: Bytes)
    requires NEWLINE !in text
    ensures Lines(text + [10] + rest) == [Chomp(text)] + Lines(rest)
  {
    hide Chomp;
    var raw := text + [10] + rest;
    EndsAt(raw, |text|);
    assert raw[..|text|] == text && raw[|text| + 1..] == rest;
  }

  lemma Unended(text: Bytes)
    requires NEWLINE !in text
    ensures text != [] ==> Lines(text) == [text]
  {
    assert LineEnd(text) == |text|;
  }

  /** The last line with the key is the one that counts. */
  lemma {:induction false} LastPathCounts(lines: seq<Bytes>, i: nat)
    requires i < |lines| && PATH_KEY <= lines[i] && forall k | i < k < |lines| :: !(PATH_KEY <= lines[k])
    ensures Named(lines) == Some(Unescape(lines[i][|PATH_KEY|..]))
  {
    hide Unescape;
    if i < |lines| - 1 { LastPathCounts(lines[..|lines| - 1], i); }
  }

  lemma {:induction false} NoPathNamesNothing(lines: seq<Bytes>)
    requires forall k | 0 <= k < |lines| :: !(PATH_KEY <= lines[k])
    ensures Named(lines) == None
  {
    hide Unescape;
    if lines != [] { NoPathNamesNothing(lines[..|lines| - 1]); }
  }

  predicate OneLine(text: Bytes) { NEWLINE !in text && RETURN !in text }

  lemma ThreeLines(a: Bytes, b: Bytes, c: Bytes)
    requires OneLine(a) && OneLine(b) && OneLine(c)
    ensures Lines(Line(a) + (Line(b) + (Line(c) + []))) == [a, b, c]
  {
    hide Line;
    FirstLine(c, []);
    FirstLine(b, Line(c) + []);
    FirstLine(a, Line(b) + (Line(c) + []));
  }

  lemma RecordIsThreeLines(path: Bytes, date: Bytes)
    requires OneLine(date)
    ensures OneLine(HEADER) && OneLine(PATH_KEY + Escape(path)) && OneLine(DATE_KEY + date)
  {
    EscapeIsPlain(path);
    assert forall b: byte | Plain(b) || b as char == '%' :: b != NEWLINE && b != RETURN;
    assert forall b | b in Escape(path) :: b != NEWLINE && b != RETURN;
  }

  lemma SecondNames(header: Bytes, named: Bytes, dated: Bytes)
    requires PATH_KEY <= named && !(PATH_KEY <= dated)
    ensures Named([header, named, dated]) == Some(Unescape(named[|PATH_KEY|..]))
  {
    hide Unescape;
    var lines := [header, named, dated];
    assert lines[..2] == [header, named];
  }

  /** For every path, whatever bytes it holds, and any one-line date: what is
      written is read back. */
  lemma RecordRoundTrips(path: Bytes, date: Bytes)
    requires OneLine(date)
    ensures Original(Render(path, date)) == Some(path)
  {
    hide Escape, Unescape, Lines, Named, OneLine;
    RecordIsThreeLines(path, date);
    ThreeLines(HEADER, PATH_KEY + Escape(path), DATE_KEY + date);
    assert (DATE_KEY + date)[0] == DATE_KEY[0] != PATH_KEY[0];
    SecondNames(HEADER, PATH_KEY + Escape(path), DATE_KEY + date);
    assert (PATH_KEY + Escape(path))[|PATH_KEY|..] == Escape(path);
    EscapeRoundTrips(path);
  }
}
