/** Numbers and dates as the trash writes them, and as they are read back. */
module TrashDate {
  import opened Wrappers
  import opened Paths
  import opened TrashRecord
  import opened Calendar

  /******* Writing *******/

  function Digits(n: nat): Bytes {
    if n < 10 then [(48 + n) as byte] else Digits(n / 10) + [(48 + n % 10) as byte]
  }

  lemma {:induction false} DigitsAreDigits(n: nat)
    ensures forall b | b in Digits(n) :: 48 <= b <= 57
  {
    if n >= 10 { DigitsAreDigits(n / 10); }
  }

  /** Zeros in front of a number, and its sign in front of them, to `width` places. */
  function Padded(n: int, width: nat): Bytes {
    var sign: Bytes := if n < 0 then [45] else [];
    var digits := Digits(if n < 0 then -n else n);
    var gap := width - |sign| - |digits|;
    sign + seq(if gap > 0 then gap else 0, _ => 48) + digits
  }

  /** `YYYY-MM-DDThh:mm:ss` */
  function Iso(c: Civil): Bytes {
    Padded(c.date.year, 4) + [45] + Padded(c.date.month, 2) + [45] + Padded(c.date.day, 2) + [84]
    + Padded(c.hour, 2) + [58] + Padded(c.minute, 2) + [58] + Padded(c.second, 2)
  }

  lemma PaddedIsOneLine(n: int, width: nat)
    ensures OneLine(Padded(n, width))
  {
    DigitsAreDigits(if n < 0 then -n else n);
  }

  lemma IsoIsOneLine(c: Civil)
    ensures OneLine(Iso(c))
  {
    hide Padded;
    PaddedIsOneLine(c.date.year, 4);
    PaddedIsOneLine(c.date.month, 2);
    PaddedIsOneLine(c.date.day, 2);
    PaddedIsOneLine(c.hour, 2);
    PaddedIsOneLine(c.minute, 2);
    PaddedIsOneLine(c.second, 2);
  }

  /******* Reading *******/

  predicate IsDigit(b: byte) { '0' <= b as char <= '9' }

  /** A number in base ten, its first digit the most significant. */
  function NumberOf(s: Bytes): int {
    if s == [] then 0 else 10 * NumberOf(s[..|s| - 1]) + s[|s| - 1] as int - '0' as int
  }

  predicate IsNumber(s: Bytes) { s != [] && forall b | b in s :: IsDigit(b) }

  /** The number's usual form: no zero in front, but for zero itself. */
  lemma {:induction false} DigitsRead(n: nat)
    ensures IsNumber(Digits(n)) && NumberOf(Digits(n)) == n && (Digits(n)[0] as char == '0' <==> n == 0)
  {
    var s := Digits(n);
    if n < 10 {
      assert NumberOf([]) == 0 && s[..0] == [];
    } else {
      DigitsRead(n / 10);
      assert s[..|s| - 1] == Digits(n / 10);
    }
  }

  lemma {:induction false} ZerosInFront(k: nat, s: Bytes)
    ensures NumberOf(seq(k, _ => 48) + s) == NumberOf(s)
  {
    var t: Bytes := seq(k, _ => 48);
    if s == [] {
      if k > 0 {
        ZerosInFront(k - 1, []);
        assert t + s == t && t[..k - 1] == seq(k - 1, _ => 48) + [];
      } else {
        assert t + s == [];
      }
    } else {
      var n := |s| - 1;
      ZerosInFront(k, s[..n]);
      assert (t + s)[..k + n] == t + s[..n];
    }
  }

  lemma DigitsAreFew(n: nat)
    ensures n < 100 ==> |Digits(n)| <= 2
    ensures n < 10_000 ==> |Digits(n)| <= 4
  {
    assert n >= 10 ==> |Digits(n)| == |Digits(n / 10)| + 1;
    assert n >= 100 ==> |Digits(n / 10)| == |Digits(n / 10 / 10)| + 1;
    assert n >= 1000 ==> |Digits(n / 10 / 10)| == |Digits(n / 10 / 10 / 10)| + 1;
  }

  lemma PaddedReads(n: nat, width: nat)
    requires (width == 2 && n < 100) || (width == 4 && n < 10_000)
    ensures |Padded(n, width)| == width && IsNumber(Padded(n, width)) && NumberOf(Padded(n, width)) == n
  {
    DigitsRead(n);
    DigitsAreFew(n);
    hide Digits, NumberOf;
    var gap := width - |Digits(n)|;
    ZerosInFront(gap, Digits(n));
    assert Padded(n, width) == seq(gap, _ => 48) + Digits(n);
  }

  /** `YYYY-MM-DDThh:mm:ss`, and nothing else. */
  function ReadIso(s: Bytes): Option<Civil> {
    if |s| == 19 && IsNumber(s[0..4]) && IsNumber(s[5..7]) && IsNumber(s[8..10])
       && IsNumber(s[11..13]) && IsNumber(s[14..16]) && IsNumber(s[17..19])
       && s[4] as char == '-' && s[7] as char == '-' && s[10] as char == 'T'
       && s[13] as char == ':' && s[16] as char == ':'
    then Some(Civil(Date(NumberOf(s[0..4]), NumberOf(s[5..7]), NumberOf(s[8..10])),
                    NumberOf(s[11..13]), NumberOf(s[14..16]), NumberOf(s[17..19])))
    else None
  }

  /** A date of four digits reads as what was written. */
  lemma IsoReadsBack(c: Civil)
    requires ValidCivil(c) && 0 <= c.date.year <= 9999
    ensures ReadIso(Iso(c)) == Some(c)
  {
    assert c.date.day < 100;
    PaddedReads(c.date.year, 4);
    PaddedReads(c.date.month, 2);
    PaddedReads(c.date.day, 2);
    PaddedReads(c.hour, 2);
    PaddedReads(c.minute, 2);
    PaddedReads(c.second, 2);
    hide Padded, NumberOf, IsNumber, ValidCivil;
    SixFields(Padded(c.date.year, 4), Padded(c.date.month, 2), Padded(c.date.day, 2),
              Padded(c.hour, 2), Padded(c.minute, 2), Padded(c.second, 2));
  }

  lemma SixFields(y: Bytes, m: Bytes, d: Bytes, h: Bytes, i: Bytes, s: Bytes)
    requires |y| == 4 && |m| == |d| == |h| == |i| == |s| == 2
    ensures var t := y + [45] + m + [45] + d + [84] + h + [58] + i + [58] + s;
      && |t| == 19 && t[0..4] == y && t[5..7] == m && t[8..10] == d && t[11..13] == h && t[14..16] == i
      && t[17..19] == s && t[4] as char == t[7] as char == '-' && t[10] as char == 'T'
      && t[13] as char == t[16] as char == ':'
  {
  }

  /** When a record says its file was deleted. */
  function Dated(raw: Bytes): Option<Civil> { DateAmong(Lines(raw)) }

  function DateAmong(lines: seq<Bytes>): Option<Civil> {
    if lines == [] then None
    else if Ascii("DeletionDate=") <= lines[|lines| - 1] then ReadIso(lines[|lines| - 1][13..])
    else DateAmong(lines[..|lines| - 1])
  }

  /** The record written at a time says so. */
  lemma RecordTellsTheTime(path: Bytes, now: int)
    requires 0 <= CivilFromUnix(now).date.year <= 9999
    ensures var text := Render(path, Iso(CivilFromUnix(now)));
      Dated(text).Some? && ValidCivil(Dated(text).value) && Unix(Dated(text).value) == now
  {
    hide Iso, ReadIso, CivilFromUnix, ValidCivil, Unix, Escape, Lines;
    var c := CivilFromUnix(now);
    CivilInverts(now);
    IsoIsOneLine(c);
    IsoReadsBack(c);
    RecordIsThreeLines(path, Iso(c));
    ThreeLines(HEADER, PATH_KEY + Escape(path), DATE_KEY + Iso(c));
    TheWords();
    var lines := [HEADER, PATH_KEY + Escape(path), DATE_KEY + Iso(c)];
    assert lines[2][13..] == Iso(c);
    assert DateAmong(lines) == ReadIso(Iso(c));
  }
}
