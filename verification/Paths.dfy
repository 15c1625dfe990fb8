/** Paths, and the two names the engine derives from a destination. */
module Paths {

  newtype byte = b: int | 0 <= b < 256

  type Bytes = seq<byte>

  /** A path with a parent directory and a file name. */
  datatype Path = Path(dir: string, name: string)

  const TEMP_PREFIX := ".omafile-"
  const TEMP_SUFFIX := ".part"

  /** The name a file occupies until it is committed. */
  function TempPathFor(dst: Path): Path {
    Path(dst.dir, TEMP_PREFIX + dst.name + TEMP_SUFFIX)
  }

  /** It is hidden, beside the destination, and of no other destination. */
  lemma TempIsInjective(p: Path, q: Path)
    ensures TempPathFor(p).dir == p.dir && TempPathFor(p).name == ".omafile-" + p.name + ".part"
    ensures TempPathFor(p) == TempPathFor(q) ==> p == q
  {
    var a, b := TempPathFor(p).name, TempPathFor(q).name;
    assert |a| == |p.name| + 14 && |b| == |q.name| + 14;
    assert p.name == a[9..9 + |p.name|];
    assert q.name == b[9..9 + |q.name|];
  }

  /** `str::rfind('.')`, with -1 for none. */
  function LastDot(s: string): (r: int)
    ensures -1 <= r < |s|
    ensures r >= 0 ==> s[r] == '.'
    ensures forall k | r < k < |s| :: s[k] != '.'
  {
    if s == [] then -1
    else if s[|s| - 1] == '.' then |s| - 1
    else LastDot(s[..|s| - 1])
  }

  function Digit(d: nat): char
    requires d < 10
  {
    '0' + d as char
  }

  function Decimal(n: nat): string {
    if n < 10 then [Digit(n)] else Decimal(n / 10) + [Digit(n % 10)]
  }

  lemma {:induction false} DecimalIsInjective(m: nat, n: nat)
    requires Decimal(m) == Decimal(n)
    ensures m == n
  {
    var a, b := Decimal(m), Decimal(n);
    assert a[|a| - 1] == Digit(m % 10) && b[|b| - 1] == Digit(n % 10);
    DecimalIsNonempty(m / 10);
    DecimalIsNonempty(n / 10);
    if m >= 10 && n >= 10 {
      assert Decimal(m / 10) == a[..|a| - 1];
      assert Decimal(n / 10) == b[..|b| - 1];
      DecimalIsInjective(m / 10, n / 10);
    }
  }

  lemma DecimalIsNonempty(n: nat)
    ensures |Decimal(n)| >= 1
  {
  }

  /** A number in base ten, its first digit the most significant. */
  function Reading(s: string): int {
    if s == [] then 0 else 10 * Reading(s[..|s| - 1]) + s[|s| - 1] as int - '0' as int
  }

  /** The usual form of `n`: no zero in front, but for zero itself. */
  predicate IsNumeral(s: string, n: nat) {
    && s != [] && (forall c | c in s :: '0' <= c <= '9')
    && Reading(s) == n && (s[0] == '0' <==> n == 0)
  }

  lemma {:induction false} DecimalReads(n: nat)
    ensures IsNumeral(Decimal(n), n)
  {
    var s := Decimal(n);
    if n < 10 {
      assert Reading([]) == 0 && s[..0] == [];
    } else {
      DecimalReads(n / 10);
      assert s[..|s| - 1] == Decimal(n / 10);
    }
  }

  lemma DecimalIsShort(n: nat)
    requires n < 10_000
    ensures 1 <= |Decimal(n)| <= 4
  {
    DecimalIsNonempty(n);
    assert n >= 10 ==> |Decimal(n)| == |Decimal(n / 10)| + 1;
    assert n >= 100 ==> |Decimal(n / 10)| == |Decimal(n / 10 / 10)| + 1;
    assert n >= 1000 ==> |Decimal(n / 10 / 10)| == |Decimal(n / 10 / 10 / 10)| + 1;
  }

  /** The `n`-th name beside `dst`: the number goes before the extension, and a
      leading dot belongs to the stem. */
  function Candidate(dst: Path, n: nat): Path {
    var i := LastDot(dst.name);
    var cut := if i > 0 then i else |dst.name|;
    Path(dst.dir, dst.name[..cut] + "-" + Decimal(n) + dst.name[cut..])
  }

  const CANDIDATE_LIMIT := 10_000

  /** What to do about a name in use. */
  datatype Policy = Skip | Replace | KeepBoth

  lemma CandidateIsLonger(dst: Path, n: nat)
    requires n < CANDIDATE_LIMIT
    ensures Candidate(dst, n).dir == dst.dir
    ensures |dst.name| + 2 <= |Candidate(dst, n).name| <= |dst.name| + 5
  {
    DecimalIsShort(n);
  }

  lemma CandidateIsInjective(dst: Path, m: nat, n: nat)
    requires Candidate(dst, m) == Candidate(dst, n)
    ensures m == n
  {
    var i := LastDot(dst.name);
    var cut := if i > 0 then i else |dst.name|;
    var a, b := Candidate(dst, m).name, Candidate(dst, n).name;
    assert Decimal(m) == a[cut + 1..|a| - |dst.name| + cut];
    assert Decimal(n) == b[cut + 1..|b| - |dst.name| + cut];
    DecimalIsInjective(m, n);
  }

  /** The number goes before the extension, which is what follows the last dot of a
      dotted name, a leading dot aside, or at the end of a name without one. */
  lemma CandidateKeepsExtension(dst: Path, n: nat)
    ensures Candidate(dst, n).dir == dst.dir
    ensures exists stem, numeral, extension ::
      && dst.name == stem + extension && Candidate(dst, n).name == stem + "-" + numeral + extension
      && IsNumeral(numeral, n) && IsExtension(extension, stem)
  {
    DecimalReads(n);
    var i := LastDot(dst.name);
    var cut := if i > 0 then i else |dst.name|;
    hide IsNumeral;
    var stem, extension := dst.name[..cut], dst.name[cut..];
    assert dst.name == stem + extension && IsExtension(extension, stem);
    assert Candidate(dst, n).name == stem + "-" + Decimal(n) + extension;
  }

  /** A dot and what follows it, with no other dot, or nothing where there is no dot but
      perhaps the first character. */
  predicate IsExtension(extension: string, stem: string) {
    if extension == "" then '.' !in stem || '.' !in stem[1..]
    else stem != "" && extension[0] == '.' && '.' !in extension[1..]
  }
}
