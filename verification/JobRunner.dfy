/**
 What a Job makes of its files: the tally of what came of them, and the claim to the
 user that its last view is.
 */
module JobRunner {
  import opened Wrappers
  import opened Paths
  import opened CommitMachine

  /******* Tiers *******/

  function Strength(t: Tier): nat {
    match t
    case SharedExtents => 3
    case Checksummed => 2
    case SizeChecked => 1
  }

  function Weakest(a: Tier, b: Tier): Tier { if Strength(a) <= Strength(b) then a else b }

  function Label(t: Tier): string {
    match t
    case SharedExtents => "Shared extents"
    case Checksummed => "Checksummed"
    case SizeChecked => "Size checked"
  }

  /******* What came of the files *******/

  /** `size` is the landed file's length, where it could still be asked. */
  datatype File = File(asked: string, outcome: Outcome, size: Option<nat>) {
    predicate Arrived() { outcome.Moved? || outcome.Copied? }

    function Landing(): Path
      requires Arrived()
    {
      match outcome
      case Moved(at) => at
      case Copied(_, _, _, at) => at
    }

    function Bytes(): nat {
      match outcome
      case Moved(_) => if size.Some? then size.value else 0
      case Copied(_, bytes, _, _) => bytes
      case SkippedExisting => 0
    }
  }

  datatype Landed = Landed(asked: string, name: string)

  /** Everything that arrived, in order. */
  function Arrivals(seen: seq<File>): (r: seq<File>)
    ensures forall f :: f in r <==> f in seen && f.Arrived()
  {
    if seen == [] then []
    else Arrivals(seen[..|seen| - 1]) + if seen[|seen| - 1].Arrived() then [seen[|seen| - 1]] else []
  }

  /** The names asked for and landed under, in landing order. */
  function Names(files: seq<File>): (r: seq<Landed>)
    requires forall f | f in files :: f.Arrived()
    ensures |r| == |files|
  {
    if files == [] then []
    else var f := files[|files| - 1];
         assert f in files;
         Names(files[..|files| - 1]) + [Landed(f.asked, f.Landing().name)]
  }

  function Sum(files: seq<File>): nat {
    if files == [] then 0 else Sum(files[..|files| - 1]) + files[|files| - 1].Bytes()
  }

  function Count(seen: seq<File>, p: Outcome -> bool): nat {
    if seen == [] then 0 else Count(seen[..|seen| - 1], p) + if p(seen[|seen| - 1].outcome) then 1 else 0
  }

  const IS_MOVED := (o: Outcome) => o.Moved?
  const IS_COPIED := (o: Outcome) => o.Copied?
  const IS_REPLACED := (o: Outcome) => o.Copied? && o.replaced
  const IS_SKIPPED := (o: Outcome) => o.SkippedExisting?

  /** How each figure grows when one more file is done. */
  lemma Grows(seen: seq<File>, f: File, p: Outcome -> bool)
    ensures Count(seen + [f], p) == Count(seen, p) + if p(f.outcome) then 1 else 0
    ensures Arrivals(seen + [f]) == if f.Arrived() then Arrivals(seen) + [f] else Arrivals(seen)
    ensures Sum(Arrivals(seen + [f])) == Sum(Arrivals(seen)) + f.Bytes()
    ensures Names(Arrivals(seen + [f])) ==
      if f.Arrived() then Names(Arrivals(seen)) + [Landed(f.asked, f.Landing().name)] else Names(Arrivals(seen))
  {
    assert (seen + [f])[..|seen|] == seen;
    assert Arrivals(seen + [f]) == Arrivals(seen) + if f.Arrived() then [f] else [];
    if f.Arrived() {
      assert (Arrivals(seen) + [f])[..|Arrivals(seen)|] == Arrivals(seen);
      assert Names(Arrivals(seen) + [f]) == Names(Arrivals(seen)) + [Landed(f.asked, f.Landing().name)];
    } else {
      assert Arrivals(seen + [f]) == Arrivals(seen);
    }
  }

  lemma {:induction false} CountIsPositive(seen: seq<File>, p: Outcome -> bool)
    ensures Count(seen, p) > 0 <==> exists f :: f in seen && p(f.outcome)
  {
    if seen != [] {
      CountIsPositive(seen[..|seen| - 1], p);
      assert seen == seen[..|seen| - 1] + [seen[|seen| - 1]];
    }
  }

  /** Every file is counted once: moved, copied or left alone. */
  lemma {:induction false} Partition(seen: seq<File>)
    ensures Count(seen, IS_MOVED) + Count(seen, IS_COPIED) == |Arrivals(seen)|
    ensures |Arrivals(seen)| + Count(seen, IS_SKIPPED) == |seen|
    ensures Count(seen, IS_REPLACED) <= Count(seen, IS_COPIED)
  {
    if seen != [] { Partition(seen[..|seen| - 1]); }
  }

  ghost function Where(seen: seq<File>, p: Outcome -> bool): set<nat> {
    set i | 0 <= i < |seen| && p(seen[i].outcome)
  }

  lemma WhereGrows(seen: seq<File>, p: Outcome -> bool)
    requires seen != []
    ensures var n := |seen| - 1;
      Where(seen, p) == Where(seen[..n], p) + (if p(seen[n].outcome) then {n} else {}) && n !in Where(seen[..n], p)
  {
  }

  /** A count is the number of the files it counts. */
  lemma {:induction false} CountIsHowMany(seen: seq<File>, p: Outcome -> bool)
    ensures Count(seen, p) == |Where(seen, p)|
  {
    if seen == [] {
      assert Where(seen, p) == {};
    } else {
      WhereGrows(seen, p);
      hide Where;
      CountIsHowMany(seen[..|seen| - 1], p);
    }
  }

  /** The landings are listed in the order of their files, each with the name asked for
      and the name it has; a file that was left alone has none. */
  ghost predicate Lists(landed: seq<Landed>, seen: seq<File>) { exists at :: ListsAt(landed, seen, at) }

  ghost predicate ListsAt(landed: seq<Landed>, seen: seq<File>, at: seq<nat>) {
    && |at| == |landed|
    && (forall n, m | 0 <= n < m < |at| :: at[n] < at[m])
    && (forall n | 0 <= n < |at| :: at[n] < |seen| && IsLandingOf(landed[n], seen[at[n]]))
    && (forall i | 0 <= i < |seen| && !seen[i].outcome.SkippedExisting? :: i in at)
  }

  predicate IsLandingOf(l: Landed, f: File) {
    match f.outcome
    case Moved(committedAs) => l == Landed(f.asked, committedAs.name)
    case Copied(_, _, _, committedAs) => l == Landed(f.asked, committedAs.name)
    case SkippedExisting => false
  }

  lemma {:induction false} NamesAreListed(seen: seq<File>)
    ensures Lists(Names(Arrivals(seen)), seen)
  {
    hide ListsAt;
    if seen == [] {
      NothingListed();
    } else {
      hide Lists;
      var n := |seen| - 1;
      NamesAreListed(seen[..n]);
      assert seen[..n] + [seen[n]] == seen;
      Grows(seen[..n], seen[n], IS_MOVED);
      hide Names, Arrivals;
      OneMoreListed(Names(Arrivals(seen[..n])), seen[..n], seen[n]);
    }
  }

  lemma NothingListed()
    ensures Lists([], [])
  {
    assert ListsAt([], [], []);
  }

  lemma OneMoreListed(landed: seq<Landed>, seen: seq<File>, f: File)
    requires Lists(landed, seen)
    ensures Lists(if f.Arrived() then landed + [Landed(f.asked, f.Landing().name)] else landed, seen + [f])
  {
    hide ListsAt, File.Landing, File.Arrived;
    var at :| ListsAt(landed, seen, at);
    ListedAt(landed, seen, at, f);
  }

  lemma ListedAt(landed: seq<Landed>, seen: seq<File>, at: seq<nat>, f: File)
    requires ListsAt(landed, seen, at)
    ensures f.Arrived() ==> ListsAt(landed + [Landed(f.asked, f.Landing().name)], seen + [f], at + [|seen|])
    ensures !f.Arrived() ==> ListsAt(landed, seen + [f], at)
  {
    hide IsLandingOf;
    if f.Arrived() {
      LandingIs(f);
      NewLanding(landed, seen, at, f, Landed(f.asked, f.Landing().name));
    }
    hide File.Landing;
  }

  lemma NewLanding(landed: seq<Landed>, seen: seq<File>, at: seq<nat>, f: File, l: Landed)
    requires ListsAt(landed, seen, at) && IsLandingOf(l, f)
    ensures ListsAt(landed + [l], seen + [f], at + [|seen|])
  {
    hide IsLandingOf;
    var at', seen' := at + [|seen|], seen + [f];
    forall i | 0 <= i < |seen'| && !seen'[i].outcome.SkippedExisting? ensures i in at' {
      if i < |seen| {
        assert seen'[i] == seen[i] && i in at;
        assert at' == at + [|seen|];
      } else {
        assert at'[|at|] == i;
      }
    }
    forall n | 0 <= n < |at'| ensures at'[n] < |seen'| && IsLandingOf((landed + [l])[n], seen'[at'[n]]) {
      if n < |at| { assert at'[n] == at[n] && (landed + [l])[n] == landed[n] && seen'[at[n]] == seen[at[n]]; }
    }
  }

  lemma LandingIs(f: File)
    requires f.Arrived()
    ensures IsLandingOf(Landed(f.asked, f.Landing().name), f)
  {
  }

  /** `w` is the least tier any copy in `seen` received, if there was one. */
  ghost predicate IsLeast(seen: seq<File>, w: Option<Tier>) {
    match w
    case None => forall f | f in seen :: !f.outcome.Copied?
    case Some(t) =>
      && (exists f :: f in seen && f.outcome.Copied? && f.outcome.tier == t)
      && forall f | f in seen && f.outcome.Copied? :: Strength(t) <= Strength(f.outcome.tier)
  }

  /******* The claim *******/

  datatype Word = WordMoved | WordCopied | WordSkipped | WordFailed

  datatype Completion = Completion(outcome: Word, tier: string, strength: Option<nat>)

  /** Some file was copied under this tier. */
  ghost predicate CopiedUnder(seen: seq<File>, t: Tier) {
    exists f :: f in seen && f.outcome.Copied? && f.outcome.tier == t
  }

  /** One size check makes it a size check; shared extents are claimed where nothing less
      was done; and the rank goes with the words. */
  ghost predicate ClaimsTheWorst(seen: seq<File>, c: Completion) {
    var sized, summed, shared :=
      CopiedUnder(seen, SizeChecked), CopiedUnder(seen, Checksummed), CopiedUnder(seen, SharedExtents);
    && (c.strength == Some(1) <==> sized) && (c.tier == "Size checked" <==> sized)
    && (c.strength == Some(2) <==> summed && !sized) && (c.tier == "Checksummed" <==> summed && !sized)
    && (c.strength == Some(3) <==> shared && !summed && !sized)
    && (c.tier == "Shared extents" <==> shared && !summed && !sized)
  }

  lemma LeastIsWorst(seen: seq<File>, t: Tier)
    requires IsLeast(seen, Some(t))
    ensures ClaimsTheWorst(seen, Completion(WordCopied, Label(t), Some(Strength(t))))
  {
    forall u | CopiedUnder(seen, u) ensures Strength(t) <= Strength(u) {
      var f :| f in seen && f.outcome.Copied? && f.outcome.tier == u;
    }
    assert CopiedUnder(seen, t);
    hide CopiedUnder;
  }

  lemma NothingClaimed(seen: seq<File>, c: Completion)
    requires (forall f | f in seen :: !f.outcome.Copied?) && c.strength.None?
    requires c.tier in {"Moved", "Nothing moved", "Nothing copied"}
    ensures ClaimsTheWorst(seen, c)
  {
    assert forall t :: !CopiedUnder(seen, t);
    assert |c.tier| != |"Size checked"|;
    assert c.tier[0] != 'C' && c.tier[0] != 'S';
  }

  /** What a finished Job may say, in terms of what happened to its files. */
  ghost predicate MaySayOf(seen: seq<File>, isMove: bool, c: Completion) {
    var anyMoved := exists f :: f in seen && f.outcome.Moved?;
    var anyCopied := exists f :: f in seen && f.outcome.Copied?;
    && (c.outcome == WordMoved <==> anyMoved && !anyCopied)
    && (c.outcome == WordCopied <==> anyCopied)
    && (c.outcome == WordSkipped <==> !anyMoved && !anyCopied)
    && (c.strength.Some? <==> anyCopied)
    && ClaimsTheWorst(seen, c)
    && (c.outcome == WordMoved ==> c.tier == "Moved")
    && (c.outcome == WordSkipped ==> c.tier == if isMove then "Nothing moved" else "Nothing copied")
  }

  /** The claim is determined by which outcomes occurred; their order and their
      number do not matter. */
  lemma ClaimIgnoresOrder(seen: seq<File>, seen': seq<File>, isMove: bool, c: Completion, c': Completion)
    requires forall f :: f in seen <==> f in seen'
    requires MaySayOf(seen, isMove, c) && MaySayOf(seen', isMove, c')
    ensures c == c'
  {
    forall t ensures CopiedUnder(seen, t) <==> CopiedUnder(seen', t) {}
    if c.strength.Some? {
      var f :| f in seen && f.outcome.Copied?;
      assert CopiedUnder(seen, f.outcome.tier);
    }
    hide CopiedUnder;
  }

  class Tally {
    var weakest: Option<Tier>
    var moved: nat
    var copied: nat
    var replaced: nat
    var skippedExisting: nat
    var bytes: nat
    var landed: seq<Landed>
    const isMove: bool
    ghost var seen: seq<File>

    ghost predicate Valid()
      reads this
    {
      && moved == Count(seen, IS_MOVED) && copied == Count(seen, IS_COPIED)
      && replaced == Count(seen, IS_REPLACED) && skippedExisting == Count(seen, IS_SKIPPED)
      && bytes == Sum(Arrivals(seen)) && landed == Names(Arrivals(seen))
      && IsLeast(seen, weakest)
    }

    constructor (isMove: bool)
      ensures Valid() && seen == [] && this.isMove == isMove
    {
      weakest, moved, copied, replaced, skippedExisting, bytes, landed := None, 0, 0, 0, 0, 0, [];
      this.isMove, seen := isMove, [];
    }

    method Record(asked: string, outcome: Outcome, size: Option<nat>)
      requires Valid()
      modifies this
      ensures Valid() && seen == old(seen) + [File(asked, outcome, size)]
    {
      hide Count, Sum, Arrivals, Names, IsLeast;
      ghost var f := File(asked, outcome, size);
      seen := seen + [f];
      Grows(old(seen), f, IS_MOVED);
      Grows(old(seen), f, IS_COPIED);
      Grows(old(seen), f, IS_REPLACED);
      Grows(old(seen), f, IS_SKIPPED);
      LeastGrows(old(seen), old(weakest), f);
      match outcome
      case Moved(committedAs) =>
        moved := moved + 1;
        bytes := bytes + if size.Some? then size.value else 0;
        landed := landed + [Landed(asked, committedAs.name)];
      case Copied(tier, n, wasReplaced, committedAs) =>
        copied := copied + 1;
        if wasReplaced { replaced := replaced + 1; }
        weakest := Some(if weakest == None then tier else Weakest(weakest.value, tier));
        bytes := bytes + n;
        landed := landed + [Landed(asked, committedAs.name)];
      case SkippedExisting =>
        skippedExisting := skippedExisting + 1;
    }

    function FilesDone(): nat
      reads this
    {
      moved + copied
    }

    method Finish() returns (c: Completion)
      requires Valid()
      ensures MaySayOf(seen, isMove, c)
    {
      hide ClaimsTheWorst;
      CountIsPositive(seen, IS_MOVED);
      CountIsPositive(seen, IS_COPIED);
      if moved > 0 && copied == 0 {
        c := Completion(WordMoved, "Moved", None);
        NothingClaimed(seen, c);
        return;
      }
      match weakest
      case Some(t) =>
        c := Completion(WordCopied, Label(t), Some(Strength(t)));
        LeastIsWorst(seen, t);
      case None =>
        c := Completion(WordSkipped, if isMove then "Nothing moved" else "Nothing copied", None);
        NothingClaimed(seen, c);
    }
  }

  lemma LeastGrows(seen: seq<File>, w: Option<Tier>, f: File)
    requires IsLeast(seen, w)
    ensures IsLeast(seen + [f], if !f.outcome.Copied? then w
                                else Some(if w == None then f.outcome.tier else Weakest(w.value, f.outcome.tier)))
  {
    assert f in seen + [f];
    if w.Some? {
      var g :| g in seen && g.outcome.Copied? && g.outcome.tier == w.value;
      assert g in seen + [f];
    }
  }

  /******* The request and its views *******/

  datatype View = View(filesDone: nat, filesTotal: nat, filesSkipped: nat, filesReplaced: nat,
                       filesSkippedExisting: nat,
                       bytes: nat, outcome: Option<Word>, tier: Option<string>, strength: Option<nat>,
                       landedAs: seq<Landed>, failed: bool) {
    predicate Terminal() { failed || tier.Some? }
  }

  datatype Request = Request(sources: seq<Path>, dir: string, checksum: bool, policy: Policy, isMove: bool) {
    /** What the engine is asked to do for one file: it goes under its own name. */
    function JobOf(i: nat): Job
      requires i < |sources|
    {
      Job(sources[i], Path(dir, sources[i].name), checksum, policy, isMove)
    }
  }

  predicate Answers(o: Outcome, policy: Policy, isMove: bool) {
    && (o.Moved? ==> isMove) && (o.Copied? ==> !isMove)
    && (o.SkippedExisting? ==> policy == Skip)
  }

  /** The calls for the first `n` sources: each goes under its own name. */
  function Calls(sources: seq<Path>, dir: string, n: nat): (calls: seq<(Path, Path)>)
    requires n <= |sources|
    ensures |calls| == n
    ensures forall i | 0 <= i < n ::
      calls[i].0 == sources[i] && calls[i].1.dir == dir && calls[i].1.name == sources[i].name
  {
    seq(n, i requires 0 <= i < n => (sources[i], Path(dir, sources[i].name)))
  }

  /** How the numbers of a last view add up, `seen` being what came of the files
      that did not fail and `tried` how many were handed to the engine. */
  ghost predicate Conserves(v: View, seen: seq<File>, tried: nat, journaled: bool) {
    var failing := if v.failed && journaled then 1 else 0;
    && v.filesDone + v.filesSkippedExisting + failing + v.filesSkipped == v.filesTotal
    && tried == |seen| + failing && tried + v.filesSkipped == v.filesTotal
    && v.filesDone == |v.landedAs| && Lists(v.landedAs, seen) && v.bytes == Sum(Arrivals(seen))
    && v.filesDone == |WhichArrived(seen)|
    && v.filesSkippedExisting == |WhichStayed(seen)|
    && v.filesReplaced == |WhichReplaced(seen)|
  }

  /** The verb is the request's: a move says moved, skipped or failed and carries
      no tier, a copy says copied, skipped or failed. */
  ghost predicate KeepsVerb(v: View, isMove: bool) {
    && v.Terminal() && v.outcome.Some? && (v.failed <==> v.outcome.value == WordFailed)
    && (!v.failed ==> v.filesSkipped == 0
                      && v.outcome.value == if v.filesDone == 0 then WordSkipped
                                            else if isMove then WordMoved else WordCopied)
    && (v.strength.Some? <==> v.outcome.value == WordCopied)
  }

  ghost function WhichArrived(seen: seq<File>): set<nat> {
    set i | 0 <= i < |seen| && !seen[i].outcome.SkippedExisting?
  }

  ghost function WhichStayed(seen: seq<File>): set<nat> {
    set i | 0 <= i < |seen| && seen[i].outcome.SkippedExisting?
  }

  ghost function WhichReplaced(seen: seq<File>): set<nat> {
    set i | 0 <= i < |seen| && seen[i].outcome.Copied? && seen[i].outcome.replaced
  }

  /** Counting files is counting where they are. */
  lemma HowMany(seen: seq<File>)
    ensures |WhichArrived(seen)| == |Arrivals(seen)| && |WhichStayed(seen)| == Count(seen, IS_SKIPPED)
    ensures |WhichReplaced(seen)| == Count(seen, IS_REPLACED)
  {
    hide Count, Arrivals;
    AllWhoArrived(seen);
    CountIsHowMany(seen, IS_SKIPPED);
    CountIsHowMany(seen, IS_REPLACED);
    assert WhichStayed(seen) == Where(seen, IS_SKIPPED);
    assert WhichReplaced(seen) == Where(seen, IS_REPLACED);
  }

  lemma {:induction false} AllWhoArrived(seen: seq<File>)
    ensures |WhichArrived(seen)| == |Arrivals(seen)|
  {
    if seen != [] {
      var n := |seen| - 1;
      AllWhoArrived(seen[..n]);
      assert n !in WhichArrived(seen[..n]);
      assert WhichArrived(seen) == WhichArrived(seen[..n]) + if seen[n].Arrived() then {n} else {};
    }
  }

  /** The figures of a tally are those of its files. */
  lemma TallyIsTrue(t: Tally)
    requires t.Valid()
    ensures t.moved + t.copied == |t.landed| == |WhichArrived(t.seen)| && Lists(t.landed, t.seen)
    ensures t.skippedExisting == |WhichStayed(t.seen)| && |t.landed| + t.skippedExisting == |t.seen|
    ensures t.replaced == |WhichReplaced(t.seen)|
  {
    hide Count, Arrivals, Lists;
    Partition(t.seen);
    HowMany(t.seen);
    NamesAreListed(t.seen);
    hide Names, WhichArrived, WhichStayed, WhichReplaced;
  }

  lemma Stillborn(v: View, isMove: bool)
    requires v == View(0, v.filesTotal, v.filesTotal, 0, 0, 0, Some(WordFailed), None, None, [], true)
    ensures Conserves(v, [], 0, false) && KeepsVerb(v, isMove)
  {
    HowMany([]);
    NamesAreListed([]);
  }

  lemma FailedAddsUp(t: Tally, view: View, v: View, isMove: bool)
    requires t.Valid() && |t.seen| < view.filesTotal && view.strength == None
    requires view.filesReplaced == t.replaced && view.filesSkippedExisting == t.skippedExisting
    requires v == view.(outcome := Some(WordFailed), failed := true, filesDone := t.moved + t.copied,
                        filesSkipped := view.filesTotal - |t.seen| - 1, bytes := t.bytes, landedAs := t.landed)
    ensures Conserves(v, t.seen, |t.seen| + 1, true) && KeepsVerb(v, isMove)
  {
    hide Lists, WhichArrived, WhichStayed, WhichReplaced;
    TallyIsTrue(t);
  }

  lemma DoneAddsUp(t: Tally, c: Completion, v: View, policy: Policy)
    requires t.Valid() && MaySayOf(t.seen, t.isMove, c)
    requires forall f | f in t.seen :: Answers(f.outcome, policy, t.isMove)
    requires v == View(t.moved + t.copied, |t.seen|, 0, t.replaced, t.skippedExisting, t.bytes,
                       Some(c.outcome), Some(c.tier), c.strength, t.landed, false)
    ensures Conserves(v, t.seen, |t.seen|, true) && KeepsVerb(v, t.isMove)
  {
    TallyIsTrue(t);
    CountIsPositive(t.seen, IS_MOVED);
    CountIsPositive(t.seen, IS_COPIED);
    hide Lists, WhichArrived, WhichStayed, WhichReplaced;
  }
}
