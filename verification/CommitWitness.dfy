/**
 One run, step by step, of a move between devices that reports success, and of the
 power loss after it that leaves the file nowhere: an instance of `MoveMayBeLostIff`.
 The same run up to the commit, after which a call fails: an instance of
 `ErrorAfterLandingIff`. And a request whose files may land on one name.
 */
module CommitWitness {
  import opened Paths
  import opened Disk
  import opened CommitMachine
  import CommitInvariant
  import opened CommitTheorems

  const SRC := Path("a", "f")
  const DST := Path("b", "f")
  const TEMP := TempPathFor(DST)
  const BYTES: Bytes := [7]
  const THERE := Ino(0, 0)
  const HERE := Ino(1, 0)
  const JOB := Job(SRC, DST, false, Skip, true)

  /** Nothing fails here but the power. */
  ghost function Setup(hash: Bytes -> int): Config {
    Config(map[0 := JOB], map[SRC := BYTES], true, true, true, s => if s == "b" then 1 else 0, hash, _ => iset{DST},
           id => id)
  }

  /** The states the disk and the journal pass through. */
  datatype Tape = Tape(fs0: Fs, fs1: Fs, fs2: Fs, fs3: Fs, fs4: Fs, fs5: Fs, fs6: Fs, jn0: Journal, jn1: Journal,
                       jn2: Journal)

  /** Each is the effect of one call on the one before. */
  ghost predicate Recorded(c: Config, t: Tape) {
    && DST !in t.fs0.names && Present(t.fs0, SRC) && |Read(t.fs0, SRC).bytes| == 1 && c.dev(SRC.dir) != c.dev(DST.dir)
    && Records(t.jn0, Entry(SRC, DST, TEMP, 1, 0, false), true, t.jn1)
    && OpensTruncated(c.dev, t.fs0, TEMP, HERE, t.fs1)
    && ReadsOn(c, JOB, Point(t.fs1, t.jn1, Now(Chunk, 1, HERE, 0)), Point(t.fs2, t.jn1, Now(Chunk, 1, HERE, 1)))
    && Syncs(t.fs2, HERE, true, t.fs3)
    && Renames(t.fs3, TEMP, DST, true, t.fs4)
    && Clears(t.jn1, DST, true, t.jn2)
    && Unlinks(t.fs4, SRC, true, t.fs5)
  }

  function Now(at: At, expected: nat, h: Ino, total: nat): Run { Run(at, DST, expected, false, h, total) }

  /** The run, moment by moment: disk, journal, and the Job's thread. */
  function Moment(t: Tape, k: nat): Point
    requires k <= 16
  {
    if k == 0 then Point(t.fs0, t.jn0, RESTING)
    else if k == 1 then Point(t.fs0, t.jn0, Now(MoveExists, 0, THERE, 0))
    else if k == 2 then Point(t.fs0, t.jn0, Now(MoveSameFs, 0, THERE, 0))
    else if k == 3 then Point(t.fs0, t.jn0, Now(At.Stat, 0, THERE, 0))
    else if k == 4 then Point(t.fs0, t.jn0, Now(At.Exists, 1, THERE, 0))
    else if k == 5 then Point(t.fs0, t.jn0, Now(SameFs, 1, THERE, 0))
    else if k == 6 then Point(t.fs0, t.jn0, Now(Record, 1, THERE, 0))
    else if k == 7 then Point(t.fs0, t.jn1, Now(Open(0), 1, THERE, 0))
    else if k == 8 then Point(t.fs1, t.jn1, Now(Chunk, 1, HERE, 0))
    else if k == 9 then Point(t.fs2, t.jn1, Now(Chunk, 1, HERE, 1))
    else if k == 10 then Point(t.fs2, t.jn1, Now(At.Sync, 1, HERE, 1))
    else if k == 11 then Point(t.fs3, t.jn1, Now(Measure, 1, HERE, 1))
    else if k == 12 then Point(t.fs3, t.jn1, Now(Commit(SizeChecked), 1, HERE, 1))
    else if k == 13 then Point(t.fs4, t.jn1, Now(Clear(SizeChecked), 1, HERE, 1))
    else if k == 14 then Point(t.fs4, t.jn2, Now(MoveRemove, 1, HERE, 1))
    else if k == 15 then Point(t.fs5, t.jn2, Now(Finished(Ok(Moved(DST)), false), 1, HERE, 1))
    else Point(t.fs6, Journal(map[], {}), RESTING)
  }

  function Whole(x: Point): Sys { Sys(x.fs, x.jn, map[0 := x.r], {(SRC, BYTES)}) }

  /** The conflict checks find nothing, and the devices differ. */
  lemma Asks(c: Config, fs: Fs, jn: Journal)
    requires DST !in fs.names && Present(fs, SRC) && |Read(fs, SRC).bytes| == 1 && c.dev(SRC.dir) != c.dev(DST.dir)
    ensures Moves(c, JOB, Point(fs, jn, RESTING), Point(fs, jn, Now(MoveExists, 0, THERE, 0)))
    ensures Moves(c, JOB, Point(fs, jn, Now(MoveExists, 0, THERE, 0)), Point(fs, jn, Now(MoveSameFs, 0, THERE, 0)))
    ensures Moves(c, JOB, Point(fs, jn, Now(MoveSameFs, 0, THERE, 0)), Point(fs, jn, Now(At.Stat, 0, THERE, 0)))
    ensures Moves(c, JOB, Point(fs, jn, Now(At.Stat, 0, THERE, 0)), Point(fs, jn, Now(At.Exists, 1, THERE, 0)))
    ensures Moves(c, JOB, Point(fs, jn, Now(At.Exists, 1, THERE, 0)), Point(fs, jn, Now(SameFs, 1, THERE, 0)))
    ensures Moves(c, JOB, Point(fs, jn, Now(SameFs, 1, THERE, 0)), Point(fs, jn, Now(Record, 1, THERE, 0)))
  {
    assert MaySay(c, fs, DST, false);
  }

  lemma Opens(c: Config, fs: Fs, fs': Fs, jn: Journal, jn': Journal)
    requires Records(jn, Entry(SRC, DST, TEMP, 1, 0, false), true, jn') && OpensTruncated(c.dev, fs, TEMP, HERE, fs')
    ensures Moves(c, JOB, Point(fs, jn, Now(Record, 1, THERE, 0)), Point(fs, jn', Now(Open(0), 1, THERE, 0)))
    ensures Moves(c, JOB, Point(fs, jn', Now(Open(0), 1, THERE, 0)), Point(fs', jn', Now(Chunk, 1, HERE, 0)))
  {
    hide OpensTruncated, Records;
  }

  lemma Fills(c: Config, fs: Fs, fs': Fs, fs'': Fs, jn: Journal)
    requires ReadsOn(c, JOB, Point(fs, jn, Now(Chunk, 1, HERE, 0)), Point(fs', jn, Now(Chunk, 1, HERE, 1)))
    requires Syncs(fs', HERE, true, fs'')
    ensures Moves(c, JOB, Point(fs, jn, Now(Chunk, 1, HERE, 0)), Point(fs', jn, Now(Chunk, 1, HERE, 1)))
    ensures Moves(c, JOB, Point(fs', jn, Now(Chunk, 1, HERE, 1)), Point(fs', jn, Now(At.Sync, 1, HERE, 1)))
    ensures Moves(c, JOB, Point(fs', jn, Now(At.Sync, 1, HERE, 1)), Point(fs'', jn, Now(Measure, 1, HERE, 1)))
    ensures Moves(c, JOB, Point(fs'', jn, Now(Measure, 1, HERE, 1)),
                  Point(fs'', jn, Now(Commit(SizeChecked), 1, HERE, 1)))
  {
    hide ReadsOn, Syncs;
  }

  lemma Ends(c: Config, fs: Fs, fs': Fs, fs'': Fs, jn: Journal, jn': Journal)
    requires Renames(fs, TEMP, DST, true, fs') && Clears(jn, DST, true, jn') && Unlinks(fs', SRC, true, fs'')
    ensures Moves(c, JOB, Point(fs, jn, Now(Commit(SizeChecked), 1, HERE, 1)),
                  Point(fs', jn, Now(Clear(SizeChecked), 1, HERE, 1)))
    ensures Moves(c, JOB, Point(fs', jn, Now(Clear(SizeChecked), 1, HERE, 1)),
                  Point(fs', jn', Now(MoveRemove, 1, HERE, 1)))
    ensures Moves(c, JOB, Point(fs', jn', Now(MoveRemove, 1, HERE, 1)),
                  Point(fs'', jn', Now(Finished(Ok(Moved(DST)), false), 1, HERE, 1)))
  {
    hide Renames, Clears, Unlinks;
  }

  lemma Unwinds(c: Config, t: Tape)
    requires Recorded(c, t)
    ensures forall k: nat | k < 15 :: Moves(c, JOB, Moment(t, k), Moment(t, k + 1))
  {
    hide Records, OpensTruncated, ReadsOn, Syncs, Renames, Clears, Unlinks, Moves;
    Asks(c, t.fs0, t.jn0);
    Opens(c, t.fs0, t.fs1, t.jn0, t.jn1);
    Fills(c, t.fs1, t.fs2, t.fs3, t.jn1);
    Ends(c, t.fs3, t.fs4, t.fs5, t.jn1, t.jn2);
  }

  lemma Starts(c: Config) returns (fs0: Fs, fs1: Fs, fs2: Fs, fs3: Fs)
    requires c.dev(SRC.dir) == 0 && c.dev(DST.dir) == 1
    ensures fs0 == Fs(map[SRC := THERE], {}, map[THERE := Data(BYTES, true)])
    ensures OpensTruncated(c.dev, fs0, TEMP, HERE, fs1) && Writes(fs1, HERE, 0, BYTES, fs2)
      && Syncs(fs2, HERE, true, fs3)
    ensures Present(fs1, SRC) && Read(fs1, SRC).bytes == BYTES
    ensures fs3.names == map[SRC := THERE, TEMP := HERE] && fs0.names in fs3.past
    ensures fs3.data == map[THERE := Data(BYTES, true), HERE := Data(BYTES, true)]
  {
    assert TEMP !in map[SRC := THERE];
    assert WriteAt([], 0, BYTES) == BYTES;
    fs0 := Fs(map[SRC := THERE], {}, map[THERE := Data(BYTES, true)]);
    fs1 := Retree(fs0, fs0.names[TEMP := HERE]).(data := fs0.data[HERE := Data([], false)]);
    fs2 := fs1.(data := fs1.data[HERE := Data(BYTES, false)]);
    fs3 := fs2.(data := fs2.data[HERE := Data(BYTES, true)]);
  }

  lemma Finishes(fs0: Fs, fs3: Fs) returns (fs4: Fs, fs5: Fs)
    requires fs3.names == map[SRC := THERE, TEMP := HERE] && fs0.names in fs3.past
    ensures Renames(fs3, TEMP, DST, true, fs4) && Unlinks(fs4, SRC, true, fs5)
    ensures fs5.names == map[DST := HERE] && fs0.names in fs5.past && fs5.data == fs3.data
  {
    assert SRC != DST && TEMP != SRC && TEMP != DST;
    fs4 := Retree(fs3, (fs3.names - {TEMP})[DST := HERE]);
    fs5 := Retree(fs4, fs4.names - {SRC});
  }

  lemma Reads(c: Config, fs1: Fs, fs2: Fs, jn: Journal)
    requires Writes(fs1, HERE, 0, BYTES, fs2) && Present(fs1, SRC) && Read(fs1, SRC).bytes == BYTES
    ensures ReadsOn(c, JOB, Point(fs1, jn, Now(Chunk, 1, HERE, 0)), Point(fs2, jn, Now(Chunk, 1, HERE, 1)))
  {
    assert BYTES[0..1] == BYTES;
    assert Copies(c, JOB, fs1, Now(Chunk, 1, HERE, 0), BYTES);
  }

  /** The device the file left shows its newest tree, the one it went to its oldest. */
  lemma Loses(c: Config, fs0: Fs, fs5: Fs, fs6: Fs)
    requires forall s :: c.dev(s) == if s == "b" then 1 else 0
    requires fs0.names == map[SRC := THERE] && fs5.names == map[DST := HERE] && fs0.names in fs5.past
    requires (forall i | i in fs5.data :: fs5.data[i].synced) && fs6 == Fs(map[], {}, fs5.data)
    ensures LosesPower(c.dev, fs5, fs6)
  {
    assert fs0.names in Snaps(fs5) && fs5.names in Snaps(fs5);
    forall v ensures FromMedium(c.dev, fs5, fs6.names, v) {
      if v == 1 { assert Agree(c.dev, fs6.names, fs0.names, v); } else { assert Agree(c.dev, fs6.names, fs5.names, v); }
    }
  }

  lemma Taped(c: Config) returns (t: Tape)
    requires c.before == map[SRC := BYTES] && forall s :: c.dev(s) == if s == "b" then 1 else 0
    ensures Recorded(c, t) && LosesPower(c.dev, t.fs5, t.fs6) && t.fs6.names == map[]
    ensures SRC !in t.fs5.names && t.fs0.names in Snaps(t.fs5)
    ensures t.fs0 == Fs(map[SRC := THERE], {}, map[THERE := Data(BYTES, true)]) && t.jn0 == Journal(map[], {})
      && t.jn2.book == map[]
  {
    var fs0, fs1, fs2, fs3 := Starts(c);
    var fs4, fs5 := Finishes(fs0, fs3);
    var fs6 := Fs(map[], {}, fs5.data);
    Loses(c, fs0, fs5, fs6);
    var jn0 := Journal(map[], {});
    var jn1 := Rebook(jn0, map[DST := Entry(SRC, DST, TEMP, 1, 0, false)]);
    var jn2 := Rebook(jn1, map[]);
    assert jn1.book - {DST} == map[];
    Reads(c, fs1, fs2, jn1);
    hide OpensTruncated, Writes, Syncs, Renames, Unlinks, ReadsOn, LosesPower;
    t := Tape(fs0, fs1, fs2, fs3, fs4, fs5, fs6, jn0, jn1, jn2);
  }

  lemma Footprints(c: Config)
    requires c.jobs == map[0 := JOB] && c.before == map[SRC := BYTES] && (forall id :: c.reach(id) == iset{DST})
    requires forall a, b | c.hash(a) == c.hash(b) :: a == b
    ensures Disjoint(c)
  {
    assert forall p :: MayReach(JOB, p) <==> p == DST;
    assert SRC != DST;
  }

  lemma Begins(c: Config, x: Point)
    requires c.jobs == map[0 := JOB] && c.before == map[SRC := BYTES] && c.dev(SRC.dir) == 0
    requires x == Point(Fs(map[SRC := THERE], {}, map[THERE := Data(BYTES, true)]), Journal(map[], {}), RESTING)
    ensures Init(c, Whole(x))
  {
  }

  lemma StepsOn(c: Config, x: Point, y: Point)
    requires c.jobs == map[0 := JOB] && Moves(c, JOB, x, y)
    ensures Steps(c, Whole(x), Whole(y))
  {
    hide Moves;
    assert Whole(y).runs == Whole(x).runs[0 := y.r];
    assert PointOf(Whole(x), 0) == x && PointOf(Whole(y), 0) == y;
    assert Next(c, Whole(x), Step(0), Whole(y));
  }

  lemma GoesDark(c: Config, x: Point, y: Point)
    requires c.power && LosesPower(c.dev, x.fs, y.fs) && x.jn.book == map[] && y.jn == Journal(map[], {})
      && y.r == RESTING
    ensures Steps(c, Whole(x), Whole(y))
  {
    hide LosesPower;
    assert Rested(Whole(x).runs) == Whole(y).runs;
    assert Next(c, Whole(x), PowerLoss, Whole(y));
  }

  ghost function History(t: Tape): seq<Sys> { seq(17, k requires 0 <= k < 17 => Whole(Moment(t, k))) }

  lemma IsOneRun(c: Config, t: Tape)
    requires c.jobs == map[0 := JOB] && Init(c, Whole(Moment(t, 0)))
      && Steps(c, Whole(Moment(t, 15)), Whole(Moment(t, 16)))
    requires forall k: nat | k < 15 :: Moves(c, JOB, Moment(t, k), Moment(t, k + 1))
    ensures IsRun(c, History(t))
  {
    hide Init, Moves, Steps, Moment, Whole;
    var hist := History(t);
    forall k | 0 <= k < |hist| - 1 ensures Steps(c, hist[k], hist[k + 1]) {
      if k < 15 { StepsOn(c, Moment(t, k), Moment(t, k + 1)); }
    }
  }

  lemma SaysMoved(t: Tape)
    ensures var hist := History(t);
      && 0 in hist[15].runs && hist[15].runs[0].at == Finished(Ok(Moved(DST)), false)
      && hist[15].fs == t.fs5 && hist[16].fs == t.fs6
  {
  }

  lemma Happens(c: Config) returns (hist: seq<Sys>)
    requires c.jobs == map[0 := JOB] && c.before == map[SRC := BYTES] && c.power
    requires forall s :: c.dev(s) == if s == "b" then 1 else 0
    ensures IsRun(c, hist) && |hist| == 17 && hist[16].fs.names == map[]
    ensures 0 in hist[15].runs && hist[15].runs[0].at == Finished(Ok(Moved(DST)), false)
    ensures SRC !in hist[15].fs.names && exists b :: b in Snaps(hist[15].fs) && DST !in b
  {
    hide Init, Moves, Recorded, LosesPower, Steps, IsRun;
    var t := Taped(c);
    Begins(c, Moment(t, 0));
    Unwinds(c, t);
    GoesDark(c, Moment(t, 15), Moment(t, 16));
    IsOneRun(c, t);
    SaysMoved(t);
    hist := History(t);
    assert t.fs0.names in Snaps(hist[15].fs) && DST !in t.fs0.names;
  }

  /** The trees of the last moment before the power goes meet the condition. */
  lemma MeetsCondition(c: Config, hist: seq<Sys>)
    requires Disjoint(c) && IsRun(c, hist) && |hist| == 17 && c.jobs == map[0 := JOB] && c.before == map[SRC := BYTES]
    requires c.dev(SRC.dir) != c.dev(DST.dir)
    requires SRC !in hist[15].fs.names && exists b :: b in Snaps(hist[15].fs) && DST !in b
    ensures MayBeLost(c, hist[15].fs, 0)
  {
    hide IsRun, Disjoint, MayBeLost;
    var a := hist[15].fs.names;
    var b :| b in Snaps(hist[15].fs) && DST !in b;
    assert a in Snaps(hist[15].fs);
    forall p ensures !LandedIn(c, hist[15].fs, b, 0, p) { assert MayReach(JOB, p) ==> p == DST; }
    MoveMayBeLostIff(c, hist, 15, 0);
  }

  /** The Job says Moved; the power goes; neither the source nor the landing, nor
      anything else, is there. */
  lemma CrossDeviceMoveMayBeLost(hash: Bytes -> int) returns (c: Config, hist: seq<Sys>)
    requires forall a, b | hash(a) == hash(b) :: a == b
    ensures Disjoint(c) && IsRun(c, hist) && |hist| == 17 && c.power && c.faithful && c.calm
    ensures c.jobs == map[0 := JOB] && JOB.isMove && JOB.src in c.before
    ensures 0 in hist[15].runs && hist[15].runs[0].at == Finished(Ok(Moved(JOB.dst)), false)
    ensures MayBeLost(c, hist[15].fs, 0) && hist[16].fs.names == map[]
  {
    c := Setup(hash);
    Footprints(c);
    hide Disjoint, IsRun, MayBeLost;
    hist := Happens(c);
    MeetsCondition(c, hist);
  }

  /** The same run up to the commit, and then the journal's clearing fails. */
  ghost function FailedHistory(t: Tape, last: Sys): seq<Sys> {
    seq(14, k requires 0 <= k < 14 => Whole(Moment(t, k))) + [last]
  }

  lemma IsAShortRun(c: Config, t: Tape)
    requires c.jobs == map[0 := JOB] && Init(c, Whole(Moment(t, 0)))
    requires forall k: nat | k < 15 :: Moves(c, JOB, Moment(t, k), Moment(t, k + 1))
    ensures IsRun(c, History(t)[..14])
    ensures var s := History(t)[..14][13]; s == Whole(Moment(t, 13)) && 0 in s.runs && AfterCommit(s.runs[0].at)
  {
    assert AfterCommit(Moment(t, 13).r.at);
    hide Init, Moves, Moment;
    var hist := History(t)[..14];
    forall k | 0 <= k < |hist| - 1 ensures Steps(c, hist[k], hist[k + 1]) {
      StepsOn(c, Moment(t, k), Moment(t, k + 1));
    }
  }

  lemma IsAFailedRun(c: Config, t: Tape, last: Sys)
    requires c.jobs == map[0 := JOB] && Init(c, Whole(Moment(t, 0))) && Next(c, Whole(Moment(t, 13)), Step(0), last)
    requires forall k: nat | k < 15 :: Moves(c, JOB, Moment(t, k), Moment(t, k + 1))
    ensures IsRun(c, FailedHistory(t, last))
  {
    hide Init, Moves, Moment, Whole, Next;
    var hist := FailedHistory(t, last);
    forall k | 0 <= k < |hist| - 1 ensures Steps(c, hist[k], hist[k + 1]) {
      if k < 13 { StepsOn(c, Moment(t, k), Moment(t, k + 1)); }
    }
  }

  lemma IsAnAttempt(t: Tape, last: Sys)
    ensures var hist := FailedHistory(t, last);
      && (forall k | 0 <= k < 14 :: 0 in hist[k].runs && hist[k] == Whole(Moment(t, k)))
      && Attempt(hist, 0, 13, 0) && AfterCommit(hist[13].runs[0].at) && hist[13].runs[0].dst == DST
  {
  }

  lemma FailsLate(c: Config) returns (hist: seq<Sys>)
    requires c.jobs == map[0 := JOB] && c.before == map[SRC := BYTES]
    requires forall s :: c.dev(s) == if s == "b" then 1 else 0
    ensures IsRun(c, hist) && |hist| == 15 && Attempt(hist, 0, 13, 0) && Next(c, hist[13], Step(0), hist[14])
    ensures AfterCommit(hist[13].runs[0].at) && hist[13].runs[0].dst == DST
    ensures 0 in hist[14].runs && hist[14].runs[0].at == Finished(Err(IoError), false)
  {
    hide Init, Moves, Recorded, LosesPower, IsRun;
    var t := Taped(c);
    Begins(c, Moment(t, 0));
    Unwinds(c, t);
    IsAShortRun(c, t);
    var last := MayFailLate(c, History(t)[..14], 13, 0);
    hide Next;
    IsAFailedRun(c, t, last);
    IsAnAttempt(t, last);
    hist := FailedHistory(t, last);
    assert hist[14] == last;
  }

  /** An error comes back, and the file is at its destination whole. */
  lemma ErrorMayFollowLanding(hash: Bytes -> int) returns (c: Config, hist: seq<Sys>)
    requires forall a, b | hash(a) == hash(b) :: a == b
    ensures Disjoint(c) && IsRun(c, hist) && |hist| == 15 && c.jobs == map[0 := JOB] && JOB.src in c.before
    ensures Attempt(hist, 0, 13, 0) && exists k :: 0 <= k < 13 && CommitsAt(c, hist, k, 0)
    ensures 0 in hist[14].runs && hist[14].runs[0].at == Finished(Err(IoError), false)
    ensures LandedIn(c, hist[14].fs, hist[14].fs.names, 0, JOB.dst)
  {
    c := Setup(hash);
    Footprints(c);
    hide Disjoint, IsRun, LandedIn, CommitsAt, Attempt, Next, AfterCommit;
    hist := FailsLate(c);
    ErrorAfterLandingIff(c, hist, 0, 13, 0);
  }

  /******* A request whose files may meet *******/

  const NEXT := Path("b", "f-2")

  ghost function Reaching(j: Job): iset<Path> { iset p | MayReach(j, p) }

  /** Two files, the second of which may land where the first one does. */
  ghost function Meeting(hash: Bytes -> int): Config {
    var one, two := Job(SRC, DST, false, KeepBoth, true), Job(Path("a", "f-2"), NEXT, false, KeepBoth, true);
    Config(map[0 := one, 1 := two], map[one.src := BYTES, two.src := BYTES], true, true, true, _ => 0, hash,
           id => if id == 0 then Reaching(one) else if id == 1 then Reaching(two) else iset{}, _ => 0)
  }

  lemma NextIsNext()
    ensures Candidate(DST, 2) == NEXT
  {
    assert LastDot("f") == -1;
    assert Decimal(2) == "2";
  }

  lemma ShortNames(hash: Bytes -> int, id: nat, p: Path)
    requires id in Meeting(hash).jobs
    ensures p in Meeting(hash).reach(id) <==> MayReach(Meeting(hash).jobs[id], p)
    ensures p in Meeting(hash).reach(id) ==> p.dir == "b" && 1 <= |p.name| <= 13
  {
    var j := Meeting(hash).jobs[id];
    assert Meeting(hash).reach(id) == Reaching(j);
    if MayReach(j, p) { CommitInvariant.ReachLength(j, p); }
  }

  lemma LongTemp(p: Path)
    ensures TempPathFor(p).dir == p.dir && |TempPathFor(p).name| == |p.name| + 14
  {
  }

  /** Files of one request that go from one directory to another under short names. */
  ghost predicate Together(c: Config) {
    && c.calm && (forall a, b | c.hash(a) == c.hash(b) :: a == b)
    && (forall i, k | i in c.jobs && k in c.jobs && c.jobs[i].src == c.jobs[k].src :: i == k)
    && (forall i, k | i in c.jobs && k in c.jobs :: c.request(i) == c.request(k))
    && forall i | i in c.jobs :: FromAToB(c, c.jobs[i])
  }

  ghost predicate FromAToB(c: Config, j: Job) {
    && j.src.dir == "a" && j.src in c.before && j.dst.name == j.src.name && j.policy != Replace
  }

  ghost predicate Reached(c: Config, id: nat)
    requires id in c.jobs
  {
    && (forall p :: p in c.reach(id) <==> MayReach(c.jobs[id], p))
    && forall p | p in c.reach(id) :: p.dir == "b" && 1 <= |p.name| <= 13
  }

  lemma TogetherFits(c: Config)
    requires Together(c) && forall id | id in c.jobs :: Reached(c, id)
    requires forall id | id !in c.jobs :: c.reach(id) == iset{}
    ensures Disjoint(c)
  {
    forall p ensures TempPathFor(p).dir == p.dir && |TempPathFor(p).name| == |p.name| + 14 { LongTemp(p); }
    hide MayReach, TempPathFor;
    assert forall i | i in c.jobs :: Reached(c, i) && FromAToB(c, c.jobs[i]);
  }

  lemma MeetingTogether(hash: Bytes -> int)
    requires forall a, b | hash(a) == hash(b) :: a == b
    ensures Together(Meeting(hash))
  {
    hide Reaching;
  }

  lemma MeetingMeets(hash: Bytes -> int)
    ensures var c := Meeting(hash); 0 in c.jobs && 1 in c.jobs && NEXT in c.reach(0) && NEXT in c.reach(1)
  {
    var c := Meeting(hash);
    NextIsNext();
    assert Beside(DST, NEXT);
    hide Candidate;
    assert MayReach(c.jobs[0], NEXT) && MayReach(c.jobs[1], NEXT);
    ShortNames(hash, 0, NEXT);
    ShortNames(hash, 1, NEXT);
  }

  /** The theorems speak of such a request. */
  lemma MeetingFits(hash: Bytes -> int)
    requires forall a, b | hash(a) == hash(b) :: a == b
    ensures var c := Meeting(hash);
      Disjoint(c) && 0 in c.jobs && 1 in c.jobs && NEXT in c.reach(0) && NEXT in c.reach(1)
  {
    var c := Meeting(hash);
    MeetingTogether(hash);
    MeetingMeets(hash);
    assert forall id | id !in c.jobs :: c.reach(id) == iset{};
    hide Meeting, MayReach, Disjoint, Together;
    forall id | id in c.jobs ensures Reached(c, id) {
      forall p { ShortNames(hash, id, p); }
    }
    TogetherFits(c);
  }
}
