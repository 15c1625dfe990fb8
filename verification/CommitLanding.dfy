/** Where a Job lands, what lies around the landing, and that both stay so. */
module CommitLanding {
  import opened Paths
  import opened Disk
  import opened CommitMachine
  import opened CommitInvariant

  /** `dst` is in use, and so is every name beside it before the `k`-th. */
  ghost predicate Beaten(fs: Fs, dst: Path, k: nat) { dst in fs.names && Taken(fs, dst, k) }

  /** The name asked for, or what a move that keeps both makes of it. */
  ghost predicate AskedLeast(fs: Fs, j: Job, p: Path) {
    || p == j.dst
    || (j.isMove && j.policy == KeepBoth
        && exists k :: 2 <= k < CANDIDATE_LIMIT && p == Candidate(j.dst, k) && Beaten(fs, j.dst, k))
  }

  /** And what the copy's own check makes of that. */
  ghost predicate LandsLeast(fs: Fs, j: Job, p: Path) {
    || AskedLeast(fs, j, p)
    || (j.policy == KeepBoth
        && exists q, k :: AskedLeast(fs, j, q) && 2 <= k < CANDIDATE_LIMIT && p == Candidate(q, k) && Beaten(fs, q, k))
  }

  /** A move that copies is one between devices. */
  ghost predicate Crosses(c: Config, j: Job, p: Path) { j.isMove ==> !SameDevice(c, j.src, p) }

  ghost predicate NoTemp(fs: Fs, dst: Path) { TempPathFor(dst) !in fs.names }

  /** What is known of the landing at each point of the engine. */
  ghost predicate LandingOk(c: Config, id: nat, x: Point)
    requires id in c.jobs
  {
    var Point(fs, jn, r) := x;
    var j := c.jobs[id];
    match r.at
    case Idle => true
    case MoveExists => true
    case MoveProbe(k) => r.dst in fs.names
    case MoveSameFs => AskedLeast(fs, j, r.dst)
    case MoveRename => AskedLeast(fs, j, r.dst)
    case Stat => AskedLeast(fs, j, r.dst) && Crosses(c, j, r.dst)
    case Exists => AskedLeast(fs, j, r.dst) && Crosses(c, j, r.dst)
    case Probe(k) => AskedLeast(fs, j, r.dst) && Crosses(c, j, r.dst) && r.dst in fs.names
    case CloneOpen => LandsLeast(fs, j, r.dst) && !j.isMove
    case CloneIoctl => LandsLeast(fs, j, r.dst) && !j.isMove
    case CloneSync => LandsLeast(fs, j, r.dst) && !j.isMove
    case CloneUndo => LandsLeast(fs, j, r.dst) && !j.isMove
    case CloneCommit => LandsLeast(fs, j, r.dst) && !j.isMove
    case CloneDrop => !j.isMove
    case Clear(_) => LandsLeast(fs, j, r.dst) && Crosses(c, j, r.dst) && NoTemp(fs, r.dst)
    case MoveRemove => LandsLeast(fs, j, r.dst) && Crosses(c, j, r.dst) && NoTemp(fs, r.dst) && r.dst !in jn.book
    case Finished(Ok(Moved(at)), _) =>
      LandsLeast(fs, j, at) && (Crosses(c, j, at) ==> NoTemp(fs, at) && at !in jn.book) && j.src !in fs.names
    case Finished(Ok(Copied(tier, _, _, at)), _) =>
      LandsLeast(fs, j, at) && NoTemp(fs, at) && (tier != SharedExtents ==> at !in jn.book)
    case Finished(Ok(SkippedExisting), _) => j.policy == Skip && j.dst in fs.names
    case Finished(_, _) => true
    case _ => LandsLeast(fs, j, r.dst) && Crosses(c, j, r.dst)
  }

  /******* Names once in use stay in use *******/

  ghost predicate NamesStay(c: Config, id: nat, fs: Fs, fs': Fs) {
    forall q | q in c.reach(id) && q in fs.names :: q in fs'.names
  }

  lemma StillBeaten(c: Config, id: nat, fs: Fs, dst: Path, k: nat, fs': Fs)
    requires Disjoint(c) && id in c.jobs && Asked(c.jobs[id], dst) && c.jobs[id].policy == KeepBoth
    requires k <= CANDIDATE_LIMIT && Beaten(fs, dst, k) && NamesStay(c, id, fs, fs')
    ensures Beaten(fs', dst, k)
  {
    Reaches(c, id, dst, 0);
    StillTaken(c, id, fs, dst, k, fs');
  }

  lemma AskedLeastIsAsked(fs: Fs, j: Job, p: Path)
    requires AskedLeast(fs, j, p)
    ensures Asked(j, p)
  {
    if p != j.dst {
      var k :| 2 <= k < CANDIDATE_LIMIT && p == Candidate(j.dst, k);
      assert Beside(j.dst, p);
    }
  }

  lemma StillAsked(c: Config, id: nat, fs: Fs, p: Path, fs': Fs)
    requires Disjoint(c) && id in c.jobs && AskedLeast(fs, c.jobs[id], p) && NamesStay(c, id, fs, fs')
    ensures AskedLeast(fs', c.jobs[id], p) && Asked(c.jobs[id], p)
  {
    var j := c.jobs[id];
    AskedLeastIsAsked(fs, j, p);
    hide Disjoint, Candidate, Beaten;
    if p != j.dst {
      var k :| 2 <= k < CANDIDATE_LIMIT && p == Candidate(j.dst, k) && Beaten(fs, j.dst, k);
      StillBeaten(c, id, fs, j.dst, k, fs');
    }
  }

  lemma StillLeast(c: Config, id: nat, fs: Fs, p: Path, fs': Fs)
    requires Disjoint(c) && id in c.jobs && LandsLeast(fs, c.jobs[id], p) && NamesStay(c, id, fs, fs')
    ensures LandsLeast(fs', c.jobs[id], p)
  {
    var j := c.jobs[id];
    hide Disjoint, Candidate, Beaten, AskedLeast;
    if AskedLeast(fs, j, p) {
      StillAsked(c, id, fs, p, fs');
    } else {
      var q, k :| AskedLeast(fs, j, q) && 2 <= k < CANDIDATE_LIMIT && p == Candidate(q, k) && Beaten(fs, q, k);
      StillAsked(c, id, fs, q, fs');
      StillBeaten(c, id, fs, q, k, fs');
    }
  }

  /** Neither name is lost by what anybody does outside the Job's own names. */
  lemma LandingFrame(c: Config, id: nat, x: Point, fs': Fs, jn': Journal)
    requires Disjoint(c) && id in c.jobs && c.jobs[id].src in c.before && RunOk(c, id, x) && LandingOk(c, id, x)
    requires NamesStay(c, id, x.fs, fs')
    requires x.r.dst in c.reach(id) ==>
      SameAt(x.fs, fs', TempPathFor(x.r.dst)) && SameEntry(x.jn.book, jn'.book, x.r.dst)
    requires c.jobs[id].isMove && c.jobs[id].src !in x.fs.names ==> c.jobs[id].src !in fs'.names
    ensures LandingOk(c, id, Point(fs', jn', x.r))
  {
    var j, p := c.jobs[id], x.r.dst;
    WhereItIs(c, id, x);
    Reaches(c, id, j.dst, 0);
    if x.r.at.MoveProbe? || x.r.at.Probe? { Reaches(c, id, p, 0); }
    hide RunOk, LandingOk, AskedLeast, LandsLeast;
    if AskedLeast(x.fs, j, p) { StillAsked(c, id, x.fs, p, fs'); }
    if LandsLeast(x.fs, j, p) { StillLeast(c, id, x.fs, p, fs'); }
    hide Disjoint;
    SameLanding(c, id, x, fs', jn');
  }

  predicate Settled(at: At) {
    at.Clear? || at.MoveRemove? || (at.Finished? && at.result.Ok? && !at.result.outcome.SkippedExisting?)
  }

  predicate HasMoved(at: At) { at.Finished? && at.result.Ok? && at.result.outcome.Moved? }

  lemma SameLanding(c: Config, id: nat, x: Point, fs': Fs, jn': Journal)
    requires id in c.jobs && LandingOk(c, id, x)
    requires AskedLeast(x.fs, c.jobs[id], x.r.dst) ==> AskedLeast(fs', c.jobs[id], x.r.dst)
    requires LandsLeast(x.fs, c.jobs[id], x.r.dst) ==> LandsLeast(fs', c.jobs[id], x.r.dst)
    requires (x.r.at.MoveProbe? || x.r.at.Probe?) && x.r.dst in x.fs.names ==> x.r.dst in fs'.names
    requires c.jobs[id].dst in x.fs.names ==> c.jobs[id].dst in fs'.names
    requires HasMoved(x.r.at) && c.jobs[id].src !in x.fs.names ==> c.jobs[id].src !in fs'.names
    requires Settled(x.r.at) ==>
      && (NoTemp(x.fs, x.r.dst) ==> NoTemp(fs', x.r.dst)) && (x.r.dst !in x.jn.book ==> x.r.dst !in jn'.book)
      && (x.r.at.Finished? ==> x.r.dst == x.r.at.result.outcome.committedAs)
    ensures LandingOk(c, id, Point(fs', jn', x.r))
  {
    hide AskedLeast, LandsLeast, Crosses, NoTemp;
  }

  /** Where the Job's name is known to be one of its own. */
  lemma WhereItIs(c: Config, id: nat, x: Point)
    requires id in c.jobs && c.jobs[id].src in c.before && RunOk(c, id, x)
    ensures x.r.at.MoveProbe? || x.r.at.Probe? ==> Asked(c.jobs[id], x.r.dst)
    ensures HasMoved(x.r.at) || x.r.at.MoveRename? || x.r.at.MoveRemove? ==> c.jobs[id].isMove
    ensures x.r.at.Clear? || x.r.at.MoveRemove? ==> x.r.dst in c.reach(id)
    ensures x.r.at.Finished? && x.r.at.result.Ok? && !x.r.at.result.outcome.SkippedExisting? ==>
      x.r.dst == x.r.at.result.outcome.committedAs && x.r.dst in c.reach(id)
  {
    hide Claim, Good, Whole, Taken;
  }

  /** Nor by the Job's own step. */
  lemma OwnNamesStay(c: Config, placed: set<(Path, Bytes)>, id: nat, x: Point, y: Point)
    requires Disjoint(c) && id in c.jobs && Framed(c, id, x, y)
    ensures NamesStay(c, id, x.fs, y.fs)
  {
    if x.fs != y.fs {
      forall q | q in c.reach(id) && q in x.fs.names ensures q in y.fs.names {
        OwnNames(c, id, q, x.r.dst);
        if q != x.r.dst { assert SameAt(x.fs, y.fs, q); }
      }
    }
  }

  /******* The Job's own steps *******/

  /** The conflict checks: an occupied name sends the search on, a free one is it. */
  lemma Searches(c: Config, id: nat, x: Point, y: Point)
    requires id in c.jobs && c.jobs[id].src in c.before && Moves(c, c.jobs[id], x, y)
    requires RunOk(c, id, x) && LandingOk(c, id, x)
    requires Checking(x.r.at)
    ensures LandingOk(c, id, y)
  {
    var j := c.jobs[id];
    hide Disjoint, Candidate, Whole;
    if x.r.at.MoveProbe? || x.r.at.Probe? {
      var k, p := x.r.at.k, Candidate(x.r.dst, x.r.at.k);
      assert Beaten(x.fs, x.r.dst, k);
      assert p.dir == x.r.dst.dir by { CandidateStays(x.r.dst, k); }
    }
  }

  lemma CandidateStays(dst: Path, n: nat)
    ensures Candidate(dst, n).dir == dst.dir
  {
  }

  predicate Checking(at: At) { at.MoveExists? || at.MoveProbe? || at.Exists? || at.Probe? }

  predicate Committing(at: At) { at.MoveRename? || at.CloneCommit? || at.Commit? || at.Clear? || at.MoveRemove? }

  /** What the step leaves of the name itself. */
  ghost predicate NameStays(c: Config, id: nat, x: Point, y: Point)
    requires id in c.jobs
  {
    var j, p := c.jobs[id], x.r.dst;
    && (AskedLeast(x.fs, j, p) ==> AskedLeast(y.fs, j, p))
    && (AskedLeast(y.fs, j, p) ==> LandsLeast(y.fs, j, p))
    && (LandsLeast(x.fs, j, p) ==> LandsLeast(y.fs, j, p))
    && p != TempPathFor(p) && (j.isMove && p in c.reach(id) ==> p != j.src)
  }

  predicate Routing(at: At) { at.MoveSameFs? || at.Stat? || at.SameFs? }

  predicate Cloning(at: At) { at.CloneOpen? || at.CloneIoctl? || at.CloneSync? || at.CloneUndo? || at.CloneDrop? }

  /** Every step before the landing keeps the name: the first, */
  lemma Begins(c: Config, id: nat, x: Point, y: Point)
    requires id in c.jobs && c.jobs[id].src in c.before && RunOk(c, id, x)
    requires Moves(c, c.jobs[id], x, y) && LandingOk(c, id, x) && NameStays(c, id, x, y)
    requires x.r.at.Idle? || x.r.at.Finished?
    ensures LandingOk(c, id, y)
  {
    assert AskedLeast(y.fs, c.jobs[id], c.jobs[id].dst);
    hide AskedLeast, LandsLeast, Claim, Good, Whole, Taken, MayLand, ResumeOffset, Candidate, Copies, Writes, Asked;
    hide Covered, NoTemp, Streamed, Landed, Owns, Set, OpensTruncated, Records, Unlinks, Syncs, Clones, Clears;
  }

  /** where the Job goes, */
  lemma Routes(c: Config, id: nat, x: Point, y: Point)
    requires id in c.jobs && c.jobs[id].src in c.before && RunOk(c, id, x)
    requires Moves(c, c.jobs[id], x, y) && LandingOk(c, id, x) && NameStays(c, id, x, y)
    requires Routing(x.r.at)
    ensures LandingOk(c, id, y)
  {
    hide AskedLeast, LandsLeast, Claim, Good, Whole, Taken, MayLand, ResumeOffset, Candidate, Copies, Writes, Asked;
    hide Covered, NoTemp, Streamed, Landed, Owns, Set, OpensTruncated, Records, Unlinks, Syncs, Clones, Clears;
  }

  /** the clone attempt, */
  lemma Tries(c: Config, id: nat, x: Point, y: Point)
    requires id in c.jobs && c.jobs[id].src in c.before && RunOk(c, id, x)
    requires Moves(c, c.jobs[id], x, y) && LandingOk(c, id, x) && NameStays(c, id, x, y)
    requires Cloning(x.r.at)
    ensures LandingOk(c, id, y)
  {
    hide AskedLeast, LandsLeast, Claim, Good, Whole, Taken, MayLand, ResumeOffset, Candidate, Copies, Writes, Asked;
    hide Covered, NoTemp, Streamed, Landed, Owns, Set, OpensTruncated, Records, Unlinks, Syncs, Clones, Clears;
  }

  /** and the stream. */
  lemma Proceeds(c: Config, id: nat, x: Point, y: Point)
    requires id in c.jobs && c.jobs[id].src in c.before && RunOk(c, id, x)
    requires Moves(c, c.jobs[id], x, y) && LandingOk(c, id, x) && NameStays(c, id, x, y)
    requires !Checking(x.r.at) && !Committing(x.r.at) && !Routing(x.r.at) && !Cloning(x.r.at)
    requires !x.r.at.Idle? && !x.r.at.Finished?
    ensures LandingOk(c, id, y)
  {
    hide AskedLeast, LandsLeast, Claim, Good, Whole, Taken, MayLand, ResumeOffset, Candidate, Copies, Writes, Asked;
    hide Covered, NoTemp, Streamed, Landed, Owns, Set, OpensTruncated, Records, Unlinks, Syncs, Clones, Clears;
  }

  /** The commit takes the temp name away, the clearing the entry. */
  lemma Settles(c: Config, id: nat, x: Point, y: Point)
    requires id in c.jobs && c.jobs[id].src in c.before && RunOk(c, id, x)
    requires Moves(c, c.jobs[id], x, y) && LandingOk(c, id, x) && NameStays(c, id, x, y)
    requires Committing(x.r.at)
    requires x.r.at.MoveRename? || x.r.at.MoveRemove? ==> c.jobs[id].isMove && x.r.dst in c.reach(id)
    ensures LandingOk(c, id, y)
  {
    hide AskedLeast, LandsLeast, Claim, Good, Whole, Taken, MayLand, Candidate, Asked, Covered, Landed, Owns, Set;
  }

  lemma OwnLanding(c: Config, placed: set<(Path, Bytes)>, id: nat, x: Point, y: Point)
    requires Ready(c, placed, id, x) && Moves(c, c.jobs[id], x, y) && Framed(c, id, x, y) && LandingOk(c, id, x)
    ensures LandingOk(c, id, y)
  {
    hide Moves, FsOk, RulesOf, JournalOk, PlacedOk, Disjoint, RunOk, LandingOk, AskedLeast, Framed;
    OwnNamesStay(c, placed, id, x, y);
    if Checking(x.r.at) {
      Searches(c, id, x, y);
    } else {
      var j, p := c.jobs[id], x.r.dst;
      if AskedLeast(x.fs, j, p) { StillAsked(c, id, x.fs, p, y.fs); }
      if LandsLeast(x.fs, j, p) { StillLeast(c, id, x.fs, p, y.fs); }
      NotItsTemp(p);
      if j.isMove && p in c.reach(id) { MovedNames(c, placed, id, p); }
      if Committing(x.r.at) {
        WhereItIs(c, id, x);
        InReachWhileAiming(c, id, x);
        Settles(c, id, x, y);
      } else if x.r.at.Idle? || x.r.at.Finished? {
        Begins(c, id, x, y);
      } else if Routing(x.r.at) {
        Routes(c, id, x, y);
      } else if Cloning(x.r.at) {
        Tries(c, id, x, y);
      } else {
        Proceeds(c, id, x, y);
      }
    }
  }

  lemma NotItsTemp(p: Path)
    ensures p != TempPathFor(p)
  {
    assert |TempPathFor(p).name| > |p.name|;
  }

  /******* The whole system *******/

  ghost predicate LandingInv(c: Config, s: Sys) {
    s.runs.Keys == c.jobs.Keys && forall id | id in c.jobs :: LandingOk(c, id, PointOf(s, id))
  }

  lemma OthersStay(c: Config, id: nat, x: Point, y: Point, k: nat, r: Run)
    requires Disjoint(c) && id in c.jobs && Framed(c, id, x, y)
    requires k in c.jobs && k != id && c.jobs[k].src in c.before
    requires RunOk(c, k, Point(x.fs, x.jn, r)) && LandingOk(c, k, Point(x.fs, x.jn, r))
    requires c.request(k) == c.request(id) ==> r.at.Idle?
    ensures LandingOk(c, k, Point(y.fs, y.jn, r))
  {
    if c.request(k) != c.request(id) && (x.fs != y.fs || x.jn != y.jn) {
      hide RunOk, LandingOk;
      hide Disjoint;
      forall q | q in c.reach(k) ensures q in x.fs.names ==> q in y.fs.names {
        Apart(c, id, x.r.dst, k, q);
        assert SameAt(x.fs, y.fs, q);
      }
      if r.dst in c.reach(k) { Apart(c, id, x.r.dst, k, r.dst); }
      if c.jobs[k].isMove {
        SourceApart(c, id, x.r.dst, k);
        assert SameAt(x.fs, y.fs, c.jobs[k].src);
      }
      LandingFrame(c, k, Point(x.fs, x.jn, r), y.fs, y.jn);
    }
  }

  lemma SourceApart(c: Config, i: nat, p: Path, k: nat)
    requires Disjoint(c) && i in c.jobs && k in c.jobs && i != k && c.jobs[k].isMove && p in c.reach(i)
    ensures c.jobs[k].src != p && c.jobs[k].src != TempPathFor(p) && c.jobs[i].src != c.jobs[k].src
  {
  }

  lemma StepLands(c: Config, s: Sys, id: nat, s': Sys)
    requires Disjoint(c) && Inv(c, s) && LandingInv(c, s) && Next(c, s, Step(id), s')
    ensures LandingInv(c, s')
  {
    hide Moves, RunOk, LandingOk, FsOk, RulesOf, JournalOk, PlacedOk, Disjoint, Framed;
    var x, y := PointOf(s, id), PointOf(s', id);
    OwnStep(c, s.placed, id, x, y);
    OwnLanding(c, s.placed, id, x, y);
    forall k | k in c.jobs ensures LandingOk(c, k, PointOf(s', k)) {
      if k != id {
        assert RunOk(c, k, PointOf(s, k)) && LandingOk(c, k, PointOf(s, k));
        OthersStay(c, id, x, y, k, s.runs[k]);
      }
    }
  }

  lemma RestLands(c: Config, s: Sys, s': Sys)
    requires LandingInv(c, s) && s'.runs == Rested(s.runs)
    ensures LandingInv(c, s')
  {
  }

  lemma CreateLands(c: Config, s: Sys, p: Path, bytes: Bytes, s': Sys)
    requires Disjoint(c) && Inv(c, s) && LandingInv(c, s) && Next(c, s, Create(p, bytes), s')
    ensures LandingInv(c, s')
  {
    hide RunOk, LandingOk, FsOk, RulesOf, JournalOk, PlacedOk, Disjoint, IsTemp;
    forall k | k in c.jobs ensures LandingOk(c, k, PointOf(s', k)) {
      assert RunOk(c, k, PointOf(s, k)) && LandingOk(c, k, PointOf(s, k));
      var dst := s.runs[k].dst;
      if dst in c.reach(k) { IsOwnTemp(c, k, dst); }
      assert IsSource(c, c.jobs[k].src);
      LandingFrame(c, k, PointOf(s, k), s'.fs, s'.jn);
    }
  }

  lemma NextLands(c: Config, s: Sys, s': Sys)
    requires Disjoint(c) && Inv(c, s) && LandingInv(c, s) && Steps(c, s, s')
    ensures LandingInv(c, s')
  {
    hide Inv, LandingInv, Disjoint, Moves;
    var e :| Next(c, s, e, s');
    match e
    case Step(id) => StepLands(c, s, id, s');
    case Crash => RestLands(c, s, s');
    case PowerLoss => RestLands(c, s, s');
    case Create(p, bytes) => CreateLands(c, s, p, bytes, s');
  }

  /** The landing is as said in every state of every run. */
  lemma {:induction false} RunLands(c: Config, hist: seq<Sys>, n: nat)
    requires Disjoint(c) && IsRun(c, hist) && n < |hist|
    ensures LandingInv(c, hist[n])
  {
    hide Inv, LandingInv, Disjoint, Steps;
    if n == 0 {
      StartsResting(c, hist[0]);
    } else {
      RunKeeps(c, hist, n - 1);
      RunLands(c, hist, n - 1);
      assert Steps(c, hist[n - 1], hist[n - 1 + 1]);
      hide Init;
      NextLands(c, hist[n - 1], hist[n]);
    }
  }

  lemma StartsResting(c: Config, s: Sys)
    requires Init(c, s)
    ensures LandingInv(c, s)
  {
  }
}
