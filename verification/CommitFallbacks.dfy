/**
 When a move is a rename, what a clone that comes to nothing leaves behind, and how often
 hashes are compared.
 */
module CommitFallbacks {
  import opened Paths
  import opened Disk
  import opened CommitMachine
  import opened CommitInvariant
  import opened CommitLanding
  import opened CommitTheorems
  import opened CommitAttempts

  /******* The move *******/

  /** On one device a file is moved and not copied: what arrives is the very file that was
      the source. */
  lemma OneDeviceIsARename(c: Config, hist: seq<Sys>, n: nat, id: nat)
    requires Disjoint(c) && IsRun(c, hist) && n + 1 < |hist| && id in c.jobs && id in hist[n].runs
    requires id in hist[n + 1].runs && Next(c, hist[n], Step(id), hist[n + 1]) && hist[n + 1].runs[id].at.Finished?
    requires hist[n + 1].runs[id].at.result.Ok? && hist[n + 1].runs[id].at.result.outcome.Moved?
    ensures var src, at := c.jobs[id].src, hist[n + 1].runs[id].at.result.outcome.committedAs;
      SameDevice(c, src, at) ==>
        && src in hist[n].fs.names && at in hist[n + 1].fs.names
        && hist[n + 1].fs.names[at] == hist[n].fs.names[src]
  {
    hide Disjoint, IsRun, Moves, LandsLeast;
    StepMoves(c, hist, n, id);
    RunLands(c, hist, n);
    assert LandingOk(c, id, PointOf(hist[n], id));
    IsAMove(c, hist, n + 1, id);
    hide Next;
    LastOfAMove(c, id, PointOf(hist[n], id), PointOf(hist[n + 1], id));
  }

  lemma IsAMove(c: Config, hist: seq<Sys>, n: nat, id: nat)
    requires Disjoint(c) && IsRun(c, hist) && n < |hist| && id in c.jobs && id in hist[n].runs
    requires hist[n].runs[id].at.Finished? && hist[n].runs[id].at.result.Ok?
    requires hist[n].runs[id].at.result.outcome.Moved?
    ensures c.jobs[id].isMove
  {
    hide Disjoint, IsRun;
    MovedIsTrue(c, hist, n, id);
  }

  lemma LastOfAMove(c: Config, id: nat, x: Point, y: Point)
    requires id in c.jobs && Moves(c, c.jobs[id], x, y) && y.r.at.Finished?
    requires y.r.at.result.Ok? && y.r.at.result.outcome.Moved?
    ensures y.r.at.result.outcome.committedAs == x.r.dst
    ensures x.r.at.MoveRemove? || (x.r.at.MoveRename? && Renames(x.fs, c.jobs[id].src, x.r.dst, true, y.fs))
  {
    hide Moves, Renames;
    if Asking(x.r.at) { MovedAtOnce(c, id, x, y); } else { MovedAcross(c, id, x, y); }
  }

  lemma MovedAtOnce(c: Config, id: nat, x: Point, y: Point)
    requires id in c.jobs && Moves(c, c.jobs[id], x, y) && y.r.at.Finished? && Asking(x.r.at)
    requires y.r.at.result.Ok? && y.r.at.result.outcome.Moved?
    ensures y.r.at.result.outcome.committedAs == x.r.dst
    ensures x.r.at.MoveRename? && Renames(x.fs, c.jobs[id].src, x.r.dst, true, y.fs)
  {
    hide Candidate, Renames, MaySay, Present, Read, SameDevice, TempPathFor;
  }

  lemma MovedAcross(c: Config, id: nat, x: Point, y: Point)
    requires id in c.jobs && Moves(c, c.jobs[id], x, y) && y.r.at.Finished? && !Asking(x.r.at)
    requires y.r.at.result.Ok? && y.r.at.result.outcome.Moved?
    ensures x.r.at.MoveRemove? && y.r.at.result.outcome.committedAs == x.r.dst
  {
    hide Candidate, ResumeOffset, Records, OpensTruncated, Unlinks, Renames, Clears, Clones, Syncs;
    hide MaySay, Copies, Writes, Present, Read, SameDevice, TempPathFor;
  }

  /******* The clone *******/

  /** A call that was to remove the temp file has failed. */
  ghost predicate RemovalFailed(c: Config, hist: seq<Sys>, m: nat, n: nat, id: nat) {
    exists k :: m <= k <= n && RemovalFails(c, hist, k, id)
  }

  /** An attempt whose clone was refused, or was made and could not be committed, and
      which then failed without copying a byte, leaves no temp file, unless the call that
      was to remove it failed too. */
  lemma CloneLeavesNothing(c: Config, hist: seq<Sys>, m: nat, n: nat, id: nat)
    requires Disjoint(c) && IsRun(c, hist) && n + 1 < |hist| && id in c.jobs && Attempt(hist, m, n, id)
    requires id in hist[n + 1].runs && Next(c, hist[n], Step(id), hist[n + 1])
    requires hist[n + 1].runs[id].at.Finished? && hist[n + 1].runs[id].at.result.Err?
    requires !Began(hist, m, n, id) && (Durable(hist, m, n, id) || (Tried(hist, m, n, id) && !Cloned(hist, m, n, id)))
    ensures TempPathFor(hist[n].runs[id].dst) !in hist[n + 1].fs.names || RemovalFailed(c, hist, m, n, id)
  {
    hide Disjoint, IsRun, Moves, Next, RemovalFailed;
    var x, y := PointOf(hist[n], id), PointOf(hist[n + 1], id);
    AttemptTells(c, hist, m, n, id);
    StepMoves(c, hist, n, id);
    LastWithoutStream(c, id, x, y, PastOf(hist, m, n, id));
    if x.r.at.CloneDrop? { RemovedOrFailed(c, hist, m, n, id); } else { RefusedIsGone(c, hist, m, n, id); }
  }

  lemma LastWithoutStream(c: Config, id: nat, x: Point, y: Point, p: Past)
    requires id in c.jobs && Moves(c, c.jobs[id], x, y) && Tells(x.r.at, p)
    requires y.r.at.Finished? && y.r.at.result.Err? && !p.began && (p.ready || (p.tried && !p.cloned))
    ensures x.r.at.CloneDrop? || (x.r.at.Record? && p.tried && !p.cloned && y.fs == x.fs)
  {
    hide Candidate, ResumeOffset, Records, OpensTruncated, Unlinks, Renames, Clears, Clones, Syncs;
    hide MaySay, Copies, Writes, Present, Read, SameDevice, TempPathFor;
  }

  /** The step from either label removes the temp file, or might have. */
  lemma RemovedOrFailed(c: Config, hist: seq<Sys>, m: nat, k: nat, id: nat)
    requires m <= k && k + 1 < |hist| && id in c.jobs && id in hist[k].runs && id in hist[k + 1].runs
    requires Next(c, hist[k], Step(id), hist[k + 1])
    requires hist[k].runs[id].at.CloneDrop? || hist[k].runs[id].at.CloneUndo?
    ensures hist[k + 1].runs[id].dst == hist[k].runs[id].dst
    ensures TempPathFor(hist[k].runs[id].dst) !in hist[k + 1].fs.names || RemovalFailed(c, hist, m, k, id)
  {
    var s, s' := hist[k], hist[k + 1];
    FromEither(c, id, PointOf(s, id), PointOf(s', id));
    if TempPathFor(s.runs[id].dst) in s'.fs.names {
      var t := CouldRemove(c, s, id);
      hide Next;
      assert RemovalFails(c, hist, k, id);
    }
  }

  lemma FromEither(c: Config, id: nat, x: Point, y: Point)
    requires id in c.jobs && Moves(c, c.jobs[id], x, y) && (x.r.at.CloneDrop? || x.r.at.CloneUndo?)
    ensures y.r.dst == x.r.dst && (TempPathFor(x.r.dst) in y.fs.names ==> TempPathFor(x.r.dst) in x.fs.names)
  {
    hide TempPathFor;
  }

  lemma CouldRemove(c: Config, s: Sys, id: nat) returns (t: Sys)
    requires id in c.jobs && id in s.runs && HasTurn(c, s.runs, id)
    requires (s.runs[id].at.CloneDrop? || s.runs[id].at.CloneUndo?) && TempPathFor(s.runs[id].dst) in s.fs.names
    ensures Next(c, s, Step(id), t) && t.fs.names == s.fs.names - {TempPathFor(s.runs[id].dst)}
  {
    hide TempPathFor;
    var r := s.runs[id];
    var temp, at := TempPathFor(r.dst), if r.at.CloneDrop? then Finished(Err(IoError), false) else Record;
    var r' := r.(at := at);
    t := Sys(Retree(s.fs, s.fs.names - {temp}), s.jn, s.runs[id := r'], s.placed);
    assert Unlinks(s.fs, temp, true, t.fs) && Goes(r, at, r');
    assert Moves(c, c.jobs[id], PointOf(s, id), PointOf(t, id));
  }

  lemma {:induction false} RefusedIsGone(c: Config, hist: seq<Sys>, m: nat, n: nat, id: nat)
    requires Disjoint(c) && IsRun(c, hist) && id in c.jobs && Attempt(hist, m, n, id)
    requires hist[n].runs[id].at.Record? && Tried(hist, m, n, id) && !Cloned(hist, m, n, id)
    ensures TempPathFor(hist[n].runs[id].dst) !in hist[n].fs.names || RemovalFailed(c, hist, m, n, id)
    decreases n
  {
    hide Disjoint, Moves, IsRun, Steps, Attempt, RemovalFailed, Tried, Cloned, Next;
    AttemptBefore(c, hist, m, n, id);
    AttemptTells(c, hist, m, n - 1, id);
    PastGoes(hist, m, n - 1, id);
    var s, s' := hist[n - 1], hist[n];
    var e := StepOf(c, s, s');
    if e == Step(id) {
      StepMoves(c, hist, n - 1, id);
      OnlyFromUndo(c, id, PointOf(s, id), PointOf(s', id), PastOf(hist, m, n - 1, id));
      RemovedOrFailed(c, hist, m, n - 1, id);
    } else {
      OthersLeave(c, s, e, s', id);
      RefusedIsGone(c, hist, m, n - 1, id);
      RunKeeps(c, hist, n - 1);
      if TempPathFor(s.runs[id].dst) !in s.fs.names { StaysAway(c, s, e, s', id); }
    }
    FailedStill(c, hist, m, n - 1, id);
  }

  lemma FailedStill(c: Config, hist: seq<Sys>, m: nat, n: nat, id: nat)
    ensures RemovalFailed(c, hist, m, n, id) ==> RemovalFailed(c, hist, m, n + 1, id)
  {
    hide RemovalFails;
  }

  lemma OnlyFromUndo(c: Config, id: nat, x: Point, y: Point, p: Past)
    requires id in c.jobs && Moves(c, c.jobs[id], x, y) && Tells(x.r.at, p) && y.r.at.Record? && p.tried && !p.cloned
    ensures x.r.at.CloneUndo?
  {
    hide Candidate, ResumeOffset, Records, OpensTruncated, Unlinks, Renames, Clears, Clones, Syncs;
    hide MaySay, Copies, Writes, Present, Read, SameDevice, TempPathFor;
  }

  /******* The hashes *******/

  /** In the step after moment `k` both files are hashed, and they are not the same. */
  ghost predicate Differs(c: Config, hist: seq<Sys>, k: nat, id: nat) {
    && k + 1 < |hist| && id in c.jobs && id in hist[k].runs && id in hist[k + 1].runs
    && Next(c, hist[k], Step(id), hist[k + 1])
    && MakesOut(c.jobs[id].src, PointOf(hist[k], id), PointOf(hist[k + 1], id))
  }

  ghost predicate MakesOut(src: Path, x: Point, y: Point) {
    && x.r.at.Hash? && !y.r.at.Finished?
    && Present(x.fs, src) && Present(x.fs, TempPathFor(x.r.dst))
    && Read(x.fs, src).bytes != Read(x.fs, TempPathFor(x.r.dst)).bytes
  }

  /** How often that has happened in an attempt. */
  ghost function Differing(c: Config, hist: seq<Sys>, m: nat, n: nat, id: nat): nat
    decreases n
  {
    if n <= m then 0 else Differing(c, hist, m, n - 1, id) + if Differs(c, hist, n - 1, id) then 1 else 0
  }

  /** Where a Job stands tells how often. */
  predicate Compared(at: At, d: nat) {
    match at
    case Hash(a) => d == a <= 1
    case Commit(_) => d <= 1
    case Clear(_) => d <= 1
    case MoveRemove => d <= 1
    case Sweep(e) => d == if e == ChecksumMismatch then 2 else 0
    case SweepBook(e, _) => d == if e == ChecksumMismatch then 2 else 0
    case Finished(r, _) => d <= 2 && (d == 2 <==> r == Err(ChecksumMismatch))
    case _ => d == 0
  }

  /** A copy is given up for a wrong hash if and only if the two files were compared twice
      and differed both times; they are never compared a third time. */
  lemma GivesUpAfterTwo(c: Config, hist: seq<Sys>, m: nat, n: nat, id: nat)
    requires Disjoint(c) && IsRun(c, hist) && n + 1 < |hist| && id in c.jobs && Attempt(hist, m, n, id)
    requires id in hist[n + 1].runs && Next(c, hist[n], Step(id), hist[n + 1]) && hist[n + 1].runs[id].at.Finished?
    ensures hist[n + 1].runs[id].at.result == Err(ChecksumMismatch) <==> Differing(c, hist, m, n + 1, id) == 2
    ensures Differing(c, hist, m, n + 1, id) <= 2
  {
    hide Disjoint, IsRun, Moves, Next, MakesOut;
    ComparedAt(c, hist, m, n, id);
    StepMoves(c, hist, n, id);
    NotFromIdle(c, id, PointOf(hist[n], id), PointOf(hist[n + 1], id));
    CompareOn(c, id, PointOf(hist[n], id), PointOf(hist[n + 1], id), Differing(c, hist, m, n, id));
    hide Compared;
  }

  lemma {:induction false} ComparedAt(c: Config, hist: seq<Sys>, m: nat, n: nat, id: nat)
    requires Disjoint(c) && IsRun(c, hist) && id in c.jobs && Attempt(hist, m, n, id)
    ensures Compared(hist[n].runs[id].at, Differing(c, hist, m, n, id))
    decreases n
  {
    hide Disjoint, Moves, IsRun, Steps, Attempt, Compared, MakesOut, Next;
    AttemptBefore(c, hist, m, n, id);
    if n == m {
      NothingCompared();
    } else {
      ComparedAt(c, hist, m, n - 1, id);
      var s, s' := hist[n - 1], hist[n];
      var e := StepOf(c, s, s');
      if Next(c, s, Step(id), s') {
        StepMoves(c, hist, n - 1, id);
        CompareOn(c, id, PointOf(s, id), PointOf(s', id), Differing(c, hist, m, n - 1, id));
      } else {
        OthersLeave(c, s, e, s', id);
      }
    }
  }

  lemma NothingCompared()
    ensures Compared(Idle, 0)
  {
  }

  lemma CompareOn(c: Config, id: nat, x: Point, y: Point, d: nat)
    requires Disjoint(c) && id in c.jobs && Moves(c, c.jobs[id], x, y) && Compared(x.r.at, d) && !x.r.at.Finished?
    ensures Compared(y.r.at, d + if MakesOut(c.jobs[id].src, x, y) then 1 else 0)
  {
    hide Disjoint, Moves, Compared;
    if x.r.at.Hash? {
      CompareHashed(c, id, x, y, d);
    } else if Asking(x.r.at) || x.r.at.Idle? {
      CompareAsking(c, id, x, y, d);
    } else if Trying(x.r.at) || Streaming(x.r.at) {
      CompareFilling(c, id, x, y, d);
    } else {
      CompareChecked(c, id, x, y, d);
    }
  }

  lemma CompareHashed(c: Config, id: nat, x: Point, y: Point, d: nat)
    requires Disjoint(c) && id in c.jobs && Moves(c, c.jobs[id], x, y) && Compared(x.r.at, d) && x.r.at.Hash?
    ensures Compared(y.r.at, d + if MakesOut(c.jobs[id].src, x, y) then 1 else 0)
  {
    hide Read, Present, TempPathFor;
    assert forall a, b :: c.hash(a) == c.hash(b) ==> a == b;
    hide Disjoint;
  }

  lemma CompareAsking(c: Config, id: nat, x: Point, y: Point, d: nat)
    requires id in c.jobs && Moves(c, c.jobs[id], x, y) && Compared(x.r.at, d) && (Asking(x.r.at) || x.r.at.Idle?)
    ensures Compared(y.r.at, d)
  {
    hide Candidate, ResumeOffset, Records, OpensTruncated, Unlinks, Renames, Clears, Clones, Syncs;
    hide MaySay, Copies, Writes, Present, Read, SameDevice, TempPathFor;
  }

  lemma CompareFilling(c: Config, id: nat, x: Point, y: Point, d: nat)
    requires id in c.jobs && Moves(c, c.jobs[id], x, y) && Compared(x.r.at, d) && (Trying(x.r.at) || Streaming(x.r.at))
    ensures Compared(y.r.at, d)
  {
    hide Candidate, ResumeOffset, Records, OpensTruncated, Unlinks, Renames, Clears, Clones, Syncs;
    hide MaySay, Copies, Writes, Present, Read, SameDevice, TempPathFor;
  }

  lemma CompareChecked(c: Config, id: nat, x: Point, y: Point, d: nat)
    requires id in c.jobs && Moves(c, c.jobs[id], x, y) && Compared(x.r.at, d)
    requires !x.r.at.Hash? && !x.r.at.Idle? && !x.r.at.Finished?
    requires !Asking(x.r.at) && !Trying(x.r.at) && !Streaming(x.r.at)
    ensures Compared(y.r.at, d)
  {
    hide Candidate, ResumeOffset, Records, OpensTruncated, Unlinks, Renames, Clears, Clones, Syncs;
    hide MaySay, Copies, Writes, Present, Read, SameDevice, TempPathFor;
  }

  lemma NotFromIdle(c: Config, id: nat, x: Point, y: Point)
    requires id in c.jobs && Moves(c, c.jobs[id], x, y) && y.r.at.Finished?
    ensures !x.r.at.Finished?
  {
    hide Candidate, ResumeOffset, Records, OpensTruncated, Unlinks, Renames, Clears, Clones, Syncs;
  }
}
