/**
 Whole attempts: what a Job's thread has been through when it answers, and what it has
 left behind.
 */
module CommitAttempts {
  import opened Paths
  import opened Disk
  import opened CommitMachine
  import opened CommitInvariant
  import opened CommitLanding
  import opened CommitTheorems

  /******* What an attempt has been through *******/

  /** A copy byte by byte has begun; */
  ghost predicate Began(hist: seq<Sys>, m: nat, n: nat, id: nat) {
    exists k :: m <= k <= n < |hist| && id in hist[k].runs && hist[k].runs[id].at.Open?
  }

  /** its bytes have all been written and made durable; */
  ghost predicate Streamed(hist: seq<Sys>, m: nat, n: nat, id: nat) {
    exists k :: m <= k <= n < |hist| && id in hist[k].runs && hist[k].runs[id].at.Measure?
  }

  /** and both files have been hashed, or were about to be. */
  ghost predicate Hashed(hist: seq<Sys>, m: nat, n: nat, id: nat) {
    exists k :: m <= k <= n < |hist| && id in hist[k].runs && hist[k].runs[id].at.Hash?
  }

  /** The clone call has succeeded. */
  ghost predicate Cloned(hist: seq<Sys>, m: nat, n: nat, id: nat) {
    exists k :: m <= k <= n < |hist| && id in hist[k].runs && hist[k].runs[id].at.CloneSync?
  }

  /** The clone is durable and about to be committed. */
  ghost predicate Durable(hist: seq<Sys>, m: nat, n: nat, id: nat) {
    exists k :: m <= k <= n < |hist| && id in hist[k].runs && hist[k].runs[id].at.CloneCommit?
  }

  /** The clone has been tried. */
  ghost predicate Tried(hist: seq<Sys>, m: nat, n: nat, id: nat) {
    exists k :: m <= k <= n < |hist| && id in hist[k].runs && hist[k].runs[id].at.CloneIoctl?
  }

  datatype Past = Past(began: bool, streamed: bool, hashed: bool, cloned: bool, ready: bool, tried: bool)

  ghost function PastOf(hist: seq<Sys>, m: nat, n: nat, id: nat): Past {
    Past(Began(hist, m, n, id), Streamed(hist, m, n, id), Hashed(hist, m, n, id), Cloned(hist, m, n, id),
         Durable(hist, m, n, id), Tried(hist, m, n, id))
  }

  function Going(p: Past, at: At): Past {
    Past(p.began || at.Open?, p.streamed || at.Measure?, p.hashed || at.Hash?, p.cloned || at.CloneSync?,
         p.ready || at.CloneCommit?, p.tried || at.CloneIoctl?)
  }

  /** Where a Job stands tells what it has been through. */
  predicate Tells(at: At, p: Past) {
    match at
    case Open(_) => p.began && !p.streamed && !p.hashed
    case Chunk => p.began && !p.streamed && !p.hashed
    case Sync => p.began && !p.streamed && !p.hashed
    case Measure => p.began && p.streamed && !p.hashed
    case Hash(_) => p.began && p.streamed && p.hashed
    case Commit(tier) => p.began && p.streamed && tier == if p.hashed then Checksummed else SizeChecked
    case Clear(tier) => p.began && p.streamed && tier == if p.hashed then Checksummed else SizeChecked
    case Sweep(e) => p.began && (p.streamed <==> e != IoError) && (p.hashed <==> e == ChecksumMismatch)
    case SweepBook(e, _) => p.began && (p.streamed <==> e != IoError) && (p.hashed <==> e == ChecksumMismatch)
    case MoveRemove => p.began && p.streamed
    case Finished(_, _) => true
    case CloneIoctl => !p.began && !p.streamed && !p.hashed && !p.cloned && !p.ready
    case CloneSync => !p.began && !p.streamed && !p.hashed && p.cloned && !p.ready
    case CloneCommit => !p.began && !p.streamed && !p.hashed && p.cloned && p.ready
    case CloneDrop => !p.began && !p.streamed && !p.hashed && p.cloned
    case CloneUndo => !p.began && !p.streamed && !p.hashed && !p.cloned && !p.ready
    case Record => !p.began && !p.streamed && !p.hashed && !p.ready
    case _ => !p.began && !p.streamed && !p.hashed && !p.cloned && !p.ready && !p.tried
  }

  predicate Asking(at: At) {
    || at.MoveExists? || at.MoveProbe? || at.MoveSameFs? || at.MoveRename?
    || at.Stat? || at.Exists? || at.Probe? || at.SameFs?
  }

  predicate Trying(at: At) {
    at.CloneOpen? || at.CloneIoctl? || at.CloneSync? || at.CloneUndo? || at.CloneCommit? || at.CloneDrop? || at.Record?
  }

  predicate Streaming(at: At) { at.Open? || at.Chunk? || at.Sync? }

  lemma TellsAsking(c: Config, id: nat, x: Point, y: Point, p: Past)
    requires id in c.jobs && Moves(c, c.jobs[id], x, y) && Tells(x.r.at, p)
    requires x.r.at.CloneCommit? ==> !c.jobs[id].isMove
    requires Asking(x.r.at)
    ensures Tells(y.r.at, Going(p, y.r.at))
  {
    hide Candidate, ResumeOffset, Records, OpensTruncated, Unlinks, Renames, Clears, Clones, Syncs;
    hide MaySay, Copies, Writes, Present, Read, SameDevice, TempPathFor;
  }

  lemma TellsTrying(c: Config, id: nat, x: Point, y: Point, p: Past)
    requires id in c.jobs && Moves(c, c.jobs[id], x, y) && Tells(x.r.at, p)
    requires x.r.at.CloneCommit? ==> !c.jobs[id].isMove
    requires Trying(x.r.at)
    ensures Tells(y.r.at, Going(p, y.r.at))
  {
    hide Candidate, ResumeOffset, Records, OpensTruncated, Unlinks, Renames, Clears, Clones, Syncs;
    hide MaySay, Copies, Writes, Present, Read, SameDevice, TempPathFor;
  }

  lemma TellsStreaming(c: Config, id: nat, x: Point, y: Point, p: Past)
    requires id in c.jobs && Moves(c, c.jobs[id], x, y) && Tells(x.r.at, p)
    requires x.r.at.CloneCommit? ==> !c.jobs[id].isMove
    requires Streaming(x.r.at)
    ensures Tells(y.r.at, Going(p, y.r.at))
  {
    hide Candidate, ResumeOffset, Records, OpensTruncated, Unlinks, Renames, Clears, Clones, Syncs;
    hide MaySay, Copies, Writes, Present, Read, SameDevice, TempPathFor;
  }

  lemma TellsChecking(c: Config, id: nat, x: Point, y: Point, p: Past)
    requires id in c.jobs && Moves(c, c.jobs[id], x, y) && Tells(x.r.at, p)
    requires x.r.at.CloneCommit? ==> !c.jobs[id].isMove
    requires !Asking(x.r.at) && !Trying(x.r.at) && !Streaming(x.r.at) && !x.r.at.Idle? && !x.r.at.Finished?
    ensures Tells(y.r.at, Going(p, y.r.at))
  {
    hide Candidate, ResumeOffset, Records, OpensTruncated, Unlinks, Renames, Clears, Clones, Syncs;
    hide MaySay, Copies, Writes, Present, Read, SameDevice, TempPathFor;
  }

  lemma TellsOn(c: Config, id: nat, x: Point, y: Point, p: Past)
    requires id in c.jobs && Moves(c, c.jobs[id], x, y) && Tells(x.r.at, p)
    requires x.r.at.CloneCommit? ==> !c.jobs[id].isMove
    requires !x.r.at.Idle? && !x.r.at.Finished?
    ensures Tells(y.r.at, Going(p, y.r.at))
  {
    hide Moves, Tells;
    if Asking(x.r.at) {
      TellsAsking(c, id, x, y, p);
    } else if Trying(x.r.at) {
      TellsTrying(c, id, x, y, p);
    } else if Streaming(x.r.at) {
      TellsStreaming(c, id, x, y, p);
    } else {
      TellsChecking(c, id, x, y, p);
    }
  }

  lemma PastGoes(hist: seq<Sys>, m: nat, n: nat, id: nat)
    requires m <= n < |hist| - 1 && id in hist[n + 1].runs
    ensures PastOf(hist, m, n + 1, id) == Going(PastOf(hist, m, n, id), hist[n + 1].runs[id].at)
  {
    var at := hist[n + 1].runs[id].at;
    if at.Open? { assert Began(hist, m, n + 1, id); }
    if at.Measure? { assert Streamed(hist, m, n + 1, id); }
    if at.Hash? { assert Hashed(hist, m, n + 1, id); }
    if at.CloneSync? { assert Cloned(hist, m, n + 1, id); }
    if at.CloneCommit? { assert Durable(hist, m, n + 1, id); }
    if at.CloneIoctl? { assert Tried(hist, m, n + 1, id); }
  }

  lemma {:induction false} AttemptTells(c: Config, hist: seq<Sys>, m: nat, n: nat, id: nat)
    requires Disjoint(c) && IsRun(c, hist) && id in c.jobs && Attempt(hist, m, n, id)
    ensures Tells(hist[n].runs[id].at, PastOf(hist, m, n, id))
    decreases n
  {
    hide Disjoint, Moves, Tells, PastOf, IsRun, Steps, Attempt;
    AttemptBefore(c, hist, m, n, id);
    if n == m {
      NothingYet(hist, m, id);
    } else {
      AttemptTells(c, hist, m, n - 1, id);
      PastGoes(hist, m, n - 1, id);
      AttemptStep(c, hist, n - 1, id, PastOf(hist, m, n - 1, id));
      if hist[n].runs[id] == hist[n - 1].runs[id] { SamePast(hist, m, n - 1, id); }
    }
  }

  lemma AttemptBefore(c: Config, hist: seq<Sys>, m: nat, n: nat, id: nat)
    requires IsRun(c, hist) && Attempt(hist, m, n, id)
    ensures m <= n < |hist| && id in hist[n].runs
    ensures n == m ==> hist[n].runs[id].at.Idle?
    ensures n > m ==>
      && Attempt(hist, m, n - 1, id) && Steps(c, hist[n - 1], hist[n]) && id in hist[n - 1].runs
      && !hist[n - 1].runs[id].at.Finished? && !hist[n].runs[id].at.Idle?
  {
    hide Steps, Init;
    if n > m { assert Steps(c, hist[n - 1], hist[n - 1 + 1]); }
  }

  lemma NothingYet(hist: seq<Sys>, m: nat, id: nat)
    requires m < |hist| && id in hist[m].runs && hist[m].runs[id].at.Idle?
    ensures Tells(Idle, PastOf(hist, m, m, id))
  {
  }

  lemma SamePast(hist: seq<Sys>, m: nat, n: nat, id: nat)
    requires m <= n < |hist| - 1 && id in hist[n].runs && id in hist[n + 1].runs
    requires hist[n + 1].runs[id] == hist[n].runs[id]
    ensures PastOf(hist, m, n + 1, id) == PastOf(hist, m, n, id)
  {
    PastGoes(hist, m, n, id);
    var at := hist[n].runs[id].at;
    if at.Open? { assert Began(hist, m, n, id); }
    if at.Measure? { assert Streamed(hist, m, n, id); }
    if at.Hash? { assert Hashed(hist, m, n, id); }
    if at.CloneSync? { assert Cloned(hist, m, n, id); }
    if at.CloneCommit? { assert Durable(hist, m, n, id); }
    if at.CloneIoctl? { assert Tried(hist, m, n, id); }
  }

  lemma AttemptStep(c: Config, hist: seq<Sys>, k: nat, id: nat, p: Past)
    requires Disjoint(c) && IsRun(c, hist) && id in c.jobs && k + 1 < |hist| && Steps(c, hist[k], hist[k + 1])
    requires id in hist[k].runs && id in hist[k + 1].runs && Tells(hist[k].runs[id].at, p)
    requires !hist[k].runs[id].at.Finished? && !hist[k + 1].runs[id].at.Idle?
    ensures hist[k + 1].runs[id] == hist[k].runs[id]
      || Tells(hist[k + 1].runs[id].at, Going(p, hist[k + 1].runs[id].at))
  {
    hide Disjoint, Moves, IsRun, Tells;
    var s, s' := hist[k], hist[k + 1];
    var e :| Next(c, s, e, s');
    if e == Step(id) {
      ClonesAreCopies(c, hist, k, id);
      if s.runs[id].at.Idle? {
        TellsStart(c, id, PointOf(s, id), PointOf(s', id), p);
      } else {
        TellsOn(c, id, PointOf(s, id), PointOf(s', id), p);
      }
    } else {
      OthersLeave(c, s, e, s', id);
    }
    hide Next;
  }

  lemma TellsStart(c: Config, id: nat, x: Point, y: Point, p: Past)
    requires id in c.jobs && Moves(c, c.jobs[id], x, y) && x.r.at.Idle? && Tells(Idle, p)
    ensures Tells(y.r.at, Going(p, y.r.at))
  {
  }

  /** A move never clones: on one device it renames. */
  lemma ClonesAreCopies(c: Config, hist: seq<Sys>, k: nat, id: nat)
    requires Disjoint(c) && IsRun(c, hist) && id in c.jobs && k < |hist| && id in hist[k].runs
    ensures hist[k].runs[id].at.CloneCommit? ==> !c.jobs[id].isMove
  {
    hide Disjoint, IsRun, LandsLeast;
    RunLands(c, hist, k);
    assert LandingOk(c, id, PointOf(hist[k], id));
  }

  /******* What a tier says *******/

  /** The tier of a copy says how its bytes came to the destination: shared extents, if
      and only if no byte was copied, and then by a clone; a checksum, if and only if
      both files were hashed; a size, if they were copied and not hashed. */
  lemma TierTellsHow(c: Config, hist: seq<Sys>, m: nat, n: nat, id: nat)
    requires Disjoint(c) && IsRun(c, hist) && n + 1 < |hist| && id in c.jobs && Attempt(hist, m, n, id)
    requires id in hist[n + 1].runs && Next(c, hist[n], Step(id), hist[n + 1])
    requires hist[n + 1].runs[id].at.Finished? && hist[n + 1].runs[id].at.result.Ok?
    requires hist[n + 1].runs[id].at.result.outcome.Copied?
    ensures var tier := hist[n + 1].runs[id].at.result.outcome.tier;
      && (tier == SharedExtents <==> !Began(hist, m, n, id)) && (tier == SharedExtents ==> Cloned(hist, m, n, id))
      && (tier == Checksummed <==> Hashed(hist, m, n, id))
      && (tier == SizeChecked <==> Streamed(hist, m, n, id) && !Hashed(hist, m, n, id))
  {
    hide Disjoint, IsRun, Moves;
    AttemptTells(c, hist, m, n, id);
    LastOfACopy(c, id, PointOf(hist[n], id), PointOf(hist[n + 1], id));
    hide Began, Streamed, Hashed, Cloned, Durable, Tried, Next;
  }

  lemma LastOfACopy(c: Config, id: nat, x: Point, y: Point)
    requires id in c.jobs && Moves(c, c.jobs[id], x, y) && y.r.at.Finished?
    requires y.r.at.result.Ok? && y.r.at.result.outcome.Copied?
    ensures y.r.at.result.outcome.replaced == x.r.replaced
    ensures (x.r.at.CloneCommit? && y.r.at.result.outcome.tier == SharedExtents)
         || (x.r.at.Clear? && y.r.at.result.outcome.tier == x.r.at.tier)
  {
    hide Candidate, ResumeOffset, Records, OpensTruncated, Unlinks, Renames, Clears, Clones, Syncs;
    hide MaySay, Copies, Writes, Present, Read, SameDevice, TempPathFor;
  }

  /******* What was replaced *******/

  /** The copy's check for the destination, at some moment of the attempt, found it, if
      it is to be `replaced`, and otherwise, if it is a truthful check, did not. */
  ghost predicate CheckFound(c: Config, hist: seq<Sys>, m: nat, n: nat, id: nat, replaced: bool)
    requires id in c.jobs
  {
    exists k :: m <= k < n < |hist| && id in hist[k].runs && Found(c, c.jobs[id], hist[k], hist[k].runs[id], replaced)
  }

  ghost predicate Found(c: Config, j: Job, s: Sys, r: Run, replaced: bool) {
    && r.at.Exists?
    && if replaced then j.policy == Replace && r.dst in s.fs.names
       else c.calm && j.policy == Replace ==> r.dst !in s.fs.names
  }

  predicate Checked(at: At) { (!Asking(at) || at.Probe? || at.SameFs?) && !at.Idle? && !at.Finished? }

  lemma {:induction false} CheckedOnce(c: Config, hist: seq<Sys>, m: nat, n: nat, id: nat)
    requires Disjoint(c) && IsRun(c, hist) && id in c.jobs && !c.jobs[id].isMove && Attempt(hist, m, n, id)
    requires Checked(hist[n].runs[id].at)
    ensures CheckFound(c, hist, m, n, id, hist[n].runs[id].replaced)
    decreases n
  {
    hide Disjoint, Moves, IsRun, Steps, Attempt, Found;
    AttemptBefore(c, hist, m, n, id);
    var s, s' := hist[n - 1], hist[n];
    var e := StepOf(c, s, s');
    if e == Step(id) {
      StepMoves(c, hist, n - 1, id);
      hide Next;
      ChecksOnce(c, id, s, PointOf(s, id), PointOf(s', id));
      if !s.runs[id].at.Exists? { CheckedOnce(c, hist, m, n - 1, id); }
    } else {
      OthersLeave(c, s, e, s', id);
      CheckedOnce(c, hist, m, n - 1, id);
    }
  }

  lemma ChecksOnce(c: Config, id: nat, s: Sys, x: Point, y: Point)
    requires id in c.jobs && !c.jobs[id].isMove && Moves(c, c.jobs[id], x, y) && x.fs == s.fs && Checked(y.r.at)
    ensures x.r.at.Exists? ==> Found(c, c.jobs[id], s, x.r, y.r.replaced)
    ensures !x.r.at.Exists? ==> Checked(x.r.at) && y.r.replaced == x.r.replaced
  {
    hide Candidate, ResumeOffset, Records, OpensTruncated, Unlinks, Renames, Clears, Clones, Syncs;
    hide Copies, Writes, Present, Read, SameDevice, TempPathFor;
  }

  /** A copy says that it replaced a file if and only if its check found one, where the
      policy is to replace. */
  lemma ReplacedTellsTruth(c: Config, hist: seq<Sys>, m: nat, n: nat, id: nat)
    requires Disjoint(c) && IsRun(c, hist) && n + 1 < |hist| && id in c.jobs && Attempt(hist, m, n, id)
    requires id in hist[n + 1].runs && Next(c, hist[n], Step(id), hist[n + 1]) && !c.jobs[id].isMove
    requires hist[n + 1].runs[id].at.Finished? && hist[n + 1].runs[id].at.result.Ok?
    requires hist[n + 1].runs[id].at.result.outcome.Copied?
    ensures CheckFound(c, hist, m, n, id, hist[n + 1].runs[id].at.result.outcome.replaced)
  {
    hide Disjoint, IsRun, Moves, CheckFound, Attempt;
    StepMoves(c, hist, n, id);
    hide Next;
    LastOfACopy(c, id, PointOf(hist[n], id), PointOf(hist[n + 1], id));
    CheckedOnce(c, hist, m, n, id);
  }

  /******* What a failure leaves behind *******/

  ghost predicate NothingLeft(s: Sys, dst: Path) { TempPathFor(dst) !in s.fs.names && dst !in s.jn.book }

  /** In the step after moment `k` the temp file might have been removed, and was not. */
  ghost predicate RemovalFails(c: Config, hist: seq<Sys>, k: nat, id: nat) {
    && k + 1 < |hist| && id in hist[k].runs && Next(c, hist[k], Step(id), hist[k + 1])
    && var temp := TempPathFor(hist[k].runs[id].dst);
       temp in hist[k].fs.names && temp in hist[k + 1].fs.names
       && exists s' :: Next(c, hist[k], Step(id), s') && s'.fs.names == hist[k].fs.names - {temp}
  }

  /** Likewise the entry. */
  ghost predicate ClearingFails(c: Config, hist: seq<Sys>, k: nat, id: nat) {
    && k + 1 < |hist| && id in hist[k].runs && Next(c, hist[k], Step(id), hist[k + 1])
    && var dst := hist[k].runs[id].dst;
       dst in hist[k].jn.book && dst in hist[k + 1].jn.book
       && exists s' :: Next(c, hist[k], Step(id), s') && s'.jn.book == hist[k].jn.book - {dst}
  }

  /** After the copying began, a call that cleans up has failed. */
  ghost predicate CleanupFailed(c: Config, hist: seq<Sys>, m: nat, n: nat, id: nat) {
    exists k :: m <= k <= n && Began(hist, m, k, id) && (RemovalFails(c, hist, k, id) || ClearingFails(c, hist, k, id))
  }

  /** A comparison that failed, and a copying that stopped, leave neither the temp file
      nor the entry, unless a call that cleans up failed too. */
  lemma FailureLeavesNothing(c: Config, hist: seq<Sys>, m: nat, n: nat, id: nat)
    requires Disjoint(c) && IsRun(c, hist) && n + 1 < |hist| && id in c.jobs && Attempt(hist, m, n, id)
    requires id in hist[n + 1].runs && Next(c, hist[n], Step(id), hist[n + 1])
    requires hist[n + 1].runs[id].at.Finished? && hist[n + 1].runs[id].at.result.Err?
    requires hist[n + 1].runs[id].at.result.error != IoError || (Began(hist, m, n, id) && !Streamed(hist, m, n, id))
    ensures NothingLeft(hist[n + 1], hist[n].runs[id].dst) || CleanupFailed(c, hist, m, n, id)
  {
    hide Disjoint, IsRun, Moves, CleanupFailed, Next;
    var x, y := PointOf(hist[n], id), PointOf(hist[n + 1], id);
    AttemptTells(c, hist, m, n, id);
    StepMoves(c, hist, n, id);
    LastOfAnError(c, id, x, y, PastOf(hist, m, n, id));
    SweepLeaves(c, hist, m, n, id);
    hide Attempt, Began, Streamed, Hashed, Cloned, Durable, Tried;
    ClearLeaves(c, hist, m, n, id);
  }

  /** A failure after the comparison of sizes and before the commit leaves both: the
      whole copy is there for the next attempt to find. */
  lemma LateFailureLeavesBoth(c: Config, hist: seq<Sys>, m: nat, n: nat, id: nat)
    requires Disjoint(c) && IsRun(c, hist) && n + 1 < |hist| && id in c.jobs && Attempt(hist, m, n, id)
    requires id in hist[n + 1].runs && Next(c, hist[n], Step(id), hist[n + 1])
    requires hist[n + 1].runs[id].at.Finished? && hist[n + 1].runs[id].at.result == Err(IoError)
    requires Streamed(hist, m, n, id) && forall k | m <= k < n :: !CommitsAt(c, hist, k, id)
    ensures var dst := hist[n].runs[id].dst; TempPathFor(dst) in hist[n + 1].fs.names && dst in hist[n + 1].jn.book
  {
    hide Disjoint, IsRun, Moves, Next, CommitsAt;
    var x, y := PointOf(hist[n], id), PointOf(hist[n + 1], id);
    AttemptTells(c, hist, m, n, id);
    AfterCommitIff(c, hist, m, n, id);
    StepMoves(c, hist, n, id);
    LastOfAnError(c, id, x, y, PastOf(hist, m, n, id));
    Known(c, hist, n, id);
    hide Attempt, Began, Streamed, Hashed, Cloned, Durable, Tried, Claim, Good, Whole;
    FailsUntouched(c, id, x, y);
  }

  lemma StepMoves(c: Config, hist: seq<Sys>, n: nat, id: nat)
    requires n + 1 < |hist| && id in hist[n].runs && id in hist[n + 1].runs && Next(c, hist[n], Step(id), hist[n + 1])
    ensures id in c.jobs && Moves(c, c.jobs[id], PointOf(hist[n], id), PointOf(hist[n + 1], id))
  {
    hide Moves;
  }

  lemma LastOfAnError(c: Config, id: nat, x: Point, y: Point, p: Past)
    requires id in c.jobs && Moves(c, c.jobs[id], x, y) && Tells(x.r.at, p)
    requires y.r.at.Finished? && y.r.at.result.Err?
    ensures y.r.at.result.error != IoError || (p.began && !p.streamed) ==>
      x.r.at.SweepBook? && x.r.at.error == y.r.at.result.error
    ensures y.r.at.result.error == IoError && p.streamed ==> x.r.at.Hash? || x.r.at.Commit? || AfterCommit(x.r.at)
  {
    hide Candidate, ResumeOffset, Records, OpensTruncated, Unlinks, Renames, Clears, Clones, Syncs;
    hide MaySay, Copies, Writes, Present, Read, SameDevice, TempPathFor;
  }

  lemma FailsUntouched(c: Config, id: nat, x: Point, y: Point)
    requires id in c.jobs && Moves(c, c.jobs[id], x, y) && y.r.at.Finished? && y.r.at.result.Err?
    requires x.r.at.Hash? || x.r.at.Commit?
    ensures y.fs == x.fs && y.jn == x.jn
  {
  }

  /** When the entry's turn has come the temp file is gone, or its removal failed. */
  lemma {:induction false} SweepLeaves(c: Config, hist: seq<Sys>, m: nat, n: nat, id: nat)
    requires Disjoint(c) && IsRun(c, hist) && id in c.jobs && Attempt(hist, m, n, id) && hist[n].runs[id].at.SweepBook?
    ensures TempPathFor(hist[n].runs[id].dst) !in hist[n].fs.names || CleanupFailed(c, hist, m, n, id)
    decreases n
  {
    hide Disjoint, Moves, IsRun, Steps, Attempt, CleanupFailed;
    AttemptBefore(c, hist, m, n, id);
    AttemptTells(c, hist, m, n - 1, id);
    var s, s' := hist[n - 1], hist[n];
    var e := StepOf(c, s, s');
    if e == Step(id) {
      StepMoves(c, hist, n - 1, id);
      SweptOrFailed(c, hist, m, n - 1, id);
    } else {
      OthersLeave(c, s, e, s', id);
      SweepLeaves(c, hist, m, n - 1, id);
      if CleanupFailed(c, hist, m, n - 1, id) {
        FailedLonger(c, hist, m, n - 1, id);
      } else {
        RunKeeps(c, hist, n - 1);
        StaysAway(c, s, e, s', id);
      }
    }
  }

  lemma StepOf(c: Config, s: Sys, s': Sys) returns (e: Event)
    requires Steps(c, s, s')
    ensures Next(c, s, e, s')
  {
    e :| Next(c, s, e, s');
  }

  lemma FailedLonger(c: Config, hist: seq<Sys>, m: nat, n: nat, id: nat)
    requires CleanupFailed(c, hist, m, n, id)
    ensures CleanupFailed(c, hist, m, n + 1, id)
  {
    hide Began, RemovalFails, ClearingFails;
  }

  lemma SweptOrFailed(c: Config, hist: seq<Sys>, m: nat, k: nat, id: nat)
    requires m <= k && k + 1 < |hist| && id in hist[k].runs && id in hist[k + 1].runs
    requires Next(c, hist[k], Step(id), hist[k + 1]) && Tells(hist[k].runs[id].at, PastOf(hist, m, k, id))
    requires hist[k + 1].runs[id].at.SweepBook?
    ensures TempPathFor(hist[k + 1].runs[id].dst) !in hist[k + 1].fs.names || CleanupFailed(c, hist, m, k + 1, id)
  {
    var s, s' := hist[k], hist[k + 1];
    FromSweep(c, id, PointOf(s, id), PointOf(s', id));
    var temp := TempPathFor(s.runs[id].dst);
    if temp in s'.fs.names {
      var t := CouldSweep(c, s, id);
      hide Next;
      assert RemovalFails(c, hist, k, id);
      assert Began(hist, m, k, id);
    }
  }

  lemma FromSweep(c: Config, id: nat, x: Point, y: Point)
    requires id in c.jobs && Moves(c, c.jobs[id], x, y) && y.r.at.SweepBook?
    ensures x.r.at.Sweep? && y.r.dst == x.r.dst
    ensures TempPathFor(x.r.dst) in y.fs.names ==> TempPathFor(x.r.dst) in x.fs.names
  {
    hide Candidate, ResumeOffset, Records, OpensTruncated, Renames, Clears, Clones, Syncs;
    hide MaySay, Copies, Writes, Present, Read, SameDevice, TempPathFor;
  }

  lemma CouldSweep(c: Config, s: Sys, id: nat) returns (t: Sys)
    requires id in c.jobs && id in s.runs && HasTurn(c, s.runs, id) && s.runs[id].at.Sweep?
    requires TempPathFor(s.runs[id].dst) in s.fs.names
    ensures Next(c, s, Step(id), t) && t.fs.names == s.fs.names - {TempPathFor(s.runs[id].dst)}
  {
    hide TempPathFor;
    var r := s.runs[id];
    var temp := TempPathFor(r.dst);
    var r' := r.(at := SweepBook(r.at.error, true));
    t := Sys(Retree(s.fs, s.fs.names - {temp}), s.jn, s.runs[id := r'], s.placed);
    assert Unlinks(s.fs, temp, true, t.fs) && Goes(r, SweepBook(r.at.error, true), r');
    assert Moves(c, c.jobs[id], PointOf(s, id), PointOf(t, id));
  }

  lemma CouldClear(c: Config, s: Sys, id: nat) returns (t: Sys)
    requires id in c.jobs && id in s.runs && HasTurn(c, s.runs, id) && s.runs[id].at.SweepBook?
    requires s.runs[id].dst in s.jn.book
    ensures Next(c, s, Step(id), t) && t.jn.book == s.jn.book - {s.runs[id].dst}
  {
    var r := s.runs[id];
    var r' := r.(at := Finished(Err(r.at.error), r.at.gone));
    t := Sys(s.fs, Rebook(s.jn, s.jn.book - {r.dst}), s.runs[id := r'], s.placed);
    assert Clears(s.jn, r.dst, true, t.jn) && Goes(r, Finished(Err(r.at.error), r.at.gone && true), r');
    assert Moves(c, c.jobs[id], PointOf(s, id), PointOf(t, id));
  }

  lemma ClearLeaves(c: Config, hist: seq<Sys>, m: nat, n: nat, id: nat)
    requires m <= n && n + 1 < |hist| && id in hist[n].runs && id in hist[n + 1].runs
    requires Next(c, hist[n], Step(id), hist[n + 1]) && hist[n].runs[id].at.SweepBook?
    requires Tells(hist[n].runs[id].at, PastOf(hist, m, n, id))
    ensures hist[n + 1].fs == hist[n].fs
    ensures hist[n].runs[id].dst !in hist[n + 1].jn.book || CleanupFailed(c, hist, m, n, id)
  {
    var s, s', dst := hist[n], hist[n + 1], hist[n].runs[id].dst;
    FromSweepBook(c, id, PointOf(s, id), PointOf(s', id));
    if dst in s'.jn.book {
      var t := CouldClear(c, s, id);
      hide Next;
      assert ClearingFails(c, hist, n, id);
      assert Began(hist, m, n, id);
    }
  }

  lemma FromSweepBook(c: Config, id: nat, x: Point, y: Point)
    requires id in c.jobs && Moves(c, c.jobs[id], x, y) && x.r.at.SweepBook?
    ensures y.fs == x.fs && (x.r.dst in y.jn.book ==> x.r.dst in x.jn.book)
  {
  }

  /** Nobody else makes a Job's temp file. */
  lemma StaysAway(c: Config, s: Sys, e: Event, s': Sys, id: nat)
    requires Disjoint(c) && Inv(c, s) && Next(c, s, e, s') && e != Step(id) && id in c.jobs && id in s.runs
    requires id in s'.runs && s'.runs[id] == s.runs[id] && (s.runs[id].at.SweepBook? || s.runs[id].at.Record?)
    requires TempPathFor(s.runs[id].dst) !in s.fs.names
    ensures TempPathFor(s.runs[id].dst) !in s'.fs.names
  {
    var dst := s.runs[id].dst;
    IsInReach(c, s, id);
    hide Disjoint, Inv, RunOk, Next;
    if e.Step? { StaysAwayFromStep(c, s, e.id, s', id); } else { StaysAwayFromOthers(c, s, e, s', id); }
  }

  lemma StaysAwayFromOthers(c: Config, s: Sys, e: Event, s': Sys, id: nat)
    requires Next(c, s, e, s') && !e.Step? && id in c.jobs && id in s.runs && id in s'.runs
    requires s'.runs[id] == s.runs[id] && !s.runs[id].at.Idle? && s.runs[id].dst in c.reach(id)
    requires TempPathFor(s.runs[id].dst) !in s.fs.names
    ensures TempPathFor(s.runs[id].dst) !in s'.fs.names
  {
    IsOwnTemp(c, id, s.runs[id].dst);
    hide IsTemp, LosesPower, TempPathFor;
  }

  lemma IsInReach(c: Config, s: Sys, id: nat)
    requires Inv(c, s) && id in c.jobs && id in s.runs && (s.runs[id].at.SweepBook? || s.runs[id].at.Record?)
    ensures s.runs[id].dst in c.reach(id)
  {
    hide FsOk, RulesOf, JournalOk, PlacedOk, Claim, Good, Whole, Taken, Asked, Owns;
    assert RunOk(c, id, PointOf(s, id));
  }

  lemma StaysAwayFromStep(c: Config, s: Sys, k: nat, s': Sys, id: nat)
    requires Disjoint(c) && Inv(c, s) && Next(c, s, Step(k), s') && k != id && id in c.jobs && id in s.runs
    requires !s.runs[id].at.Idle? && s.runs[id].dst in c.reach(id) && TempPathFor(s.runs[id].dst) !in s.fs.names
    ensures TempPathFor(s.runs[id].dst) !in s'.fs.names
  {
    hide Disjoint, Moves, RunOk, FsOk, RulesOf, JournalOk, PlacedOk;
    var x, y := PointOf(s, k), PointOf(s', k);
    OwnStep(c, s.placed, k, x, y);
    if x.fs != y.fs {
      Apart(c, k, x.r.dst, id, s.runs[id].dst);
      assert SameAt(x.fs, y.fs, TempPathFor(s.runs[id].dst));
    }
  }
}
