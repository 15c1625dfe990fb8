/** The engine's promises, for every run: any Jobs whose footprints are as `Disjoint`
    asks, any interleaving, any failures, crashes anywhere. */
module CommitTheorems {
  import opened Paths
  import opened Disk
  import opened CommitMachine
  import opened CommitInvariant
  import opened CommitLanding

  lemma Known(c: Config, hist: seq<Sys>, n: nat, id: nat)
    requires Disjoint(c) && IsRun(c, hist) && n < |hist| && id in c.jobs
    ensures c.jobs[id].src in c.before && id in hist[n].runs && RunOk(c, id, PointOf(hist[n], id))
  {
    RunKeeps(c, hist, n);
    hide RunOk, FsOk, RulesOf, JournalOk, PlacedOk, Disjoint, IsRun;
  }

  /** What may stand at a final name: a file another party put there whole, or the
      whole source of a Job that may land there. On a medium that may write other
      bytes than it was given, a Job without checksum is held to the length alone. */
  ghost predicate Legitimate(c: Config, placed: set<(Path, Bytes)>, p: Path, b: Bytes) {
    || (p, b) in placed
    || exists id :: id in c.jobs && c.jobs[id].src in c.before && MayReach(c.jobs[id], p)
                    && var s := c.before[c.jobs[id].src];
                       if c.faithful || c.jobs[id].checksum then b == s else |b| == |s|
  }

  lemma AllowedIsLegitimate(c: Config, placed: set<(Path, Bytes)>, p: Path, b: Bytes)
    requires Disjoint(c) && Allowed(c, placed, p, b)
    ensures Legitimate(c, placed, p, b)
  {
    if (p, b) !in placed {
      var id :| LandedBy(c, id, p, b);
      assert MayReach(c.jobs[id], p);
    }
  }

  /** Never a partial file under a final name: not in the tree processes see, and
      not in any tree the medium would show if power were lost at this moment. */
  lemma NeverPartial(c: Config, hist: seq<Sys>, n: nat, d: Dir, p: Path)
    requires Disjoint(c) && IsRun(c, hist) && n < |hist|
    requires d in Snaps(hist[n].fs) && p in d && !IsTemp(c, p)
    ensures d[p] in hist[n].fs.data && hist[n].fs.data[d[p]].synced
    ensures Legitimate(c, hist[n].placed, p, hist[n].fs.data[d[p]].bytes)
  {
    var s := hist[n];
    var u := RulesOf(c, s.placed);
    RunKeeps(c, hist, n);
    assert SnapOk(u, s.fs, d);
    assert (p, s.fs.data[d[p]].bytes) in u.allowed;
    hide Disjoint, FsOk, Inv, IsTemp;
    AllowedIsLegitimate(c, s.placed, p, s.fs.data[d[p]].bytes);
  }

  /** The same for a machine that does come back: each device picks its own tree. */
  lemma NeverPartialAfterPowerLoss(c: Config, hist: seq<Sys>, n: nat, fs': Fs, p: Path)
    requires Disjoint(c) && IsRun(c, hist) && n < |hist|
    requires LosesPower(c.dev, hist[n].fs, fs') && !IsTemp(c, p)
    ensures p in fs'.names ==> Present(fs', p) && Legitimate(c, hist[n].placed, p, Read(fs', p).bytes)
    ensures p in c.before && !IsMoveSource(c, p) ==> p in fs'.names
  {
    var s := hist[n];
    var u := RulesOf(c, s.placed);
    RunKeeps(c, hist, n);
    var d := TreeOf(u, s.fs, fs', p);
    assert u.dev == c.dev;
    if p in fs'.names { NeverPartial(c, hist, n, d, p); }
    if p in c.before && !IsMoveSource(c, p) { assert p in u.kept; }
  }

  /** Nothing that was there disappears, a moved source aside. */
  lemma NothingDisappears(c: Config, hist: seq<Sys>, n: nat, d: Dir, p: Path)
    requires Disjoint(c) && IsRun(c, hist) && n < |hist| && d in Snaps(hist[n].fs)
    requires p in c.before && !IsTemp(c, p) && !IsMoveSource(c, p)
    ensures p in d
  {
    RunKeeps(c, hist, n);
    assert SnapOk(RulesOf(c, hist[n].placed), hist[n].fs, d);
    assert p in RulesOf(c, hist[n].placed).kept;
  }

  /** `Copied` is true: the landing is there, durable, of the size reported, and
      equal to the source under every tier but the size check on a bad medium. */
  lemma CopiedIsTrue(c: Config, hist: seq<Sys>, n: nat, id: nat)
    requires Disjoint(c) && IsRun(c, hist) && n < |hist| && id in c.jobs
    requires id in hist[n].runs && hist[n].runs[id].at.Finished?
    requires hist[n].runs[id].at.result.Ok? && hist[n].runs[id].at.result.outcome.Copied?
    ensures var o := hist[n].runs[id].at.result.outcome;
            var j := c.jobs[id];
            && j.src in c.before && MayReach(j, o.committedAs) && Present(hist[n].fs, o.committedAs)
            && var got, whole := Read(hist[n].fs, o.committedAs), c.before[j.src];
               && got.synced && o.bytes == |got.bytes| == |whole|
               && (c.faithful || o.tier != SizeChecked ==> got.bytes == whole)
               && (j.checksum ==> o.tier != SizeChecked)
               && (o.replaced ==> j.policy == Replace)
  {
    hide Disjoint, IsRun, IsTemp;
    var s := hist[n];
    var p := s.runs[id].dst;
    Known(c, hist, n, id);
    InReach(c, id, p);
    NotATemp(c, id, p);
    NeverPartial(c, hist, n, s.fs.names, p);
  }

  lemma InReach(c: Config, id: nat, p: Path)
    requires Disjoint(c) && id in c.jobs && p in c.reach(id)
    ensures MayReach(c.jobs[id], p)
  {
  }

  /** `Moved` is true likewise: the bytes are at the path it names. */
  lemma MovedIsTrue(c: Config, hist: seq<Sys>, n: nat, id: nat)
    requires Disjoint(c) && IsRun(c, hist) && n < |hist| && id in c.jobs
    requires id in hist[n].runs && hist[n].runs[id].at.Finished?
    requires hist[n].runs[id].at.result.Ok? && hist[n].runs[id].at.result.outcome.Moved?
    ensures var at := hist[n].runs[id].at.result.outcome.committedAs;
            var j := c.jobs[id];
            && j.src in c.before && j.isMove && MayReach(j, at) && Present(hist[n].fs, at)
            && j.src !in hist[n].fs.names
            && |Read(hist[n].fs, at).bytes| == |c.before[j.src]|
            && (c.faithful || j.checksum ==> Read(hist[n].fs, at).bytes == c.before[j.src])
  {
    hide Disjoint, IsRun, LandsLeast;
    Known(c, hist, n, id);
    InReach(c, id, hist[n].runs[id].dst);
    RunLands(c, hist, n);
    assert LandingOk(c, id, PointOf(hist[n], id));
  }

  /** `SkippedExisting` is true: the policy is to skip, and there is something to skip. */
  lemma SkippedIsTrue(c: Config, hist: seq<Sys>, n: nat, id: nat)
    requires Disjoint(c) && IsRun(c, hist) && n < |hist| && id in c.jobs
    requires id in hist[n].runs && hist[n].runs[id].at.Finished?
    requires hist[n].runs[id].at.result == Ok(SkippedExisting)
    ensures c.jobs[id].policy == Skip && c.jobs[id].dst in hist[n].fs.names
  {
    hide Disjoint, IsRun;
    RunLands(c, hist, n);
    assert LandingOk(c, id, PointOf(hist[n], id));
  }

  /** A move never loses data: at every step the bytes are at the source or at a
      landing of that Job, in every tree the medium might show. Across devices this
      is claimed where power is not lost; see `MoveMayBeLostIff`. */
  lemma MoveNeverLoses(c: Config, hist: seq<Sys>, n: nat, id: nat, d: Dir)
    requires Disjoint(c) && IsRun(c, hist) && n < |hist| && d in Snaps(hist[n].fs)
    requires id in c.jobs && c.jobs[id].isMove
    requires !c.power || SameDevice(c, c.jobs[id].src, c.jobs[id].dst)
    ensures c.jobs[id].src in c.before
    ensures c.jobs[id].src in d || exists p :: LandedIn(c, hist[n].fs, d, id, p)
  {
    var s := hist[n];
    var u := RulesOf(c, s.placed);
    RunKeeps(c, hist, n);
    assert Guarded(c, id) && PromiseOf(c, id) in u.promises;
    assert SnapOk(u, s.fs, d);
    assert Holds(PromiseOf(c, id), s.fs, d);
    if c.jobs[id].src !in d {
      var p :| p in d && d[p] in s.fs.data && (p, s.fs.data[d[p]].bytes) in PromiseOf(c, id).landings;
      InReach(c, id, p);
      assert LandedIn(c, s.fs, d, id, p);
    }
  }

  ghost predicate LandedIn(c: Config, fs: Fs, d: Dir, id: nat, p: Path)
    requires id in c.jobs && c.jobs[id].src in c.before
  {
    && MayReach(c.jobs[id], p) && p in d && d[p] in fs.data
    && Good(c, c.jobs[id], fs.data[d[p]].bytes)
  }

  /** Losing power now could leave a moved file nowhere. */
  ghost predicate MayBeLost(c: Config, fs: Fs, id: nat)
    requires id in c.jobs && c.jobs[id].src in c.before
  {
    exists fs' :: LosesPower(c.dev, fs, fs') && Nowhere(c, fs', id)
  }

  ghost predicate Nowhere(c: Config, fs: Fs, id: nat)
    requires id in c.jobs && c.jobs[id].src in c.before
  {
    c.jobs[id].src !in fs.names && forall p :: !LandedIn(c, fs, fs.names, id, p)
  }

  /** Exactly when: of the trees since the last boot, one no longer has the source and
      one does not have a landing yet. The devices may come back each with its own. */
  lemma MoveMayBeLostIff(c: Config, hist: seq<Sys>, n: nat, id: nat)
    requires Disjoint(c) && IsRun(c, hist) && n < |hist| && id in c.jobs && c.jobs[id].src in c.before
    requires c.jobs[id].isMove && !SameDevice(c, c.jobs[id].src, c.jobs[id].dst)
    ensures MayBeLost(c, hist[n].fs, id) <==>
      exists a, b :: a in Snaps(hist[n].fs) && b in Snaps(hist[n].fs)
                     && c.jobs[id].src !in a && forall p :: !LandedIn(c, hist[n].fs, b, id, p)
  {
    var fs, src := hist[n].fs, c.jobs[id].src;
    hide IsRun, Disjoint, LosesPower, Nowhere;
    if fs' :| LosesPower(c.dev, fs, fs') && Nowhere(c, fs', id) {
      var a, b := LostTrees(c, hist, n, id, fs');
    }
    if a, b :| a in Snaps(fs) && b in Snaps(fs) && src !in a && forall p :: !LandedIn(c, fs, b, id, p) {
      var fs' := Mixed(c, fs, id, a, b);
      assert LosesPower(c.dev, fs, fs') && Nowhere(c, fs', id);
    }
  }

  /** The trees that the two devices came back with. */
  lemma LostTrees(c: Config, hist: seq<Sys>, n: nat, id: nat, fs': Fs) returns (a: Dir, b: Dir)
    requires Disjoint(c) && IsRun(c, hist) && n < |hist| && id in c.jobs && c.jobs[id].src in c.before
    requires LosesPower(c.dev, hist[n].fs, fs') && Nowhere(c, fs', id)
    ensures a in Snaps(hist[n].fs) && b in Snaps(hist[n].fs) && c.jobs[id].src !in a
    ensures forall p :: !LandedIn(c, hist[n].fs, b, id, p)
  {
    var s, j := hist[n], c.jobs[id];
    var u := RulesOf(c, s.placed);
    RunKeeps(c, hist, n);
    assert u.dev == c.dev;
    a := TreeOf(u, s.fs, fs', j.src);
    b := TreeOf(u, s.fs, fs', j.dst);
    forall p ensures !LandedIn(c, s.fs, b, id, p) {
      if LandedIn(c, s.fs, b, id, p) {
        ReachLength(j, p);
        assert p in c.reach(id);
        NotATemp(c, id, p);
        assert p in fs'.names && fs'.names[p] == b[p] && s.fs.data[b[p]].synced;
        assert LandedIn(c, fs', fs'.names, id, p);
      }
    }
  }

  /** What comes back when the source's device chooses `a` and the others `b`. */
  lemma Mixed(c: Config, fs: Fs, id: nat, a: Dir, b: Dir) returns (fs': Fs)
    requires id in c.jobs && c.jobs[id].src in c.before && !SameDevice(c, c.jobs[id].src, c.jobs[id].dst)
    requires a in Snaps(fs) && b in Snaps(fs) && c.jobs[id].src !in a && forall p :: !LandedIn(c, fs, b, id, p)
    ensures LosesPower(c.dev, fs, fs') && Nowhere(c, fs', id)
  {
    var v := c.dev(c.jobs[id].src.dir);
    var names' := map p | p in a.Keys + b.Keys && (if c.dev(p.dir) == v then p in a else p in b) ::
                    if c.dev(p.dir) == v then a[p] else b[p];
    fs' := Fs(names', {}, map i | i in fs.data :: Data(fs.data[i].bytes, true));
    forall w ensures FromMedium(c.dev, fs, names', w) { assert Agree(c.dev, names', if w == v then a else b, w); }
    forall p ensures !LandedIn(c, fs', names', id, p) {
      if LandedIn(c, fs', names', id, p) {
        ReachLength(c.jobs[id], p);
        assert LandedIn(c, fs, b, id, p);
      }
    }
  }

  /** Only a power loss forgets the trees that were shown. */
  lemma SnapsGrow(c: Config, s: Sys, e: Event, s': Sys)
    requires Next(c, s, e, s') && !e.PowerLoss?
    ensures Snaps(s.fs) <= Snaps(s'.fs)
  {
    if e.Step? { StepsGrow(c, c.jobs[e.id], PointOf(s, e.id), PointOf(s', e.id)); }
  }

  lemma StepsGrow(c: Config, j: Job, x: Point, y: Point)
    requires Moves(c, j, x, y)
    ensures Snaps(x.fs) <= Snaps(y.fs)
  {
    hide Records, Clears, ResumeOffset, Resolves, Probes, Lands, Fails, Copies, WriteAt;
  }

  ghost predicate SameBoot(c: Config, hist: seq<Sys>, m: nat, n: nat) {
    m <= n < |hist| && forall k | m <= k < n :: StaysUp(c, hist[k], hist[k + 1])
  }

  ghost predicate StaysUp(c: Config, s: Sys, s': Sys) { exists e :: Next(c, s, e, s') && !e.PowerLoss? }

  lemma {:induction false} BootGrows(c: Config, hist: seq<Sys>, m: nat, n: nat)
    requires SameBoot(c, hist, m, n)
    ensures Snaps(hist[m].fs) <= Snaps(hist[n].fs)
    decreases n
  {
    hide Next;
    if m < n {
      BootGrows(c, hist, m, n - 1);
      assert StaysUp(c, hist[n - 1], hist[n - 1 + 1]);
      var e :| Next(c, hist[n - 1], e, hist[n - 1 + 1]) && !e.PowerLoss?;
      SnapsGrow(c, hist[n - 1], e, hist[n]);
    }
  }

  /** So every move between devices is at risk from the removal of its source until the
      next boot, if since the last one there was a moment with nothing at its landings. */
  lemma RemovedSourceIsAtRisk(c: Config, hist: seq<Sys>, m: nat, n: nat, id: nat)
    requires Disjoint(c) && IsRun(c, hist) && SameBoot(c, hist, m, n) && id in c.jobs && c.jobs[id].src in c.before
    requires c.jobs[id].isMove && !SameDevice(c, c.jobs[id].src, c.jobs[id].dst)
    requires c.jobs[id].src !in hist[n].fs.names && forall p | MayReach(c.jobs[id], p) :: p !in hist[m].fs.names
    ensures MayBeLost(c, hist[n].fs, id)
  {
    hide IsRun, Disjoint, MayBeLost, Next;
    BootGrows(c, hist, m, n);
    var a, b := hist[n].fs.names, hist[m].fs.names;
    assert a in Snaps(hist[n].fs) && b in Snaps(hist[n].fs);
    assert forall p :: !LandedIn(c, hist[n].fs, b, id, p);
    MoveMayBeLostIff(c, hist, n, id);
  }

  /** And while it is there, the source is untouched, whoever else is at work. */
  lemma SourceIsUntouched(c: Config, hist: seq<Sys>, n: nat, id: nat, d: Dir)
    requires Disjoint(c) && IsRun(c, hist) && n < |hist| && d in Snaps(hist[n].fs)
    requires id in c.jobs && c.jobs[id].src in d
    ensures c.jobs[id].src in c.before && d[c.jobs[id].src] in hist[n].fs.data
    ensures hist[n].fs.data[d[c.jobs[id].src]] == Data(c.before[c.jobs[id].src], true)
  {
    var s := hist[n];
    var u := RulesOf(c, s.placed);
    var src := c.jobs[id].src;
    RunKeeps(c, hist, n);
    NotATemp(c, id, src);
    assert SnapOk(u, s.fs, d);
    assert IsSource(c, src);
    assert forall k, b :: !LandedBy(c, k, src, b);
    assert (src, s.fs.data[d[src]].bytes) in u.allowed;
    assert Allowed(c, s.placed, src, s.fs.data[d[src]].bytes);
  }

  /** The source goes in two places only: the one rename of a same-device move, and
      after a copy that has landed. */
  lemma SourceGoesLast(c: Config, hist: seq<Sys>, n: nat, id: nat)
    requires Disjoint(c) && IsRun(c, hist) && n + 1 < |hist| && id in c.jobs && id in hist[n].runs
    requires Next(c, hist[n], Step(id), hist[n + 1])
    requires c.jobs[id].src in hist[n].fs.names && c.jobs[id].src !in hist[n + 1].fs.names
    ensures c.jobs[id].isMove && c.jobs[id].src in c.before
    ensures var r := hist[n].runs[id];
            r.at == MoveRename
            || (r.at == MoveRemove && LandedIn(c, hist[n].fs, hist[n].fs.names, id, r.dst))
  {
    var s, s' := hist[n], hist[n + 1];
    var x, y := PointOf(s, id), PointOf(s', id);
    hide Disjoint, IsRun, Moves, RunOk;
    Known(c, hist, n, id);
    OnlyTwoRemove(c, id, x, y);
    if x.r.at == MoveRemove { InReach(c, id, x.r.dst); }
  }

  lemma OnlyTwoRemove(c: Config, id: nat, x: Point, y: Point)
    requires Disjoint(c) && id in c.jobs && c.jobs[id].src in c.before && RunOk(c, id, x)
    requires Moves(c, c.jobs[id], x, y)
    requires c.jobs[id].src in x.fs.names && c.jobs[id].src !in y.fs.names
    ensures c.jobs[id].isMove && (x.r.at == MoveRename || x.r.at == MoveRemove)
    ensures x.r.at == MoveRemove ==>
      x.r.dst in c.reach(id) && Present(x.fs, x.r.dst) && Good(c, c.jobs[id], Read(x.fs, x.r.dst).bytes)
  {
    if x.r.dst in c.reach(id) { OwnNames(c, id, c.jobs[id].src, x.r.dst); }
    RemoverIsKnown(c, id, x);
    InReachWhileAiming(c, id, x);
    hide Disjoint, RunOk, Good, Moves;
    if !x.r.at.MoveRename? && !x.r.at.MoveRemove? { SourceStays(c, id, x, y); }
  }

  lemma RemoverIsKnown(c: Config, id: nat, x: Point)
    requires id in c.jobs && c.jobs[id].src in c.before && RunOk(c, id, x)
    ensures x.r.at.MoveRename? || x.r.at.MoveRemove? ==> c.jobs[id].isMove
    ensures x.r.at.MoveRemove? ==>
      x.r.dst in c.reach(id) && Present(x.fs, x.r.dst) && Good(c, c.jobs[id], Read(x.fs, x.r.dst).bytes)
    ensures x.r.at.Sweep? ==> x.r.dst in c.reach(id)
  {
    hide Claim, Good, Whole, Taken, Asked, Covered, Streamed, Owns;
  }

  /** Every other call touches the temp name and the destination alone. */
  lemma SourceStays(c: Config, id: nat, x: Point, y: Point)
    requires id in c.jobs && Moves(c, c.jobs[id], x, y) && c.jobs[id].src in x.fs.names
    requires Aiming(x.r.at) || x.r.at.Sweep? ==> c.jobs[id].src != TempPathFor(x.r.dst)
    requires !x.r.at.MoveRename? && !x.r.at.MoveRemove?
    ensures c.jobs[id].src in y.fs.names
  {
    hide TempPathFor, Candidate, ResumeOffset, Records, Clears, WriteAt, Copies, Resolves, Probes;
  }

  /******* Errors after the landing *******/

  /** One attempt: from its first step the Job has neither finished nor been restarted. */
  ghost predicate Attempt(hist: seq<Sys>, m: nat, n: nat, id: nat) {
    && m <= n < |hist| && (forall k | m <= k <= n :: id in hist[k].runs) && hist[m].runs[id].at.Idle?
    && forall k | m < k <= n :: !hist[k].runs[id].at.Idle? && !hist[k].runs[id].at.Finished?
  }

  /** The commit rename of Job `id` succeeds in the step after the `k`-th moment. */
  ghost predicate CommitsAt(c: Config, hist: seq<Sys>, k: nat, id: nat) {
    && k + 1 < |hist| && id in hist[k].runs && id in hist[k + 1].runs && Next(c, hist[k], Step(id), hist[k + 1])
    && hist[k].runs[id].at.Commit? && hist[k + 1].runs[id].at.Clear?
  }

  predicate AfterCommit(at: At) { at.Clear? || at.MoveRemove? }

  /** An error comes back although the file has landed if and only if the call that
      failed is the journal's clearing or the removal of a move's source. */
  lemma ErrorAfterLandingIff(c: Config, hist: seq<Sys>, m: nat, n: nat, id: nat)
    requires Disjoint(c) && IsRun(c, hist) && n + 1 < |hist| && id in c.jobs && Attempt(hist, m, n, id)
    requires id in hist[n + 1].runs && Next(c, hist[n], Step(id), hist[n + 1])
    requires hist[n + 1].runs[id].at.Finished? && hist[n + 1].runs[id].at.result.Err?
    ensures (exists k :: m <= k < n && CommitsAt(c, hist, k, id)) <==> AfterCommit(hist[n].runs[id].at)
    ensures AfterCommit(hist[n].runs[id].at) ==>
      c.jobs[id].src in c.before && LandedIn(c, hist[n + 1].fs, hist[n + 1].fs.names, id, hist[n].runs[id].dst)
  {
    hide Disjoint, IsRun, Moves, Candidate;
    AfterCommitIff(c, hist, m, n, id);
    Known(c, hist, n, id);
    if AfterCommit(hist[n].runs[id].at) {
      FailsInPlace(c, id, PointOf(hist[n], id), PointOf(hist[n + 1], id));
      InReach(c, id, hist[n].runs[id].dst);
    }
  }

  lemma FailsInPlace(c: Config, id: nat, x: Point, y: Point)
    requires id in c.jobs && Moves(c, c.jobs[id], x, y) && AfterCommit(x.r.at) && y.r.at.Finished? && y.r.at.result.Err?
    ensures y.fs == x.fs
  {
  }

  /** And both calls may fail: wherever a run has brought a Job past its commit there
      is a step to such an error. */
  lemma MayFailLate(c: Config, hist: seq<Sys>, n: nat, id: nat) returns (s': Sys)
    requires IsRun(c, hist) && n < |hist| && id in c.jobs && id in hist[n].runs && AfterCommit(hist[n].runs[id].at)
    ensures Next(c, hist[n], Step(id), s') && s' == hist[n].(runs := s'.runs)
    ensures s'.runs == hist[n].runs[id := hist[n].runs[id].(at := Finished(Err(IoError), false))]
  {
    forall k | k in hist[n].runs && k != id && c.request(k) == c.request(id) ensures hist[n].runs[k].at.Idle? {
      OneAtATime(c, hist, n, id, k);
    }
    hide IsRun;
    s' := FailedAfter(c, hist[n], id);
  }

  lemma FailedAfter(c: Config, s: Sys, id: nat) returns (s': Sys)
    requires id in c.jobs && id in s.runs && AfterCommit(s.runs[id].at) && HasTurn(c, s.runs, id)
    ensures Next(c, s, Step(id), s') && s' == s.(runs := s'.runs)
    ensures s'.runs == s.runs[id := s.runs[id].(at := Finished(Err(IoError), false))]
  {
    var r := s.runs[id].(at := Finished(Err(IoError), false));
    s' := s.(runs := s.runs[id := r]);
    assert Fails(s.runs[id], IoError, r);
    if s.runs[id].at.Clear? {
      assert Clears(s.jn, s.runs[id].dst, false, s.jn);
    } else {
      assert Unlinks(s.fs, c.jobs[id].src, false, s.fs);
    }
    assert Moves(c, c.jobs[id], PointOf(s, id), PointOf(s', id));
  }

  lemma {:induction false} AfterCommitIff(c: Config, hist: seq<Sys>, m: nat, n: nat, id: nat)
    requires Disjoint(c) && IsRun(c, hist) && id in c.jobs && Attempt(hist, m, n, id)
    ensures (exists k :: m <= k < n && CommitsAt(c, hist, k, id)) <==> AfterCommit(hist[n].runs[id].at)
    decreases n
  {
    hide Disjoint, Moves, Init, CommitsAt;
    if m < n {
      AfterCommitIff(c, hist, m, n - 1, id);
      assert Steps(c, hist[n - 1], hist[n - 1 + 1]);
      hide IsRun, Steps;
      LastStep(c, hist, n - 1, id);
    }
  }

  /** One step of an attempt comes to stand after the commit by committing or by
      having stood there. */
  lemma LastStep(c: Config, hist: seq<Sys>, k: nat, id: nat)
    requires Disjoint(c) && IsRun(c, hist) && id in c.jobs && k + 1 < |hist| && Steps(c, hist[k], hist[k + 1])
    requires id in hist[k].runs && id in hist[k + 1].runs
    requires !hist[k + 1].runs[id].at.Idle? && !hist[k + 1].runs[id].at.Finished?
    ensures AfterCommit(hist[k + 1].runs[id].at) <==>
      AfterCommit(hist[k].runs[id].at) || CommitsAt(c, hist, k, id)
  {
    hide Disjoint, Moves, IsRun, CommitsAt;
    var s, s' := hist[k], hist[k + 1];
    var e :| Next(c, s, e, s');
    RunLands(c, hist, k);
    assert LandingOk(c, id, PointOf(s, id));
    hide LandingInv;
    CommitsMeans(c, hist, k, id);
    if e == Step(id) {
      CommitTransition(c, id, PointOf(s, id), PointOf(s', id));
    } else {
      OthersLeave(c, s, e, s', id);
    }
    hide Next;
  }

  lemma CommitsMeans(c: Config, hist: seq<Sys>, k: nat, id: nat)
    requires k + 1 < |hist| && id in hist[k].runs && id in hist[k + 1].runs
    ensures CommitsAt(c, hist, k, id) <==>
      Next(c, hist[k], Step(id), hist[k + 1]) && hist[k].runs[id].at.Commit? && hist[k + 1].runs[id].at.Clear?
  {
    hide Next;
  }

  lemma OthersLeave(c: Config, s: Sys, e: Event, s': Sys, id: nat)
    requires Next(c, s, e, s') && e != Step(id) && id in s.runs && id in s'.runs
    ensures s'.runs[id] == s.runs[id] || s'.runs[id].at.Idle?
  {
    hide Moves;
  }

  lemma CommitTransition(c: Config, id: nat, x: Point, y: Point)
    requires id in c.jobs && Moves(c, c.jobs[id], x, y) && LandingOk(c, id, x)
    ensures AfterCommit(x.r.at) ==> AfterCommit(y.r.at) || y.r.at.Finished?
    ensures AfterCommit(y.r.at) && !AfterCommit(x.r.at) ==> x.r.at.Commit? && y.r.at.Clear?
    ensures x.r.at.Commit? && y.r.at.Clear? ==> AfterCommit(y.r.at)
  {
    assert x.r.at.CloneCommit? ==> !c.jobs[id].isMove;
    hide Moves, LandingOk;
    if AfterCommit(x.r.at) { FromAfterCommit(c, id, x, y); } else { ToAfterCommit(c, id, x, y); }
  }

  lemma FromAfterCommit(c: Config, id: nat, x: Point, y: Point)
    requires id in c.jobs && Moves(c, c.jobs[id], x, y) && AfterCommit(x.r.at)
    ensures AfterCommit(y.r.at) || y.r.at.Finished?
  {
    hide Unlinks, Clears;
  }

  lemma ToAfterCommit(c: Config, id: nat, x: Point, y: Point)
    requires id in c.jobs && Moves(c, c.jobs[id], x, y) && !AfterCommit(x.r.at)
    requires x.r.at.CloneCommit? ==> !c.jobs[id].isMove
    ensures AfterCommit(y.r.at) ==> x.r.at.Commit? && y.r.at.Clear?
  {
    hide Candidate, ResumeOffset, Records, OpensTruncated, Unlinks, Renames, Clears, Clones, Syncs;
    hide MaySay, Copies, Writes, Present, Read, SameDevice, TempPathFor;
  }

  /** Nothing is ever recorded as done, so every stream starts by emptying the temp
      file: no run builds on what a stale one holds. */
  lemma NothingIsResumed(c: Config, hist: seq<Sys>, n: nat, dst: Path, expected: nat, checksum: bool)
    requires Disjoint(c) && IsRun(c, hist) && n < |hist|
    ensures forall b: Book, p: Path | b in hist[n].jn.past + {hist[n].jn.book} && p in b :: b[p].done == 0
    ensures ResumeOffset(hist[n].fs, hist[n].jn, dst, expected, checksum) == 0
  {
    RunKeeps(c, hist, n);
    hide FsOk, RulesOf, RunOk;
    forall b: Book, p: Path | b in hist[n].jn.past + {hist[n].jn.book} && p in b
      ensures b[p].done == 0 { assert BookOk(b); }
    ResumesAtZero(hist[n].fs, hist[n].jn, dst, expected, checksum);
  }

  /** While a Job streams, the temp file is exactly the part of the source it has copied. */
  lemma StreamIsPrefix(c: Config, hist: seq<Sys>, n: nat, id: nat)
    requires Disjoint(c) && IsRun(c, hist) && n < |hist| && id in c.jobs && id in hist[n].runs
    requires hist[n].runs[id].at.Chunk? && c.faithful
    ensures var r := hist[n].runs[id];
            && Present(hist[n].fs, TempPathFor(r.dst)) && c.jobs[id].src in c.before
            && Read(hist[n].fs, TempPathFor(r.dst)).bytes <= c.before[c.jobs[id].src]
            && |Read(hist[n].fs, TempPathFor(r.dst)).bytes| == r.total
  {
    hide Disjoint, IsRun;
    Known(c, hist, n, id);
  }

  /** Is the Job between its first temp byte and its commit rename or cleanup? */
  predicate InFlight(at: At) {
    at.Open? || at.Chunk? || at.Sync? || at.Measure? || at.Hash? || at.Commit? || at.Sweep? || at.SweepBook?
  }

  /** Journal coverage: from before the first temp byte to the commit rename or the
      cleanup, the journal names the temp, its destination and its size; after a
      success there is no temp file, and after a streamed one, a move's included, no
      entry; a failure that swept left neither. */
  lemma JournalCovers(c: Config, hist: seq<Sys>, n: nat, id: nat)
    requires Disjoint(c) && IsRun(c, hist) && n < |hist| && id in c.jobs && id in hist[n].runs
    ensures c.jobs[id].src in c.before
    ensures var j, fs, r, book := c.jobs[id], hist[n].fs, hist[n].runs[id], hist[n].jn.book;
            && (InFlight(r.at) ==>
                  r.dst in book && book[r.dst] == Entry(j.src, r.dst, TempPathFor(r.dst), |c.before[j.src]|, 0,
                                                        j.checksum))
            && (forall t, b, w, at :: r.at == Finished(Ok(Copied(t, b, w, at)), false) ==>
                  TempPathFor(at) !in fs.names && (t != SharedExtents ==> at !in book))
            && (forall at :: r.at == Finished(Ok(Moved(at)), false) && !SameDevice(c, j.src, at) ==>
                  TempPathFor(at) !in fs.names && at !in book)
            && (forall e :: r.at == Finished(Err(e), true) ==>
                  TempPathFor(r.dst) !in fs.names && r.dst !in book)
  {
    hide Disjoint, IsRun, Claim, Good, LandsLeast;
    Known(c, hist, n, id);
    RunLands(c, hist, n);
    assert LandingOk(c, id, PointOf(hist[n], id));
  }

  /** Skip and Keep both, left to themselves, change nothing that was there. */
  lemma PreExistingIsUnchanged(c: Config, hist: seq<Sys>, n: nat, d: Dir, p: Path)
    requires Disjoint(c) && IsRun(c, hist) && n < |hist| && d in Snaps(hist[n].fs)
    requires c.calm && p in c.before && !IsTemp(c, p) && !IsMoveSource(c, p)
    requires forall id | id in c.jobs && c.jobs[id].policy == Replace :: !MayReach(c.jobs[id], p)
    ensures p in d && d[p] in hist[n].fs.data && hist[n].fs.data[d[p]] == Data(c.before[p], true)
  {
    var s := hist[n];
    var u := RulesOf(c, s.placed);
    NothingDisappears(c, hist, n, d, p);
    RunKeeps(c, hist, n);
    assert SnapOk(u, s.fs, d);
    var b := s.fs.data[d[p]].bytes;
    assert (p, b) in u.allowed;
    assert Allowed(c, s.placed, p, b);
    assert PlacedOk(c, s.placed);
    hide FsOk, RulesOf, Inv, IsTemp;
    forall id ensures !LandedBy(c, id, p, b) {
      if LandedBy(c, id, p, b) { InReach(c, id, p); }
    }
  }

  /** Keep both takes the least free `stem-n.ext` with n at least 2, in the search of a
      move and in that of a copy. */
  lemma SearchTakesTheLeast(c: Config, hist: seq<Sys>, n: nat, id: nat)
    requires Disjoint(c) && IsRun(c, hist) && n + 1 < |hist| && id in c.jobs
    requires id in hist[n].runs && id in hist[n + 1].runs && Next(c, hist[n], Step(id), hist[n + 1])
    requires (hist[n].runs[id].at.Probe? && hist[n + 1].runs[id].at.SameFs?)
          || (hist[n].runs[id].at.MoveProbe? && hist[n + 1].runs[id].at.MoveSameFs?)
    ensures var base, k := hist[n].runs[id].dst, hist[n].runs[id].at.k;
            && 2 <= k < CANDIDATE_LIMIT && hist[n + 1].runs[id].dst == Candidate(base, k)
            && (c.calm ==> Candidate(base, k) !in hist[n].fs.names)
            && base in hist[n].fs.names && forall i | 2 <= i < k :: Candidate(base, i) in hist[n].fs.names
  {
    hide Disjoint, IsRun, Candidate;
    Known(c, hist, n, id);
    RunLands(c, hist, n);
    assert LandingOk(c, id, PointOf(hist[n], id));
  }

  /** And that is where the file is in the end: under the name asked for, or, keeping
      both, under the first that was not in use beside an occupied one. */
  lemma LandsAtTheLeast(c: Config, hist: seq<Sys>, n: nat, id: nat)
    requires Disjoint(c) && IsRun(c, hist) && n < |hist| && id in c.jobs && id in hist[n].runs
    requires hist[n].runs[id].at.Finished? && hist[n].runs[id].at.result.Ok?
    requires !hist[n].runs[id].at.result.outcome.SkippedExisting?
    ensures var j, fs, at := c.jobs[id], hist[n].fs, hist[n].runs[id].at.result.outcome.committedAs;
            && at in fs.names && LandsLeast(fs, j, at)
            && (j.policy != KeepBoth ==> at == j.dst)
            && (j.policy == KeepBoth && c.calm ==> at !in c.before)
  {
    hide Disjoint, IsRun, Candidate, Claim, Good, Beaten;
    Known(c, hist, n, id);
    RunLands(c, hist, n);
    assert LandingOk(c, id, PointOf(hist[n], id));
  }

  /** The source of a Job, which lands under its source's name, is not the temp file
      of any name the Job might land on. */
  lemma SourceIsNoTemp(j: Job, p: Path)
    requires j.dst.name == j.src.name && MayReach(j, p)
    ensures j.src != TempPathFor(p)
  {
    ReachLength(j, p);
  }

  /******* Resuming, had it been recorded *******/

  /** What a loop of reads and writes leaves in the temp file. */
  function Fill(temp: Bytes, at: nat, chunks: seq<Bytes>): Bytes
    requires at <= |temp|
    decreases |chunks|
  {
    if chunks == [] then temp else Fill(WriteAt(temp, at, chunks[0]), at + |chunks[0]|, chunks[1..])
  }

  function Joined(chunks: seq<Bytes>): Bytes {
    if chunks == [] then [] else chunks[0] + Joined(chunks[1..])
  }

  /** However the reads are cut up, streaming from `at` completes the source's
      prefix to the whole source. */
  lemma {:induction false} FillCompletes(s: Bytes, at: nat, chunks: seq<Bytes>)
    requires at <= |s| && Joined(chunks) == s[at..]
    decreases |chunks|
    ensures Fill(s[..at], at, chunks) == s
  {
    if chunks == [] {
      assert s[..at] == s;
    } else {
      var w := chunks[0];
      assert w == Joined(chunks)[..|w|] == s[at..at + |w|];
      assert Joined(chunks[1..]) == Joined(chunks)[|w|..] == s[at + |w|..];
      assert WriteAt(s[..at], at, w) == s[..at + |w|];
      FillCompletes(s, at + |w|, chunks[1..]);
    }
  }

  /** So resuming from a true prefix and starting over give the same file. */
  lemma ResumeEqualsRestart(s: Bytes, k: nat, rest: seq<Bytes>, all: seq<Bytes>)
    requires k <= |s| && Joined(rest) == s[k..] && Joined(all) == s
    ensures Fill(s[..k], k, rest) == Fill([], 0, all) == s
  {
    FillCompletes(s, k, rest);
    assert s[0..] == s && s[..0] == [];
    FillCompletes(s, 0, all);
  }
}
