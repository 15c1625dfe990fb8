/** What every step of the engine, and every crash, keeps. */
module CommitInvariant {
  import opened Paths
  import opened Disk
  import opened CommitMachine

  /******* The invariant *******/

  ghost function Whole(c: Config, j: Job): Bytes
    requires j.src in c.before
  {
    c.before[j.src]
  }

  /** What a finished copy is worth under each tier. */
  ghost predicate Claim(c: Config, j: Job, tier: Tier, b: Bytes)
    requires j.src in c.before
  {
    && (tier == SizeChecked ==> !j.checksum)
    && if c.faithful || tier != SizeChecked then b == Whole(c, j) else |b| == |Whole(c, j)|
  }

  /** What a Job may leave at a destination, whatever the tier. */
  ghost predicate Good(c: Config, j: Job, b: Bytes)
    requires j.src in c.before
  {
    if c.faithful || j.checksum then b == Whole(c, j) else |b| == |Whole(c, j)|
  }

  ghost predicate LandedBy(c: Config, id: nat, p: Path, b: Bytes)
  {
    id in c.jobs && c.jobs[id].src in c.before && MayLand(c, id, p) && Good(c, c.jobs[id], b)
  }

  /** A file somebody else placed whole, or the whole source of a Job. */
  ghost predicate Allowed(c: Config, placed: set<(Path, Bytes)>, p: Path, b: Bytes) {
    (p, b) in placed || exists id :: LandedBy(c, id, p, b)
  }

  ghost predicate Guarded(c: Config, id: nat) {
    id in c.jobs && c.jobs[id].isMove && (!c.power || SameDevice(c, c.jobs[id].src, c.jobs[id].dst))
  }

  ghost function PromiseOf(c: Config, id: nat): Promise
    requires id in c.jobs
  {
    Promise(c.jobs[id].src, iset x: (Path, Bytes) | LandedBy(c, id, x.0, x.1))
  }

  /** The discipline of this set of Jobs. */
  ghost function RulesOf(c: Config, placed: set<(Path, Bytes)>): Rules {
    Rules(c.dev,
          iset t | IsTemp(c, t),
          iset x: (Path, Bytes) | Allowed(c, placed, x.0, x.1),
          iset p | p in c.before && !IsTemp(c, p) && !IsMoveSource(c, p),
          iset id | Guarded(c, id) :: PromiseOf(c, id))
  }

  ghost predicate BookOk(b: Book) {
    forall dst | dst in b :: b[dst].done == 0 && b[dst].destination == dst && b[dst].temp == TempPathFor(dst)
  }

  ghost predicate JournalOk(jn: Journal) {
    forall b | b in jn.past + {jn.book} :: BookOk(b)
  }

  ghost predicate PlacedOk(c: Config, placed: set<(Path, Bytes)>) {
    forall x | x in placed && (c.calm || IsSource(c, x.0)) :: x.0 in c.before && x.1 == c.before[x.0]
  }

  ghost predicate Covered(j: Job, jn: Journal, r: Run) {
    r.dst in jn.book && jn.book[r.dst] == Entry(j.src, r.dst, TempPathFor(r.dst), r.expected, 0, j.checksum)
  }

  /** The handle is the inode behind the temp name. */
  ghost predicate Owns(fs: Fs, r: Run) {
    Present(fs, TempPathFor(r.dst)) && fs.names[TempPathFor(r.dst)] == r.h
  }

  ghost predicate Set(c: Config, id: nat, r: Run)
    requires id in c.jobs && c.jobs[id].src in c.before
  {
    var j := c.jobs[id];
    MayLand(c, id, r.dst) && r.expected == |Whole(c, j)| && (r.replaced ==> j.policy == Replace)
  }

  ghost predicate Streamed(c: Config, j: Job, fs: Fs, r: Run)
    requires j.src in c.before
  {
    && Owns(fs, r)
    && r.total == |fs.data[r.h].bytes| <= |Whole(c, j)|
    && (c.faithful ==> fs.data[r.h].bytes == Whole(c, j)[..r.total])
  }

  ghost predicate Landed(c: Config, j: Job, fs: Fs, r: Run, tier: Tier)
    requires j.src in c.before
  {
    Present(fs, r.dst) && Claim(c, j, tier, Read(fs, r.dst).bytes)
  }

  /** Every name beside `dst` before the `k`-th is in use. */
  ghost predicate Taken(fs: Fs, dst: Path, k: nat) {
    forall i | 2 <= i < k :: Candidate(dst, i) in fs.names
  }

  /** What is known at each point of the engine. */
  ghost predicate RunOk(c: Config, id: nat, x: Point)
    requires id in c.jobs && c.jobs[id].src in c.before
  {
    var Point(fs, jn, r) := x;
    var j := c.jobs[id];
    match r.at
    case Idle => true
    case MoveExists => j.isMove && r.dst == j.dst
    case MoveProbe(k) => j.isMove && j.policy == KeepBoth && r.dst == j.dst && 2 <= k <= CANDIDATE_LIMIT
      && Taken(fs, r.dst, k)
    case MoveSameFs => j.isMove && Asked(j, r.dst) && MayLand(c, id, r.dst)
    case MoveRename => j.isMove && Asked(j, r.dst) && MayLand(c, id, r.dst) && SameDevice(c, j.src, r.dst)
    case Stat => Asked(j, r.dst)
    case Exists => Asked(j, r.dst) && r.expected == |Whole(c, j)|
    case Probe(k) => Asked(j, r.dst) && r.expected == |Whole(c, j)| && j.policy == KeepBoth
      && 2 <= k <= CANDIDATE_LIMIT && !r.replaced && Taken(fs, r.dst, k)
    case SameFs => Set(c, id, r)
    case CloneOpen => Set(c, id, r)
    case CloneIoctl => Set(c, id, r) && Owns(fs, r)
    case CloneSync => Set(c, id, r) && Owns(fs, r) && fs.data[r.h].bytes == Whole(c, j)
    case CloneCommit => Set(c, id, r) && Owns(fs, r) && fs.data[r.h] == Data(Whole(c, j), true)
    case CloneUndo => Set(c, id, r)
    case CloneDrop => Set(c, id, r)
    case Record => Set(c, id, r)
    case Open(from) => Set(c, id, r) && from == 0 && Covered(j, jn, r)
    case Chunk => Set(c, id, r) && Covered(j, jn, r) && Streamed(c, j, fs, r)
    case Sync => Set(c, id, r) && Covered(j, jn, r) && Streamed(c, j, fs, r)
    case Measure => Set(c, id, r) && Covered(j, jn, r) && Streamed(c, j, fs, r) && fs.data[r.h].synced
    case Hash(_) =>
      && Set(c, id, r) && Covered(j, jn, r) && Streamed(c, j, fs, r)
      && fs.data[r.h].synced && r.total == r.expected && j.checksum
    case Commit(tier) =>
      && Set(c, id, r) && Covered(j, jn, r) && Owns(fs, r)
      && fs.data[r.h].synced && Claim(c, j, tier, fs.data[r.h].bytes)
    case Clear(tier) => Set(c, id, r) && Landed(c, j, fs, r, tier)
    case Sweep(_) => Set(c, id, r) && Covered(j, jn, r)
    case SweepBook(_, gone) =>
      Set(c, id, r) && Covered(j, jn, r) && (gone ==> TempPathFor(r.dst) !in fs.names)
    case MoveRemove =>
      j.isMove && Set(c, id, r) && Present(fs, r.dst) && Good(c, j, Read(fs, r.dst).bytes)
    case Finished(Ok(Moved(at)), _) =>
      j.isMove && at == r.dst && MayLand(c, id, at) && Present(fs, at) && Good(c, j, Read(fs, at).bytes)
    case Finished(Ok(Copied(tier, n, replaced, at)), _) =>
      && !j.isMove && at == r.dst && Set(c, id, r) && Landed(c, j, fs, r, tier)
      && n == r.expected && replaced == r.replaced && (tier != SharedExtents ==> at !in jn.book)
    case Finished(Ok(SkippedExisting), _) => j.policy == Skip
    case Finished(Err(_), swept) =>
      swept ==> MayLand(c, id, r.dst) && TempPathFor(r.dst) !in fs.names && r.dst !in jn.book
  }

  /** On the way to a landing that is to replace nothing. */
  predicate Aiming(at: At) {
    || at.MoveSameFs? || at.MoveRename? || at.SameFs?
    || at.CloneOpen? || at.CloneIoctl? || at.CloneSync? || at.CloneUndo? || at.CloneCommit? || at.CloneDrop?
    || at.Record? || at.Open? || at.Chunk? || at.Sync? || at.Measure? || at.Hash? || at.Commit?
  }

  /** The name a Job has found free in a calm machine is free until it lands there. */
  ghost predicate Untaken(c: Config, id: nat, x: Point)
    requires id in c.jobs
  {
    Aiming(x.r.at) && c.calm && c.jobs[id].policy != Replace ==> x.r.dst !in x.fs.names
  }

  ghost predicate Inv(c: Config, s: Sys) {
    && FsOk(RulesOf(c, s.placed), s.fs) && JournalOk(s.jn) && PlacedOk(c, s.placed)
    && s.runs.Keys == c.jobs.Keys
    && (forall id | id in c.jobs ::
          c.jobs[id].src in c.before && RunOk(c, id, PointOf(s, id)) && Untaken(c, id, PointOf(s, id)))
  }

  /******* Names do not collide *******/

  lemma ReachLength(j: Job, p: Path)
    requires MayReach(j, p)
    ensures p.dir == j.dst.dir && |j.dst.name| <= |p.name| <= |j.dst.name| + 10
  {
    if Asked(j, p) {
      AskedLength(j, p);
    } else {
      var q :| Asked(j, q) && Beside(q, p);
      AskedLength(j, q);
      var n :| 2 <= n < CANDIDATE_LIMIT && p == Candidate(q, n);
      CandidateIsLonger(q, n);
    }
  }

  lemma AskedLength(j: Job, p: Path)
    requires Asked(j, p)
    ensures p.dir == j.dst.dir && |j.dst.name| <= |p.name| <= |j.dst.name| + 5
  {
    if p != j.dst {
      var n :| 2 <= n < CANDIDATE_LIMIT && p == Candidate(j.dst, n);
      CandidateIsLonger(j.dst, n);
    }
  }

  /** Neither a possible landing nor a source is ever anybody's temp name. */
  lemma NotATemp(c: Config, id: nat, p: Path)
    requires Disjoint(c) && id in c.jobs && (p in c.reach(id) || p == c.jobs[id].src)
    ensures !IsTemp(c, p)
  {
    if IsTemp(c, p) {
      var k, q :| k in c.jobs && q in c.reach(k) && p == TempPathFor(q);
      if k == id {
        OwnNames(c, id, p, q);
      }
    }
  }

  lemma OwnNames(c: Config, id: nat, p: Path, q: Path)
    requires Disjoint(c) && id in c.jobs && (p in c.reach(id) || p == c.jobs[id].src) && q in c.reach(id)
    ensures p != TempPathFor(q)
  {
    assert MayReach(c.jobs[id], q);
    ReachLength(c.jobs[id], q);
    if p in c.reach(id) {
      assert MayReach(c.jobs[id], p);
      ReachLength(c.jobs[id], p);
    }
  }

  lemma TempOf(c: Config, placed: set<(Path, Bytes)>, id: nat, p: Path)
    requires Disjoint(c) && id in c.jobs && p in c.reach(id)
    ensures var u := RulesOf(c, placed);
            Sound(u) && u.dev == c.dev && TempPathFor(p) in u.temps && p !in u.temps && TempPathFor(p) != p
  {
    RulesAreSound(c, placed);
    NotATemp(c, id, p);
    assert IsTemp(c, TempPathFor(p));
  }

  lemma RulesAreSound(c: Config, placed: set<(Path, Bytes)>)
    requires Disjoint(c)
    ensures Sound(RulesOf(c, placed))
  {
    var u := RulesOf(c, placed);
    forall m | m in u.promises ensures m.src !in u.temps && forall x | x in m.landings :: x.0 !in u.temps {
      var id :| Guarded(c, id) && m == PromiseOf(c, id);
      NotATemp(c, id, m.src);
      forall x | x in m.landings ensures x.0 !in u.temps { NotATemp(c, id, x.0); }
    }
  }

  /** Only the Job itself has a promise about its landings and its source. */
  lemma OwnPromise(c: Config, placed: set<(Path, Bytes)>, id: nat, p: Path, b: Bytes, m: Promise)
    requires Disjoint(c) && id in c.jobs && m in RulesOf(c, placed).promises
    ensures p in c.reach(id) && (p, b) in m.landings && !(c.calm && c.jobs[id].policy != Replace) ==>
      Guarded(c, id) && m == PromiseOf(c, id)
    ensures c.jobs[id].isMove && m.src == c.jobs[id].src ==> Guarded(c, id) && m == PromiseOf(c, id)
    ensures c.jobs[id].isMove ==> forall x | x in m.landings :: x.0 != c.jobs[id].src
  {
    var k :| Guarded(c, k) && m == PromiseOf(c, k);
    if p in c.reach(id) && (p, b) in m.landings && !(c.calm && c.jobs[id].policy != Replace) {
      OneFootprint(c, id, k, p);
    }
    if c.jobs[id].isMove {
      OneMover(c, k, id);
      forall x | x in m.landings ensures x.0 != c.jobs[id].src { NoLandingOnSource(c, k, id, x.0); }
    }
    hide Disjoint;
  }

  lemma OneFootprint(c: Config, i: nat, k: nat, p: Path)
    requires Disjoint(c) && i in c.jobs && k in c.jobs && p in c.reach(i) && p in c.reach(k)
    requires !(c.calm && c.jobs[i].policy != Replace)
    ensures i == k
  {
  }

  lemma OneMover(c: Config, i: nat, k: nat)
    requires Disjoint(c) && i in c.jobs && k in c.jobs && c.jobs[k].isMove
    ensures c.jobs[i].src == c.jobs[k].src ==> i == k
  {
  }

  lemma NoLandingOnSource(c: Config, i: nat, k: nat, p: Path)
    requires Disjoint(c) && k in c.jobs && c.jobs[k].isMove && p in c.reach(i)
    ensures p != c.jobs[k].src
  {
  }

  /** A source, while it is there, holds what it held at the start. */
  lemma SourceIsStable(c: Config, fs: Fs, placed: set<(Path, Bytes)>, id: nat)
    requires Disjoint(c) && FsOk(RulesOf(c, placed), fs) && PlacedOk(c, placed)
    requires id in c.jobs && c.jobs[id].src in fs.names
    ensures Present(fs, c.jobs[id].src)
    ensures Read(fs, c.jobs[id].src) == Data(Whole(c, c.jobs[id]), true)
  {
    var src := c.jobs[id].src;
    var u := RulesOf(c, placed);
    NotATemp(c, id, src);
    Current(u, fs);
    assert IsSource(c, src);
    assert forall k, b :: !LandedBy(c, k, src, b);
    var b := fs.data[fs.names[src]].bytes;
    assert (src, b) in u.allowed;
    assert Allowed(c, placed, src, b);
  }

  lemma StaysThere(c: Config, fs: Fs, placed: set<(Path, Bytes)>, p: Path)
    requires FsOk(RulesOf(c, placed), fs)
    requires p in c.before && !IsTemp(c, p) && !IsMoveSource(c, p)
    ensures p in fs.names
  {
    assert p in RulesOf(c, placed).kept;
    Current(RulesOf(c, placed), fs);
  }

  lemma ReachIsPlain(c: Config, id: nat, p: Path)
    requires Disjoint(c) && id in c.jobs && p in c.reach(id)
    ensures !IsMoveSource(c, p) && !IsTemp(c, p)
  {
    NotATemp(c, id, p);
  }

  /** A name that a truthful check finds free was not there at the start. */
  lemma FreeIsNew(c: Config, fs: Fs, placed: set<(Path, Bytes)>, id: nat, p: Path)
    requires Disjoint(c) && FsOk(RulesOf(c, placed), fs)
    requires id in c.jobs && p in c.reach(id) && MaySay(c, fs, p, false)
    ensures MayLand(c, id, p)
  {
    ReachIsPlain(c, id, p);
    if c.calm && p in c.before {
      StaysThere(c, fs, placed, p);
    }
  }

  lemma Reaches(c: Config, id: nat, q: Path, k: nat)
    requires Disjoint(c) && id in c.jobs && Asked(c.jobs[id], q)
    ensures q in c.reach(id)
    ensures c.jobs[id].policy == KeepBoth && 2 <= k < CANDIDATE_LIMIT ==>
      var p := Candidate(q, k);
      p in c.reach(id) && (q == c.jobs[id].dst && c.jobs[id].isMove ==> Asked(c.jobs[id], p))
  {
    assert MayReach(c.jobs[id], q);
    if c.jobs[id].policy == KeepBoth && 2 <= k < CANDIDATE_LIMIT {
      assert Beside(q, Candidate(q, k));
      assert MayReach(c.jobs[id], Candidate(q, k));
    }
  }

  /******* Steps that only think *******/

  /** What a step of one Job needs to know. */
  ghost predicate Ready(c: Config, placed: set<(Path, Bytes)>, id: nat, x: Point) {
    && Disjoint(c) && FsOk(RulesOf(c, placed), x.fs) && PlacedOk(c, placed) && JournalOk(x.jn)
    && id in c.jobs && c.jobs[id].src in c.before && RunOk(c, id, x) && Untaken(c, id, x)
  }

  /** The step stays inside the Job's footprint. */
  ghost predicate Framed(c: Config, id: nat, x: Point, y: Point)
    requires id in c.jobs
  {
    && (forall p | p != TempPathFor(x.r.dst) && p != x.r.dst && (c.jobs[id].isMove ==> p != c.jobs[id].src) ::
          SameAt(x.fs, y.fs, p))
    && (x.r.dst in x.fs.names ==> x.r.dst in y.fs.names)
    && (forall p | p != x.r.dst :: SameEntry(x.jn.book, y.jn.book, p))
    && (x.fs != y.fs || x.jn != y.jn ==> x.r.dst in c.reach(id))
  }

  ghost predicate SameEntry(b: Book, b': Book, p: Path) {
    (p in b <==> p in b') && (p in b ==> b[p] == b'[p])
  }

  ghost predicate Sustains(c: Config, placed: set<(Path, Bytes)>, id: nat, x: Point, y: Point)
    requires id in c.jobs && c.jobs[id].src in c.before
  {
    FsOk(RulesOf(c, placed), y.fs) && JournalOk(y.jn) && RunOk(c, id, y) && Framed(c, id, x, y)
  }

  lemma Starts(c: Config, placed: set<(Path, Bytes)>, id: nat, x: Point, y: Point)
    requires Ready(c, placed, id, x) && Moves(c, c.jobs[id], x, y)
    requires x.r.at.Idle? || x.r.at.Finished? || x.r.at.MoveSameFs? || x.r.at.SameFs? || x.r.at.Measure?
    ensures Sustains(c, placed, id, x, y)
  {
    hide FsOk, RulesOf, JournalOk, PlacedOk, Disjoint;
  }

  lemma ChecksMove(c: Config, placed: set<(Path, Bytes)>, id: nat, x: Point, y: Point)
    requires Ready(c, placed, id, x) && Moves(c, c.jobs[id], x, y)
    requires x.r.at.MoveExists?
    ensures Sustains(c, placed, id, x, y)
  {
    hide FsOk, RulesOf, JournalOk, PlacedOk, Disjoint;
    Reaches(c, id, x.r.dst, 0);
    if MaySay(c, x.fs, x.r.dst, false) { FreeIsNew(c, x.fs, placed, id, x.r.dst); }
  }

  lemma ProbesMove(c: Config, placed: set<(Path, Bytes)>, id: nat, x: Point, y: Point)
    requires Ready(c, placed, id, x) && Moves(c, c.jobs[id], x, y)
    requires x.r.at.MoveProbe?
    ensures Sustains(c, placed, id, x, y)
  {
    hide FsOk, RulesOf, JournalOk, PlacedOk, Disjoint;
    var p := Candidate(x.r.dst, x.r.at.k);
    Reaches(c, id, x.r.dst, x.r.at.k);
    if x.r.at.k < CANDIDATE_LIMIT && MaySay(c, x.fs, p, false) { FreeIsNew(c, x.fs, placed, id, p); }
  }

  lemma Stats(c: Config, placed: set<(Path, Bytes)>, id: nat, x: Point, y: Point)
    requires Ready(c, placed, id, x) && Moves(c, c.jobs[id], x, y)
    requires x.r.at.Stat?
    ensures Sustains(c, placed, id, x, y)
  {
    hide FsOk, RulesOf, JournalOk, PlacedOk, Disjoint;
    if c.jobs[id].src in x.fs.names { SourceIsStable(c, x.fs, placed, id); }
  }

  lemma ChecksCopy(c: Config, placed: set<(Path, Bytes)>, id: nat, x: Point, y: Point)
    requires Ready(c, placed, id, x) && Moves(c, c.jobs[id], x, y)
    requires x.r.at.Exists?
    ensures Sustains(c, placed, id, x, y)
  {
    hide FsOk, RulesOf, JournalOk, PlacedOk, Disjoint;
    Reaches(c, id, x.r.dst, 0);
    if MaySay(c, x.fs, x.r.dst, false) { FreeIsNew(c, x.fs, placed, id, x.r.dst); }
  }

  lemma ProbesCopy(c: Config, placed: set<(Path, Bytes)>, id: nat, x: Point, y: Point)
    requires Ready(c, placed, id, x) && Moves(c, c.jobs[id], x, y)
    requires x.r.at.Probe?
    ensures Sustains(c, placed, id, x, y)
  {
    hide FsOk, RulesOf, JournalOk, PlacedOk, Disjoint;
    var p := Candidate(x.r.dst, x.r.at.k);
    Reaches(c, id, x.r.dst, x.r.at.k);
    if x.r.at.k < CANDIDATE_LIMIT && MaySay(c, x.fs, p, false) { FreeIsNew(c, x.fs, placed, id, p); }
  }

  lemma Hashes(c: Config, placed: set<(Path, Bytes)>, id: nat, x: Point, y: Point)
    requires Ready(c, placed, id, x) && Moves(c, c.jobs[id], x, y)
    requires x.r.at.Hash?
    ensures Sustains(c, placed, id, x, y)
  {
    hide FsOk, RulesOf, JournalOk, PlacedOk, Disjoint;
    if Present(x.fs, c.jobs[id].src) {
      SourceIsStable(c, x.fs, placed, id);
      HashTells(c, Whole(c, c.jobs[id]), x.fs.data[x.r.h].bytes);
    }
  }

  lemma HashTells(c: Config, a: Bytes, b: Bytes)
    requires Disjoint(c)
    ensures c.hash(a) == c.hash(b) ==> a == b
  {
  }

  /******* Steps on the temp file *******/

  /** Everything a change to the temp file's inode leaves alone. */
  lemma OnTemp(c: Config, placed: set<(Path, Bytes)>, id: nat, fs: Fs, dst: Path, x: Data)
    requires Disjoint(c) && FsOk(RulesOf(c, placed), fs) && id in c.jobs && dst in c.reach(id)
    requires TempPathFor(dst) in fs.names
    ensures var t := TempPathFor(dst);
            var fs' := fs.(data := fs.data[fs.names[t] := x]);
            && FsOk(RulesOf(c, placed), fs') && t != dst && Present(fs', t) && Read(fs', t) == x
            && forall p | p != t :: SameAt(fs, fs', p)
  {
    hide FsOk, RulesOf, Disjoint;
    TempOf(c, placed, id, dst);
    TouchTemp(RulesOf(c, placed), fs, TempPathFor(dst), x);
  }

  lemma OpensTemp(c: Config, placed: set<(Path, Bytes)>, id: nat, fs: Fs, dst: Path, h: Ino, fs': Fs)
    requires Disjoint(c) && FsOk(RulesOf(c, placed), fs) && id in c.jobs && dst in c.reach(id)
    requires OpensTruncated(c.dev, fs, TempPathFor(dst), h, fs')
    ensures var t := TempPathFor(dst);
            && FsOk(RulesOf(c, placed), fs') && t != dst
            && Present(fs', t) && fs'.names[t] == h && Read(fs', t) == Data([], false)
            && forall p | p != t :: SameAt(fs, fs', p)
  {
    hide FsOk, RulesOf, Disjoint;
    TempOf(c, placed, id, dst);
    OpenTemp(RulesOf(c, placed), fs, TempPathFor(dst), h, fs');
  }

  lemma DropsTemp(c: Config, placed: set<(Path, Bytes)>, id: nat, fs: Fs, dst: Path, ok: bool, fs': Fs)
    requires Disjoint(c) && FsOk(RulesOf(c, placed), fs) && id in c.jobs && dst in c.reach(id)
    requires Unlinks(fs, TempPathFor(dst), ok, fs')
    ensures var t := TempPathFor(dst);
            && FsOk(RulesOf(c, placed), fs') && t != dst && (ok ==> t !in fs'.names)
            && forall p | p != t :: SameAt(fs, fs', p)
  {
    hide FsOk, RulesOf, Disjoint;
    TempOf(c, placed, id, dst);
    if ok { DropTemp(RulesOf(c, placed), fs, TempPathFor(dst)); }
  }

  lemma OpensClone(c: Config, placed: set<(Path, Bytes)>, id: nat, x: Point, y: Point)
    requires Ready(c, placed, id, x) && Moves(c, c.jobs[id], x, y)
    requires x.r.at.CloneOpen?
    ensures Sustains(c, placed, id, x, y)
  {
    hide FsOk, RulesOf, JournalOk, PlacedOk, Disjoint;
    if !(y.fs == x.fs) { OpensTemp(c, placed, id, x.fs, x.r.dst, y.r.h, y.fs); }
  }

  lemma ClonesSource(c: Config, placed: set<(Path, Bytes)>, id: nat, x: Point, y: Point)
    requires Ready(c, placed, id, x) && Moves(c, c.jobs[id], x, y)
    requires x.r.at.CloneIoctl?
    ensures Sustains(c, placed, id, x, y)
  {
    hide FsOk, RulesOf, JournalOk, PlacedOk, Disjoint;
    if c.jobs[id].src in x.fs.names {
      SourceIsStable(c, x.fs, placed, id);
      OnTemp(c, placed, id, x.fs, x.r.dst, Data(Whole(c, c.jobs[id]), false));
    }
  }

  lemma SyncsClone(c: Config, placed: set<(Path, Bytes)>, id: nat, x: Point, y: Point)
    requires Ready(c, placed, id, x) && Moves(c, c.jobs[id], x, y)
    requires x.r.at.CloneSync?
    ensures Sustains(c, placed, id, x, y)
  {
    hide FsOk, RulesOf, JournalOk, PlacedOk, Disjoint;
    OnTemp(c, placed, id, x.fs, x.r.dst, Data(x.fs.data[x.r.h].bytes, true));
  }

  lemma UndoesClone(c: Config, placed: set<(Path, Bytes)>, id: nat, x: Point, y: Point)
    requires Ready(c, placed, id, x) && Moves(c, c.jobs[id], x, y)
    requires x.r.at.CloneUndo? || x.r.at.CloneDrop?
    ensures Sustains(c, placed, id, x, y)
  {
    hide FsOk, RulesOf, JournalOk, PlacedOk, Disjoint;
    var ok :| Unlinks(x.fs, TempPathFor(x.r.dst), ok, y.fs);
    DropsTemp(c, placed, id, x.fs, x.r.dst, ok, y.fs);
  }

  lemma OpensStream(c: Config, placed: set<(Path, Bytes)>, id: nat, x: Point, y: Point)
    requires Ready(c, placed, id, x) && Moves(c, c.jobs[id], x, y)
    requires x.r.at.Open?
    ensures Sustains(c, placed, id, x, y)
  {
    hide FsOk, RulesOf, JournalOk, PlacedOk, Disjoint;
    if y.r.at.Chunk? { OpensTemp(c, placed, id, x.fs, x.r.dst, y.r.h, y.fs); }
  }

  lemma SyncsStream(c: Config, placed: set<(Path, Bytes)>, id: nat, x: Point, y: Point)
    requires Ready(c, placed, id, x) && Moves(c, c.jobs[id], x, y)
    requires x.r.at.Sync?
    ensures Sustains(c, placed, id, x, y)
  {
    hide FsOk, RulesOf, JournalOk, PlacedOk, Disjoint;
    OnTemp(c, placed, id, x.fs, x.r.dst, Data(x.fs.data[x.r.h].bytes, true));
  }

  lemma CopiesChunk(c: Config, placed: set<(Path, Bytes)>, id: nat, x: Point, y: Point)
    requires Ready(c, placed, id, x) && Moves(c, c.jobs[id], x, y)
    requires x.r.at.Chunk?
    ensures Sustains(c, placed, id, x, y)
  {
    hide FsOk, RulesOf, JournalOk, PlacedOk, Disjoint;
    hide ReadsOn, WriteAt;
    if ReadsOn(c, c.jobs[id], x, y) {
      ReadsChunk(c, placed, id, x, y);
    } else if y.fs != x.fs {
      OnTemp(c, placed, id, x.fs, x.r.dst, y.fs.data[x.r.h]);
    }
  }

  lemma ReadsChunk(c: Config, placed: set<(Path, Bytes)>, id: nat, x: Point, y: Point)
    requires Ready(c, placed, id, x) && ReadsOn(c, c.jobs[id], x, y) && y.jn == x.jn && x.r.at.Chunk?
    ensures Sustains(c, placed, id, x, y)
  {
    hide FsOk, RulesOf, JournalOk, PlacedOk, Disjoint, WriteAt;
    var w :| Copies(c, c.jobs[id], x.fs, x.r, w) && Writes(x.fs, x.r.h, x.r.total, w, y.fs)
             && Goes(x.r.(total := x.r.total + |w|), Chunk, y.r);
    SourceIsStable(c, x.fs, placed, id);
    OnTemp(c, placed, id, x.fs, x.r.dst, y.fs.data[x.r.h]);
    Appends(x.fs.data[x.r.h].bytes, Whole(c, c.jobs[id]), x.r.total, w);
  }

  /** Copying the next stretch of `s` extends a prefix of it, wherever one stopped. */
  lemma Appends(b: Bytes, s: Bytes, at: nat, w: Bytes)
    requires at == |b| && at + |w| <= |s|
    ensures |WriteAt(b, at, w)| == at + |w|
    ensures b == s[..at] && w == s[at..at + |w|] ==> WriteAt(b, at, w) == s[..at + |w|]
  {
  }

  /******* Steps on the journal *******/

  /** No run ever resumes: nothing but 0 is ever recorded. */
  lemma ResumesAtZero(fs: Fs, jn: Journal, dst: Path, expected: nat, checksum: bool)
    requires JournalOk(jn)
    ensures ResumeOffset(fs, jn, dst, expected, checksum) == 0
  {
    assert BookOk(jn.book);
  }

  lemma BookStays(jn: Journal, b: Book)
    requires JournalOk(jn) && BookOk(b)
    ensures JournalOk(Rebook(jn, b))
  {
  }

  lemma EntryAdded(jn: Journal, e: Entry)
    requires JournalOk(jn) && e.done == 0 && e.temp == TempPathFor(e.destination)
    ensures JournalOk(Rebook(jn, jn.book[e.destination := e]))
  {
    assert BookOk(jn.book);
    BookStays(jn, jn.book[e.destination := e]);
  }

  lemma EntryDropped(jn: Journal, dst: Path)
    requires JournalOk(jn)
    ensures JournalOk(Rebook(jn, jn.book - {dst}))
  {
    assert BookOk(jn.book);
    BookStays(jn, jn.book - {dst});
  }

  lemma RecordsEntry(c: Config, placed: set<(Path, Bytes)>, id: nat, x: Point, y: Point)
    requires Ready(c, placed, id, x) && Moves(c, c.jobs[id], x, y)
    requires x.r.at.Record?
    ensures Sustains(c, placed, id, x, y)
  {
    hide FsOk, RulesOf, JournalOk, PlacedOk, Disjoint;
    ResumesAtZero(x.fs, x.jn, x.r.dst, x.r.expected, c.jobs[id].checksum);
    EntryAdded(x.jn, Entry(c.jobs[id].src, x.r.dst, TempPathFor(x.r.dst), x.r.expected, 0, c.jobs[id].checksum));
  }

  lemma ClearsEntry(c: Config, placed: set<(Path, Bytes)>, id: nat, x: Point, y: Point)
    requires Ready(c, placed, id, x) && Moves(c, c.jobs[id], x, y)
    requires x.r.at.Clear? || x.r.at.SweepBook?
    ensures Sustains(c, placed, id, x, y)
  {
    hide FsOk, RulesOf, JournalOk, PlacedOk, Disjoint;
    EntryDropped(x.jn, x.r.dst);
  }

  lemma Sweeps(c: Config, placed: set<(Path, Bytes)>, id: nat, x: Point, y: Point)
    requires Ready(c, placed, id, x) && Moves(c, c.jobs[id], x, y)
    requires x.r.at.Sweep?
    ensures Sustains(c, placed, id, x, y)
  {
    hide FsOk, RulesOf, JournalOk, PlacedOk, Disjoint;
    var ok :| Unlinks(x.fs, TempPathFor(x.r.dst), ok, y.fs) && Goes(x.r, SweepBook(x.r.at.error, ok), y.r);
    DropsTemp(c, placed, id, x.fs, x.r.dst, ok, y.fs);
  }

  /******* Steps that land *******/

  /** Where a Job's whole content may go, and what that does to promises. */
  lemma Landing(c: Config, placed: set<(Path, Bytes)>, id: nat, p: Path, b: Bytes)
    requires Disjoint(c) && MayLand(c, id, p) && c.jobs[id].src in c.before && Good(c, c.jobs[id], b)
    ensures var u := RulesOf(c, placed);
            && (p, b) in u.allowed
            && (!(c.calm && c.jobs[id].policy != Replace) ==>
                  forall m, b' | m in u.promises && (p, b') in m.landings :: (p, b) in m.landings)
            && (c.jobs[id].isMove ==> forall m | m in u.promises && m.src == c.jobs[id].src :: (p, b) in m.landings)
  {
    var u := RulesOf(c, placed);
    assert LandedBy(c, id, p, b);
    assert Allowed(c, placed, p, b);
    forall m, b' | m in u.promises && (p, b') in m.landings && !(c.calm && c.jobs[id].policy != Replace)
      ensures (p, b) in m.landings {
      OwnPromise(c, placed, id, p, b', m);
    }
    if c.jobs[id].isMove {
      forall m | m in u.promises && m.src == c.jobs[id].src ensures (p, b) in m.landings {
        OwnPromise(c, placed, id, p, b, m);
      }
    }
  }

  lemma MovedSource(c: Config, placed: set<(Path, Bytes)>, id: nat, p: Path)
    requires Disjoint(c) && id in c.jobs && c.jobs[id].isMove && p in c.reach(id)
    ensures var u := RulesOf(c, placed);
            && c.jobs[id].src !in u.temps && c.jobs[id].src !in u.kept && c.jobs[id].src != p
            && forall m, x | m in u.promises && x in m.landings :: x.0 != c.jobs[id].src
  {
    var u := RulesOf(c, placed);
    forall m, x | m in u.promises && x in m.landings ensures x.0 != c.jobs[id].src {
      OwnPromise(c, placed, id, p, [], m);
    }
    MovedNames(c, placed, id, p);
  }

  lemma MovedNames(c: Config, placed: set<(Path, Bytes)>, id: nat, p: Path)
    requires Disjoint(c) && id in c.jobs && c.jobs[id].isMove && p in c.reach(id)
    ensures var u := RulesOf(c, placed);
            c.jobs[id].src !in u.temps && c.jobs[id].src !in u.kept && c.jobs[id].src != p
  {
    NotATemp(c, id, c.jobs[id].src);
    assert IsMoveSource(c, c.jobs[id].src);
    assert c.jobs[id].src != p;
    hide Disjoint, IsTemp, MayLand;
  }

  lemma CommitsTemp(c: Config, placed: set<(Path, Bytes)>, id: nat, fs: Fs, dst: Path, ok: bool, fs': Fs)
    requires Disjoint(c) && FsOk(RulesOf(c, placed), fs) && MayLand(c, id, dst) && c.jobs[id].src in c.before
    requires Present(fs, TempPathFor(dst)) && Read(fs, TempPathFor(dst)).synced
    requires Good(c, c.jobs[id], Read(fs, TempPathFor(dst)).bytes)
    requires Renames(fs, TempPathFor(dst), dst, ok, fs')
    requires c.calm && c.jobs[id].policy != Replace ==> dst !in fs.names
    ensures FsOk(RulesOf(c, placed), fs')
    ensures forall p | p != TempPathFor(dst) && p != dst :: SameAt(fs, fs', p)
    ensures ok ==> Present(fs', dst) && Read(fs', dst) == Read(fs, TempPathFor(dst))
  {
    hide FsOk, RulesOf, Disjoint;
    var t := TempPathFor(dst);
    TempOf(c, placed, id, dst);
    Landing(c, placed, id, dst, Read(fs, t).bytes);
    if ok { CommitTemp(RulesOf(c, placed), fs, t, dst); }
  }

  lemma CommitsClone(c: Config, placed: set<(Path, Bytes)>, id: nat, x: Point, y: Point)
    requires Ready(c, placed, id, x) && Moves(c, c.jobs[id], x, y)
    requires x.r.at.CloneCommit?
    ensures Sustains(c, placed, id, x, y)
  {
    hide FsOk, RulesOf, JournalOk, PlacedOk, Disjoint;
    var ok :| Renames(x.fs, TempPathFor(x.r.dst), x.r.dst, ok, y.fs)
              && if ok then Lands(c.jobs[id], x.r, SharedExtents, y.r) else Goes(x.r, CloneDrop, y.r);
    CommitsTemp(c, placed, id, x.fs, x.r.dst, ok, y.fs);
  }

  lemma CommitsStream(c: Config, placed: set<(Path, Bytes)>, id: nat, x: Point, y: Point)
    requires Ready(c, placed, id, x) && Moves(c, c.jobs[id], x, y)
    requires x.r.at.Commit?
    ensures Sustains(c, placed, id, x, y)
  {
    hide FsOk, RulesOf, JournalOk, PlacedOk, Disjoint;
    var ok :| Renames(x.fs, TempPathFor(x.r.dst), x.r.dst, ok, y.fs)
              && if ok then Goes(x.r, Clear(x.r.at.tier), y.r) else Fails(x.r, IoError, y.r);
    CommitsTemp(c, placed, id, x.fs, x.r.dst, ok, y.fs);
  }

  lemma RenamesSource(c: Config, placed: set<(Path, Bytes)>, id: nat, x: Point, y: Point)
    requires Ready(c, placed, id, x) && Moves(c, c.jobs[id], x, y)
    requires x.r.at.MoveRename?
    ensures Sustains(c, placed, id, x, y)
  {
    hide FsOk, RulesOf, JournalOk, PlacedOk, Disjoint;
    var j := c.jobs[id];
    var ok :| Renames(x.fs, j.src, x.r.dst, ok, y.fs)
              && if ok then Goes(x.r, Finished(Ok(Moved(x.r.dst)), false), y.r) else Fails(x.r, IoError, y.r);
    if ok {
      SourceIsStable(c, x.fs, placed, id);
      TempOf(c, placed, id, x.r.dst);
      MovedSource(c, placed, id, x.r.dst);
      Landing(c, placed, id, x.r.dst, Whole(c, j));
      MoveName(RulesOf(c, placed), x.fs, j.src, x.r.dst);
    }
  }

  lemma RemovesSource(c: Config, placed: set<(Path, Bytes)>, id: nat, x: Point, y: Point)
    requires Ready(c, placed, id, x) && Moves(c, c.jobs[id], x, y)
    requires x.r.at.MoveRemove?
    ensures Sustains(c, placed, id, x, y)
  {
    hide FsOk, RulesOf, JournalOk, PlacedOk, Disjoint;
    var j := c.jobs[id];
    var ok :| Unlinks(x.fs, j.src, ok, y.fs)
              && if ok then Goes(x.r, Finished(Ok(Moved(x.r.dst)), false), y.r) else Fails(x.r, IoError, y.r);
    if ok {
      TempOf(c, placed, id, x.r.dst);
      MovedSource(c, placed, id, x.r.dst);
      Landing(c, placed, id, x.r.dst, Read(x.fs, x.r.dst).bytes);
      DropSource(RulesOf(c, placed), x.fs, j.src, x.r.dst);
    }
  }

  /******* The whole system *******/

  lemma OwnStep(c: Config, placed: set<(Path, Bytes)>, id: nat, x: Point, y: Point)
    requires Ready(c, placed, id, x) && Moves(c, c.jobs[id], x, y)
    ensures Sustains(c, placed, id, x, y)
  {
    hide Moves, Sustains, RunOk, FsOk, RulesOf, JournalOk, PlacedOk, Disjoint;
    match x.r.at
    case Idle => Starts(c, placed, id, x, y);
    case MoveExists => ChecksMove(c, placed, id, x, y);
    case MoveProbe(_) => ProbesMove(c, placed, id, x, y);
    case MoveSameFs => Starts(c, placed, id, x, y);
    case MoveRename => RenamesSource(c, placed, id, x, y);
    case Stat => Stats(c, placed, id, x, y);
    case Exists => ChecksCopy(c, placed, id, x, y);
    case Probe(_) => ProbesCopy(c, placed, id, x, y);
    case SameFs => Starts(c, placed, id, x, y);
    case CloneOpen => OpensClone(c, placed, id, x, y);
    case CloneIoctl => ClonesSource(c, placed, id, x, y);
    case CloneSync => SyncsClone(c, placed, id, x, y);
    case CloneUndo => UndoesClone(c, placed, id, x, y);
    case CloneCommit => CommitsClone(c, placed, id, x, y);
    case CloneDrop => UndoesClone(c, placed, id, x, y);
    case Record => RecordsEntry(c, placed, id, x, y);
    case Open(_) => OpensStream(c, placed, id, x, y);
    case Chunk => CopiesChunk(c, placed, id, x, y);
    case Sync => SyncsStream(c, placed, id, x, y);
    case Measure => Starts(c, placed, id, x, y);
    case Hash(_) => Hashes(c, placed, id, x, y);
    case Commit(_) => CommitsStream(c, placed, id, x, y);
    case Clear(_) => ClearsEntry(c, placed, id, x, y);
    case Sweep(_) => Sweeps(c, placed, id, x, y);
    case SweepBook(_, _) => ClearsEntry(c, placed, id, x, y);
    case MoveRemove => RemovesSource(c, placed, id, x, y);
    case Finished(_, _) => Starts(c, placed, id, x, y);
  }

  /** Until the landing only the temp name comes and goes. */
  lemma StaysUntaken(c: Config, id: nat, x: Point, y: Point)
    requires id in c.jobs && Moves(c, c.jobs[id], x, y) && Untaken(c, id, x)
    ensures Untaken(c, id, y)
  {
    hide Moves;
    if Aiming(y.r.at) {
      if Aiming(x.r.at) {
        OnlyTemp(c, id, x, y);
        assert |TempPathFor(x.r.dst).name| > |x.r.dst.name|;
      } else {
        FindsFree(c, id, x, y);
      }
    }
  }

  lemma OnlyTemp(c: Config, id: nat, x: Point, y: Point)
    requires id in c.jobs && Moves(c, c.jobs[id], x, y) && Aiming(x.r.at) && Aiming(y.r.at)
    ensures y.r.dst == x.r.dst && forall p | p != TempPathFor(x.r.dst) && p in y.fs.names :: p in x.fs.names
  {
    hide Candidate, ResumeOffset, Records, Clears, WriteAt, TempPathFor, Present, Read, Copies;
  }

  lemma FindsFree(c: Config, id: nat, x: Point, y: Point)
    requires id in c.jobs && Moves(c, c.jobs[id], x, y) && !Aiming(x.r.at) && Aiming(y.r.at)
    ensures c.calm && c.jobs[id].policy != Replace ==> y.r.dst !in y.fs.names
  {
    hide Candidate, ResumeOffset, Records, Clears, WriteAt, TempPathFor, Present, Read, Copies;
    hide OpensTruncated, Writes, Unlinks, Renames, Clones, Syncs;
  }

  /** What a Job knows depends on its own names alone. */
  lemma RunFrame(c: Config, id: nat, x: Point, fs': Fs, jn': Journal)
    requires Disjoint(c) && id in c.jobs && c.jobs[id].src in c.before && RunOk(c, id, x)
    requires forall q | q in c.reach(id) && q in x.fs.names :: q in fs'.names
    requires x.r.dst in c.reach(id) ==>
      && SameAt(x.fs, fs', TempPathFor(x.r.dst))
      && (Present(x.fs, x.r.dst) ==> SameAt(x.fs, fs', x.r.dst))
      && SameEntry(x.jn.book, jn'.book, x.r.dst)
    ensures RunOk(c, id, Point(fs', jn', x.r))
  {
    hide Claim, Good, Whole, Taken, Disjoint;
    if x.r.at.MoveProbe? || x.r.at.Probe? {
      StillTaken(c, id, x.fs, x.r.dst, x.r.at.k, fs');
    }
  }

  lemma StillTaken(c: Config, id: nat, fs: Fs, dst: Path, k: nat, fs': Fs)
    requires Disjoint(c) && id in c.jobs && Asked(c.jobs[id], dst) && c.jobs[id].policy == KeepBoth
    requires k <= CANDIDATE_LIMIT && Taken(fs, dst, k)
    requires forall q | q in c.reach(id) && q in fs.names :: q in fs'.names
    ensures Taken(fs', dst, k)
  {
    hide Disjoint, Candidate;
    forall i | 2 <= i < k ensures Candidate(dst, i) in fs'.names {
      Reaches(c, id, dst, i);
    }
  }

  /** Disjoint footprints: one Job's step is invisible to every other. */
  lemma OthersUnmoved(c: Config, id: nat, x: Point, y: Point, k: nat, r: Run)
    requires Disjoint(c) && id in c.jobs && Framed(c, id, x, y)
    requires k in c.jobs && k != id && c.jobs[k].src in c.before && RunOk(c, k, Point(x.fs, x.jn, r))
    requires Untaken(c, k, Point(x.fs, x.jn, r)) && (c.request(k) == c.request(id) ==> r.at.Idle?)
    ensures RunOk(c, k, Point(y.fs, y.jn, r)) && Untaken(c, k, Point(y.fs, y.jn, r))
  {
    if c.request(k) != c.request(id) && !(x.fs == y.fs && x.jn == y.jn) {
      InReachWhileAiming(c, k, Point(x.fs, x.jn, r));
      hide RunOk;
      hide Disjoint;
      forall q | q in c.reach(k) ensures q in x.fs.names ==> q in y.fs.names {
        Apart(c, id, x.r.dst, k, q);
        assert SameAt(x.fs, y.fs, q);
      }
      if r.dst in c.reach(k) {
        Apart(c, id, x.r.dst, k, r.dst);
        assert SameAt(x.fs, y.fs, r.dst);
      }
      RunFrame(c, k, Point(x.fs, x.jn, r), y.fs, y.jn);
    }
  }

  lemma InReachWhileAiming(c: Config, id: nat, x: Point)
    requires id in c.jobs && c.jobs[id].src in c.before && RunOk(c, id, x)
    ensures Aiming(x.r.at) ==> x.r.dst in c.reach(id)
  {
  }

  lemma Apart(c: Config, i: nat, p: Path, k: nat, q: Path)
    requires Disjoint(c) && i in c.jobs && k in c.jobs && i != k && p in c.reach(i) && q in c.reach(k)
    requires c.request(i) != c.request(k)
    ensures p != q && TempPathFor(p) != q && p != TempPathFor(q) && TempPathFor(p) != TempPathFor(q)
    ensures c.jobs[i].isMove ==> c.jobs[i].src != q && c.jobs[i].src != TempPathFor(q)
  {
    if TempPathFor(p) == TempPathFor(q) { TempIsInjective(p, q); }
  }

  lemma StepKeeps(c: Config, s: Sys, id: nat, s': Sys)
    requires Disjoint(c) && Inv(c, s) && Next(c, s, Step(id), s')
    ensures Inv(c, s')
  {
    hide Moves, RunOk, FsOk, RulesOf, JournalOk, PlacedOk, Disjoint, Framed, Untaken;
    var x, y := PointOf(s, id), PointOf(s', id);
    OwnStep(c, s.placed, id, x, y);
    StaysUntaken(c, id, x, y);
    forall k | k in c.jobs
      ensures c.jobs[k].src in c.before && RunOk(c, k, PointOf(s', k)) && Untaken(c, k, PointOf(s', k)) {
      if k != id {
        assert RunOk(c, k, PointOf(s, k));
        OthersUnmoved(c, id, x, y, k, s.runs[k]);
      }
    }
  }

  lemma RestedOk(c: Config, s: Sys, s': Sys)
    requires Inv(c, s) && s'.runs == Rested(s.runs)
    ensures s'.runs.Keys == c.jobs.Keys
    ensures forall id | id in c.jobs ::
      c.jobs[id].src in c.before && RunOk(c, id, PointOf(s', id)) && Untaken(c, id, PointOf(s', id))
  {
    hide FsOk, RulesOf, JournalOk, PlacedOk;
    assert forall id | id in c.jobs :: c.jobs[id].src in c.before;
  }

  lemma CrashKeeps(c: Config, s: Sys, s': Sys)
    requires Inv(c, s) && Next(c, s, Crash, s')
    ensures Inv(c, s')
  {
    RestedOk(c, s, s');
    hide FsOk, RulesOf, JournalOk, PlacedOk, RunOk;
  }

  lemma PowerLossKeeps(c: Config, s: Sys, s': Sys)
    requires Disjoint(c) && Inv(c, s) && Next(c, s, PowerLoss, s')
    ensures Inv(c, s')
  {
    var u := RulesOf(c, s.placed);
    RulesAreSound(c, s.placed);
    forall m, x | m in u.promises && x in m.landings ensures u.dev(x.0.dir) == u.dev(m.src.dir) {
      var id :| Guarded(c, id) && m == PromiseOf(c, id);
      assert MayReach(c.jobs[id], x.0);
      ReachLength(c.jobs[id], x.0);
    }
    Restarted(c, s, s');
  }

  lemma Restarted(c: Config, s: Sys, s': Sys)
    requires Disjoint(c) && Inv(c, s) && Next(c, s, PowerLoss, s')
    requires Sound(RulesOf(c, s.placed))
    requires var u := RulesOf(c, s.placed);
             forall m, x | m in u.promises && x in m.landings :: u.dev(x.0.dir) == u.dev(m.src.dir)
    ensures Inv(c, s')
  {
    assert RulesOf(c, s.placed).dev == c.dev;
    hide FsOk, RulesOf, PlacedOk, Disjoint, RunOk;
    RestedOk(c, s, s');
    LosePower(RulesOf(c, s.placed), s.fs, s'.fs);
  }

  lemma CreateKeeps(c: Config, s: Sys, p: Path, bytes: Bytes, s': Sys)
    requires Disjoint(c) && Inv(c, s) && Next(c, s, Create(p, bytes), s')
    ensures Inv(c, s')
  {
    hide RunOk, FsOk, RulesOf, JournalOk, Disjoint, IsTemp;
    var h: Ino :| h !in s.fs.data && h.dev == c.dev(p.dir) &&
      s' == s.(fs := Retree(s.fs, s.fs.names[p := h]).(data := s.fs.data[h := Data(bytes, true)]),
               placed := s.placed + {(p, bytes)});
    CreateFs(c, s.fs, s.placed, p, bytes, h);
    forall k | k in c.jobs
      ensures c.jobs[k].src in c.before && RunOk(c, k, PointOf(s', k)) && Untaken(c, k, PointOf(s', k)) {
      assert RunOk(c, k, PointOf(s, k));
      var dst := s.runs[k].dst;
      if dst in c.reach(k) {
        TempOf(c, s.placed, k, dst);
        IsOwnTemp(c, k, dst);
      }
      RunFrame(c, k, PointOf(s, k), s'.fs, s'.jn);
    }
  }

  lemma IsOwnTemp(c: Config, id: nat, p: Path)
    requires id in c.jobs && p in c.reach(id)
    ensures IsTemp(c, TempPathFor(p))
  {
  }

  lemma CreateFs(c: Config, fs: Fs, placed: set<(Path, Bytes)>, p: Path, bytes: Bytes, h: Ino)
    requires Disjoint(c) && FsOk(RulesOf(c, placed), fs)
    requires p !in fs.names && !IsTemp(c, p) && h !in fs.data && h.dev == c.dev(p.dir)
    ensures var fs' := Retree(fs, fs.names[p := h]).(data := fs.data[h := Data(bytes, true)]);
            FsOk(RulesOf(c, placed + {(p, bytes)}), fs') && forall q | q != p :: SameAt(fs, fs', q)
  {
    var u, u' := RulesOf(c, placed), RulesOf(c, placed + {(p, bytes)});
    var mid := fs.(data := fs.data[h := Data(bytes, true)]);
    var fs' := Retree(mid, mid.names[p := h]);
    assert u' == u.(allowed := u'.allowed) && u.allowed <= u'.allowed;
    assert Allowed(c, placed + {(p, bytes)}, p, bytes);
    assert (p, bytes) in u'.allowed && u'.dev == c.dev;
    RulesAreSound(c, placed + {(p, bytes)});
    hide FsOk, RulesOf, Disjoint, IsTemp;
    Widen(u, u', fs);
    FreshInode(u', fs, h, Data(bytes, true));
    AddName(u', mid, p, h);
    hide Present;
    forall q | q != p ensures SameAt(fs, fs', q) { assert SameAt(fs, mid, q) && SameAt(mid, fs', q); }
  }

  lemma NextKeeps(c: Config, s: Sys, s': Sys)
    requires Disjoint(c) && Inv(c, s) && Steps(c, s, s')
    ensures Inv(c, s')
  {
    hide Inv, Disjoint;
    var e :| Next(c, s, e, s');
    match e
    case Step(id) => StepKeeps(c, s, id, s');
    case Crash => CrashKeeps(c, s, s');
    case PowerLoss => PowerLossKeeps(c, s, s');
    case Create(p, bytes) => CreateKeeps(c, s, p, bytes, s');
  }

  lemma InitHolds(c: Config, s: Sys)
    requires Disjoint(c) && Init(c, s)
    ensures Inv(c, s)
  {
    var u := RulesOf(c, s.placed);
    assert Snaps(s.fs) == {s.fs.names};
    forall p | p in s.fs.names ensures (p, Read(s.fs, p).bytes) in u.allowed {
      assert (p, c.before[p]) in s.placed;
      assert Allowed(c, s.placed, p, c.before[p]);
    }
    forall m | m in u.promises ensures Disk.Holds(m, s.fs, s.fs.names) {
      var id :| Guarded(c, id) && m == PromiseOf(c, id);
    }
    assert SnapOk(u, s.fs, s.fs.names);
    StartsOk(c, s);
  }

  lemma StartsOk(c: Config, s: Sys)
    requires Disjoint(c) && Init(c, s)
    ensures forall id | id in c.jobs ::
      c.jobs[id].src in c.before && RunOk(c, id, PointOf(s, id)) && Untaken(c, id, PointOf(s, id))
  {
    hide Disjoint, RunOk, Untaken;
    forall id | id in c.jobs
      ensures c.jobs[id].src in c.before && RunOk(c, id, PointOf(s, id)) && Untaken(c, id, PointOf(s, id)) {
      SourceIsThere(c, id);
      IdleIsOk(c, id, PointOf(s, id));
    }
  }

  lemma SourceIsThere(c: Config, id: nat)
    requires Disjoint(c) && id in c.jobs
    ensures c.jobs[id].src in c.before
  {
  }

  lemma IdleIsOk(c: Config, id: nat, x: Point)
    requires id in c.jobs && c.jobs[id].src in c.before && x.r.at.Idle?
    ensures RunOk(c, id, x) && Untaken(c, id, x)
  {
  }

  /** Everything holds in every state of every run. */
  lemma {:induction false} RunKeeps(c: Config, hist: seq<Sys>, n: nat)
    requires Disjoint(c) && IsRun(c, hist) && n < |hist|
    ensures Inv(c, hist[n])
  {
    hide Inv, Disjoint, Init, Steps;
    if n == 0 {
      InitHolds(c, hist[0]);
    } else {
      RunKeeps(c, hist, n - 1);
      assert Steps(c, hist[n - 1], hist[n - 1 + 1]);
      NextKeeps(c, hist[n - 1], hist[n]);
    }
  }

  /** Of the files of one request at most one is being taken. */
  lemma {:induction false} OneAtATime(c: Config, hist: seq<Sys>, n: nat, i: nat, k: nat)
    requires IsRun(c, hist) && n < |hist| && i in hist[n].runs && k in hist[n].runs
    requires i != k && c.request(i) == c.request(k)
    ensures hist[n].runs[i].at.Idle? || hist[n].runs[k].at.Idle?
  {
    hide Moves, Init;
    if n == 0 {
      AllIdle(c, hist[0]);
    } else {
      assert Steps(c, hist[n - 1], hist[n - 1 + 1]);
      var e :| Next(c, hist[n - 1], e, hist[n]);
      SameJobs(c, hist[n - 1], e, hist[n]);
      OneAtATime(c, hist, n - 1, i, k);
    }
  }

  lemma AllIdle(c: Config, s: Sys)
    requires Init(c, s)
    ensures forall id | id in s.runs :: s.runs[id].at.Idle?
  {
  }

  lemma SameJobs(c: Config, s: Sys, e: Event, s': Sys)
    requires Next(c, s, e, s')
    ensures s'.runs.Keys == s.runs.Keys
  {
    hide Moves;
  }
}
