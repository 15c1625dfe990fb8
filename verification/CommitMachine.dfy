/**
 The transfer engine as a step machine.

 Every system call of `copy_file_with` and `move_file_with` is one step, every
 step may fail, the steps of different Jobs interleave freely, and a crash may
 fall between any two of them.
 */
module CommitMachine {
  import opened Paths
  import opened Disk

  /******* The journal *******/

  datatype Entry = Entry(source: Path, destination: Path, temp: Path, expected: nat, done: nat, checksum: bool)

  type Book = map<Path, Entry>

  /** Entries are written, fsynced and renamed into place, so each is whole; the
      directory holding them is not fsynced, so the medium may show any past book. */
  datatype Journal = Journal(book: Book, past: set<Book>)

  function Rebook(jn: Journal, book': Book): Journal {
    Journal(book', jn.past + {jn.book})
  }

  predicate Records(jn: Journal, e: Entry, ok: bool, jn': Journal) {
    jn' == if ok then Rebook(jn, jn.book[e.destination := e]) else jn
  }

  /** A missing entry counts as cleared. */
  predicate Clears(jn: Journal, dst: Path, ok: bool, jn': Journal) {
    jn' == if ok && dst in jn.book then Rebook(jn, jn.book - {dst}) else jn
  }

  /** How much of the temp file the journal vouches for. */
  function ResumeOffset(fs: Fs, jn: Journal, dst: Path, expected: nat, checksum: bool): (from: nat) {
    if dst !in jn.book then 0 else
    var e := jn.book[dst];
    var temp := TempPathFor(dst);
    if e.temp != temp || e.expected != expected || e.checksum != checksum then 0
    else if !Present(fs, temp) then 0
    else
      var len := |Read(fs, temp).bytes|;
      if len == e.done && len < expected then len else 0
  }

  /******* Jobs and outcomes *******/

  datatype Job = Job(src: Path, dst: Path, checksum: bool, policy: Policy, isMove: bool)

  datatype Tier = SharedExtents | Checksummed | SizeChecked

  datatype Error = IoError | SizeMismatch | ChecksumMismatch

  datatype Outcome =
    | Moved(committedAs: Path)
    | Copied(tier: Tier, bytes: nat, replaced: bool, committedAs: Path)
    | SkippedExisting

  datatype Result = Ok(outcome: Outcome) | Err(error: Error)

  /** Where a Job's thread is: the call it makes next. */
  datatype At =
    | Idle
    | MoveExists | MoveProbe(k: nat) | MoveSameFs | MoveRename
    | Stat | Exists | Probe(k: nat) | SameFs
    | CloneOpen | CloneIoctl | CloneSync | CloneUndo | CloneCommit | CloneDrop
    | Record | Open(from: nat) | Chunk | Sync | Measure
    | Hash(attempt: nat) | Commit(tier: Tier) | Clear(tier: Tier)
    | Sweep(error: Error) | SweepBook(error: Error, gone: bool)
    | MoveRemove
    | Finished(result: Result, swept: bool)

  /** A Job's local variables. */
  datatype Run = Run(at: At, dst: Path, expected: nat, replaced: bool, h: Ino, total: nat)

  /**
   `before` is what every name held at the start. `faithful` says that a write puts
   down the bytes it was given; `calm` that no other process creates files and
   that `exists` never mistakes a failed lookup for absence; `power` that power
   may be lost. `hash` stands for SHA-256 and is taken to be injective; `reach`
   names the landings each Job might have (see `Disjoint`); `request` says which
   request a Job is a file of: the files of one are taken one after another.
   */
  datatype Config = Config(jobs: map<nat, Job>, before: map<Path, Bytes>, faithful: bool, calm: bool, power: bool,
                           dev: string -> int, hash: Bytes -> int, reach: nat -> iset<Path>, request: nat -> nat)

  /** What one step reads and writes. */
  datatype Point = Point(fs: Fs, jn: Journal, r: Run)

  /** `placed` accumulates the whole files other parties put down. */
  datatype Sys = Sys(fs: Fs, jn: Journal, runs: map<nat, Run>, placed: set<(Path, Bytes)>)

  function PointOf(s: Sys, id: nat): Point
    requires id in s.runs
  {
    Point(s.fs, s.jn, s.runs[id])
  }

  const CHUNK := 4 * 1024 * 1024

  predicate SameDevice(c: Config, a: Path, b: Path) { c.dev(a.dir) == c.dev(b.dir) }

  /** `Path::exists`: a failed lookup reads as absence. */
  predicate MaySay(c: Config, fs: Fs, p: Path, there: bool) {
    if there then p in fs.names else p !in fs.names || !c.calm
  }

  /** Data-only moves of the program counter. */
  predicate Goes(r: Run, at: At, r': Run) { r' == r.(at := at) }

  predicate Fails(r: Run, e: Error, r': Run) { Goes(r, Finished(Err(e), false), r') }

  /** The copy's result becomes the Job's, except that a move has a source to remove. */
  predicate Lands(j: Job, r: Run, tier: Tier, r': Run) {
    Goes(r, if j.isMove then MoveRemove else Finished(Ok(Copied(tier, r.expected, r.replaced, r.dst)), false), r')
  }

  /** What the conflict policy makes of the existence check. */
  predicate Resolves(j: Job, there: bool, r: Run, skip: At, go: At, beside: At, r': Run) {
    if !there then Goes(r.(replaced := false), go, r')
    else match j.policy
      case Skip => Goes(r, skip, r')
      case Replace => Goes(r.(replaced := true), go, r')
      case KeepBoth => Goes(r.(replaced := false), beside, r')
  }

  /** One round of the search for a free name beside `r.dst`. */
  predicate Probes(c: Config, fs: Fs, r: Run, k: nat, next: At, go: At, r': Run) {
    if k >= CANDIDATE_LIMIT then Fails(r, IoError, r')
    else
      || (MaySay(c, fs, Candidate(r.dst, k), true) && Goes(r, next, r'))
      || (MaySay(c, fs, Candidate(r.dst, k), false) && Goes(r.(dst := Candidate(r.dst, k)), go, r'))
  }

  const SKIPPED := Finished(Ok(SkippedExisting), false)

  /** One step of one Job. */
  ghost predicate Moves(c: Config, j: Job, x: Point, y: Point) {
    var Point(fs, jn, r) := x;
    var Point(fs', jn', r') := y;
    var temp := TempPathFor(r.dst);
    var still := fs' == fs && jn' == jn;
    match r.at
    case Idle =>
      still && r'.at == (if j.isMove then MoveExists else Stat) && r'.dst == j.dst
    case Finished(_, _) =>
      still && r'.at == Idle
    case MoveExists =>
      still && exists e :: MaySay(c, fs, r.dst, e) && Resolves(j, e, r, SKIPPED, MoveSameFs, MoveProbe(2), r')
    case MoveProbe(k) =>
      still && Probes(c, fs, r, k, MoveProbe(k + 1), MoveSameFs, r')
    case MoveSameFs =>
      still && (Fails(r, IoError, r') || Goes(r, if SameDevice(c, j.src, r.dst) then MoveRename else Stat, r'))
    case MoveRename =>
      jn' == jn && exists ok ::
        && Renames(fs, j.src, r.dst, ok, fs')
        && if ok then Goes(r, Finished(Ok(Moved(r.dst)), false), r') else Fails(r, IoError, r')
    case Stat =>
      still && (
        || Fails(r, IoError, r')
        || (Present(fs, j.src) && Goes(r.(expected := |Read(fs, j.src).bytes|), Exists, r')))
    case Exists =>
      still && exists e :: MaySay(c, fs, r.dst, e) && Resolves(j, e, r, SKIPPED, SameFs, Probe(2), r')
    case Probe(k) =>
      still && Probes(c, fs, r, k, Probe(k + 1), SameFs, r')
    case SameFs =>
      still && (Fails(r, IoError, r') || Goes(r, if SameDevice(c, j.src, r.dst) then CloneOpen else Record, r'))
    case CloneOpen =>
      jn' == jn && (
        || (fs' == fs && Goes(r, Record, r'))
        || (OpensTruncated(c.dev, fs, temp, r'.h, fs') && Goes(r.(h := r'.h), CloneIoctl, r')))
    case CloneIoctl =>
      jn' == jn && exists ok ::
        Clones(fs, j.src, r.h, ok, fs') && Goes(r, if ok then CloneSync else CloneUndo, r')
    case CloneSync =>
      jn' == jn && exists ok ::
        Syncs(fs, r.h, ok, fs') && Goes(r, if ok then CloneCommit else Record, r')
    case CloneUndo =>
      jn' == jn && exists ok :: Unlinks(fs, temp, ok, fs') && Goes(r, Record, r')
    case CloneCommit =>
      jn' == jn && exists ok ::
        && Renames(fs, temp, r.dst, ok, fs')
        && if ok then Lands(j, r, SharedExtents, r') else Goes(r, CloneDrop, r')
    case CloneDrop =>
      jn' == jn && exists ok :: Unlinks(fs, temp, ok, fs') && Fails(r, IoError, r')
    case Record =>
      fs' == fs && exists ok, from ::
        && (from == 0 || from == ResumeOffset(fs, jn, r.dst, r.expected, j.checksum))
        && Records(jn, Entry(j.src, r.dst, temp, r.expected, from, j.checksum), ok, jn')
        && if ok then Goes(r, Open(from), r') else Fails(r, IoError, r')
    case Open(from) =>
      jn' == jn && (
        || (fs' == fs && Goes(r, Sweep(IoError), r'))
        || (from > 0 && Present(fs, temp) && fs' == fs && Goes(r.(h := fs.names[temp], total := from), Chunk, r'))
        || (from == 0 && OpensTruncated(c.dev, fs, temp, r'.h, fs') && Goes(r.(h := r'.h, total := 0), Chunk, r')))
    case Chunk =>
      jn' == jn && (
        || (fs' == fs && (Goes(r, Sync, r') || Goes(r, Sweep(IoError), r')))
        || ReadsOn(c, j, x, y)
        || (exists w :: Writes(fs, r.h, r.total, w, fs') && Goes(r, Sweep(IoError), r')))
    case Sync =>
      jn' == jn && exists ok ::
        Syncs(fs, r.h, ok, fs') && Goes(r, if ok then Measure else Sweep(IoError), r')
    case Measure =>
      still && Goes(r, if r.total != r.expected then Sweep(SizeMismatch)
                       else if j.checksum then Hash(0) else Commit(SizeChecked), r')
    case Hash(attempt) =>
      still && (
        || Fails(r, IoError, r')
        || (Present(fs, j.src) && Present(fs, temp) &&
            if c.hash(Read(fs, j.src).bytes) == c.hash(Read(fs, temp).bytes) then Goes(r, Commit(Checksummed), r')
            else Goes(r, if attempt == 0 then Hash(1) else Sweep(ChecksumMismatch), r')))
    case Commit(tier) =>
      jn' == jn && exists ok ::
        && Renames(fs, temp, r.dst, ok, fs')
        && if ok then Goes(r, Clear(tier), r') else Fails(r, IoError, r')
    case Clear(tier) =>
      fs' == fs && exists ok ::
        && Clears(jn, r.dst, ok, jn')
        && if ok then Lands(j, r, tier, r') else Fails(r, IoError, r')
    case Sweep(e) =>
      jn' == jn && exists ok :: Unlinks(fs, temp, ok, fs') && Goes(r, SweepBook(e, ok), r')
    case SweepBook(e, gone) =>
      fs' == fs && exists ok :: Clears(jn, r.dst, ok, jn') && Goes(r, Finished(Err(e), gone && ok), r')
    case MoveRemove =>
      jn' == jn && exists ok ::
        && Unlinks(fs, j.src, ok, fs')
        && if ok then Goes(r, Finished(Ok(Moved(r.dst)), false), r') else Fails(r, IoError, r')
  }

  /** A read returned the next bytes of the source, and `w` is what the medium
      put down for them: the same bytes on a faithful one. */
  ghost predicate Copies(c: Config, j: Job, fs: Fs, r: Run, w: Bytes) {
    && Present(fs, j.src)
    && 0 < |w| <= CHUNK && r.total + |w| <= |Read(fs, j.src).bytes|
    && (c.faithful ==> w == Read(fs, j.src).bytes[r.total..r.total + |w|])
  }

  ghost predicate ReadsOn(c: Config, j: Job, x: Point, y: Point) {
    exists w :: Copies(c, j, x.fs, x.r, w) && Writes(x.fs, x.r.h, x.r.total, w, y.fs)
                && Goes(x.r.(total := x.r.total + |w|), Chunk, y.r)
  }

  /******* The whole system *******/

  datatype Event = Step(id: nat) | Crash | PowerLoss | Create(p: Path, bytes: Bytes)

  const RESTING := Run(Idle, Path("", ""), 0, false, Ino(0, 0), 0)

  /** Every thread is gone; the next start begins every Job anew. */
  function Rested(runs: map<nat, Run>): map<nat, Run> {
    map id | id in runs :: RESTING
  }

  ghost predicate IsSource(c: Config, p: Path) { exists id :: id in c.jobs && c.jobs[id].src == p }

  /** No other file of the Job's request is being taken. */
  ghost predicate HasTurn(c: Config, runs: map<nat, Run>, id: nat) {
    forall k | k in runs && k != id && c.request(k) == c.request(id) :: runs[k].at.Idle?
  }

  ghost predicate Next(c: Config, s: Sys, e: Event, s': Sys) {
    match e
    case Step(id) =>
      && id in c.jobs && id in s.runs && id in s'.runs && HasTurn(c, s.runs, id)
      && s'.runs == s.runs[id := s'.runs[id]] && s'.placed == s.placed
      && Moves(c, c.jobs[id], PointOf(s, id), PointOf(s', id))
    case Crash =>
      s' == s.(runs := Rested(s.runs))
    case PowerLoss =>
      && c.power
      && s'.runs == Rested(s.runs) && s'.placed == s.placed
      && LosesPower(c.dev, s.fs, s'.fs) && s'.jn.past == {}
      && s'.jn.book in s.jn.past + {s.jn.book}
    case Create(p, bytes) =>
      && !c.calm
      && p !in s.fs.names && !IsTemp(c, p) && !IsSource(c, p)
      && exists h: Ino :: h !in s.fs.data && h.dev == c.dev(p.dir) &&
           s' == s.(fs := Retree(s.fs, s.fs.names[p := h]).(data := s.fs.data[h := Data(bytes, true)]),
                    placed := s.placed + {(p, bytes)})
  }

  /******* Footprints *******/

  ghost predicate Beside(q: Path, p: Path) { exists n :: 2 <= n < CANDIDATE_LIMIT && p == Candidate(q, n) }

  /** Where a Job stands when the copy's own conflict check begins. */
  ghost predicate Asked(j: Job, p: Path) {
    p == j.dst || (j.isMove && j.policy == KeepBoth && Beside(j.dst, p))
  }

  /** Every name the Job might land on. */
  ghost predicate MayReach(j: Job, p: Path) {
    Asked(j, p) || (j.policy == KeepBoth && exists q :: Asked(j, q) && Beside(q, p))
  }

  /** As `reach`, where nothing that was there to begin with can be the landing
      unless the policy is to replace it. */
  ghost predicate MayLand(c: Config, id: nat, p: Path) {
    id in c.jobs && p in c.reach(id) && (c.calm && c.jobs[id].policy != Replace ==> p !in c.before)
  }

  ghost predicate IsTemp(c: Config, t: Path) {
    exists id, p :: id in c.jobs && p in c.reach(id) && t == TempPathFor(p)
  }

  ghost predicate IsMoveSource(c: Config, p: Path) {
    exists id :: id in c.jobs && c.jobs[id].isMove && c.jobs[id].src == p
  }

  /** A name that another Job of the same request may land on too: the later one
      steers clear of what it finds there, and in a calm machine it finds it. */
  ghost predicate Shared(c: Config, i: nat, k: nat)
    requires i in c.jobs && k in c.jobs
  {
    c.request(i) == c.request(k) && c.calm && c.jobs[i].policy != Replace && c.jobs[k].policy != Replace
  }

  /**
   The hypotheses on a set of Jobs. A Job lands under its source's name, as
   `start_job` arranges; footprints of Jobs that may be active together are
   disjoint, and those of one request at least where files are replaced; sources
   are stable: nobody's footprint, and a moved file is nobody else's source.
   */
  ghost predicate Disjoint(c: Config) {
    && (forall id, p {:trigger MayReach(c.jobs[id], p)} | id in c.jobs :: p in c.reach(id) <==> MayReach(c.jobs[id], p))
    && (forall id | id in c.jobs :: c.jobs[id].src in c.before && c.jobs[id].dst.name == c.jobs[id].src.name)
    && (forall i, k, p | i in c.jobs && k in c.jobs && p in c.reach(i) && p in c.reach(k) :: i == k || Shared(c, i, k))
    && (forall i, k, p, q | i in c.jobs && k in c.jobs && i != k && p in c.reach(i) && q in c.reach(k) ::
          p != TempPathFor(q))
    && (forall i, k, p | i in c.jobs && k in c.jobs && i != k && p in c.reach(i) :: c.jobs[k].src != TempPathFor(p))
    && (forall i, k, p | k in c.jobs && p in c.reach(i) && c.jobs[k].src == p :: !c.jobs[k].isMove && !MayLand(c, i, p))
    && (forall i, k | i in c.jobs && k in c.jobs && i != k && c.jobs[k].isMove :: c.jobs[i].src != c.jobs[k].src)
    && (forall a, b | c.hash(a) == c.hash(b) :: a == b)
  }

  /** A freshly booted machine: every file durable, no hard links, an empty
      journal, no Job under way. Old temp files may be lying about. */
  ghost predicate Init(c: Config, s: Sys) {
    && s.fs.names.Keys == c.before.Keys && s.fs.past == {}
    && (forall p | p in s.fs.names :: Present(s.fs, p) && s.fs.names[p].dev == c.dev(p.dir)
                                      && Read(s.fs, p) == Data(c.before[p], true))
    && (forall p, q | p in s.fs.names && q in s.fs.names && p != q :: s.fs.names[p] != s.fs.names[q])
    && s.jn == Journal(map[], {})
    && s.runs.Keys == c.jobs.Keys && (forall id | id in s.runs :: s.runs[id] == RESTING)
    && s.placed == set p | p in c.before :: (p, c.before[p])
  }

  /** Runs: a start and a step between every two neighbours. */
  ghost predicate IsRun(c: Config, hist: seq<Sys>) {
    && |hist| > 0 && Init(c, hist[0])
    && forall n | 0 <= n < |hist| - 1 :: Steps(c, hist[n], hist[n + 1])
  }

  ghost predicate Steps(c: Config, s: Sys, s': Sys) { exists e :: Next(c, s, e, s') }
}
