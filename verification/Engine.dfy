/**
 The engine as it is written: calls in order, loops, early returns.

 Each method is proved to walk the step machine, call by call, whatever the other
 Jobs do in between; so every theorem about runs is a theorem about this code.
 */
module Engine {
  import opened Wrappers
  import opened Paths
  import opened Disk
  import opened CommitMachine
  import opened CommitInvariant
  import opened CommitLanding
  import opened CommitTheorems

  /** The files whose turn it is not: nobody takes a step of theirs meanwhile. */
  class Waiting {
    ghost var ids: set<nat>

    ghost constructor (ids: set<nat>)
      ensures this.ids == ids
    {
      this.ids := ids;
    }
  }

  /** The disk, the journal, and the threads at work on them. `faults` counts the
      steps of the thread at hand in which a call failed, and `leftovers` those of them
      that were to remove a temp file or to clear an entry. */
  class Kernel {
    ghost const waiting: Waiting
    ghost const c: Config
    const dev: string -> int
    const hash: Bytes -> int
    var fs: Fs
    var jn: Journal
    ghost var runs: map<nat, Run>
    ghost var placed: set<(Path, Bytes)>
    ghost var hist: seq<Sys>
    ghost var faults: nat
    ghost var leftovers: nat

    ghost function Last(): Sys
      reads this, waiting
      requires |hist| > 0
    {
      hist[|hist| - 1]
    }

    /** Mid-step: the disk may be ahead of the recorded run. */
    ghost predicate Busy()
      reads this, waiting
    {
      && |hist| > 0 && IsRun(c, hist) && runs.Keys == c.jobs.Keys && dev == c.dev && hash == c.hash
      && Last().runs == runs && Last().placed == placed
      && forall k | k in waiting.ids :: k in runs && runs[k].at == Idle
    }

    ghost predicate Valid()
      reads this, waiting
    {
      Busy() && Last().fs == fs && Last().jn == jn
    }

    ghost predicate May(id: nat, r: Run)
      reads this, waiting
      requires Busy() && id in c.jobs
    {
      Moves(c, c.jobs[id], PointOf(Last(), id), Point(fs, jn, r))
    }

    ghost predicate OthersWait(id: nat)
      reads waiting
    {
      forall k | k in c.jobs && k != id && c.request(k) == c.request(id) :: k in waiting.ids
    }

    lemma HasItsTurn(id: nat)
      requires Busy() && id in c.jobs && (runs[id].at.Idle? ==> OthersWait(id))
      ensures HasTurn(c, Last().runs, id)
    {
      hide IsRun;
      forall k | k in runs && k != id && c.request(k) == c.request(id) ensures runs[k].at.Idle? {
        OneAtATime(c, hist, |hist| - 1, id, k);
      }
    }

    /** One step is done, `ok` if its calls were; the other Jobs and other processes
        may now take theirs. */
    method Done(ghost id: nat, ghost r: Run, ghost ok: bool)
      requires Busy() && id in c.jobs && id !in waiting.ids && May(id, r)
      requires runs[id].at.Idle? ==> OthersWait(id)
      modifies this
      ensures Valid() && runs[id] == r && old(hist) <= hist
      ensures faults == (if ok then old(faults) else old(faults) + 1) && leftovers == old(leftovers)
    {
      hide IsRun, Moves;
      HasItsTurn(id);
      ghost var s := Last();
      ghost var s' := Sys(fs, jn, runs[id := r], placed);
      Extend(c, hist, id, s');
      runs := runs[id := r];
      hist := hist + [s'];
      faults := if ok then faults else faults + 1;
      Interference(id);
    }

    /** Stands for any number of steps of anybody else, including none. */
    method Interference(ghost id: nat)
      requires Valid() && id in c.jobs
      modifies this
      ensures Valid() && runs[id] == old(runs[id]) && old(hist) <= hist
      ensures faults == old(faults) && leftovers == old(leftovers)
    {
    }

    constructor (ghost c: Config, dev: string -> int, hash: Bytes -> int, fs: Fs, ghost waiting: Waiting)
      requires dev == c.dev && hash == c.hash && Init(c, Boot(c, fs)) && waiting.ids <= c.jobs.Keys
      ensures Valid() && hist == [Boot(c, fs)] && this.c == c && this.waiting == waiting
    {
      this.c, this.waiting := c, waiting;
      this.dev, this.hash, this.fs, this.jn := dev, hash, fs, Journal(map[], {});
      this.runs, this.placed, this.hist, this.faults := Boot(c, fs).runs, Boot(c, fs).placed, [Boot(c, fs)], 0;
      this.leftovers := 0;
    }

    /******* System calls; each may fail *******/

    method Exists(p: Path) returns (there: bool)
      requires Busy()
      ensures MaySay(c, fs, p, there)
    {
      there := p in fs.names;
    }

    method Metadata(p: Path) returns (len: Option<nat>)
      ensures len.Some? ==> Present(fs, p) && len.value == |Read(fs, p).bytes|
    {
      var works: bool := *;
      len := if works && Present(fs, p) then Some(|Read(fs, p).bytes|) else None;
    }

    method SameFilesystem(a: Path, b: Path) returns (same: Option<bool>)
      ensures same.Some? ==> same.value == (dev(a.dir) == dev(b.dir))
    {
      var works: bool := *;
      same := if works then Some(dev(a.dir) == dev(b.dir)) else None;
    }

    method Rename(a: Path, b: Path) returns (ok: bool)
      modifies this`fs
      ensures Renames(old(fs), a, b, ok, fs)
    {
      ok := *;
      if ok && a in fs.names { fs := Retree(fs, (fs.names - {a})[b := fs.names[a]]); } else { ok := false; }
    }

    method RemoveFile(p: Path) returns (ok: bool)
      modifies this`fs
      ensures Unlinks(old(fs), p, ok, fs)
    {
      ok := *;
      if ok && p in fs.names { fs := Retree(fs, fs.names - {p}); } else { ok := false; }
    }

    method OpenTruncated(p: Path) returns (h: Option<Ino>)
      modifies this`fs
      ensures if h.Some? then OpensTruncated(dev, old(fs), p, h.value, fs) else fs == old(fs)
    {
      var n: nat :| true;
      h := None;
      if p in fs.names {
        h := Some(fs.names[p]);
        fs := fs.(data := fs.data[h.value := Data([], false)]);
      } else if Ino(dev(p.dir), n) !in fs.data {
        h := Some(Ino(dev(p.dir), n));
        fs := Retree(fs, fs.names[p := h.value]).(data := fs.data[h.value := Data([], false)]);
      }
    }

    method OpenExisting(p: Path) returns (h: Option<Ino>)
      ensures h.Some? ==> Present(fs, p) && h.value == fs.names[p]
    {
      var works: bool := *;
      h := if works && Present(fs, p) then Some(fs.names[p]) else None;
    }

    method CloneInto(src: Path, h: Ino) returns (ok: bool)
      modifies this`fs
      ensures Clones(old(fs), src, h, ok, fs)
    {
      ok := *;
      if ok && h in fs.data && Present(fs, src) {
        fs := fs.(data := fs.data[h := Data(Read(fs, src).bytes, false)]);
      } else {
        ok := false;
      }
    }

    method SyncAll(h: Ino) returns (ok: bool)
      modifies this`fs
      ensures Syncs(old(fs), h, ok, fs)
    {
      ok := *;
      if ok && h in fs.data { fs := fs.(data := fs.data[h := Data(fs.data[h].bytes, true)]); } else { ok := false; }
    }

    /** The next bytes of a file: none at its end, and none when it ends early. */
    method ReadAt(p: Path, at: nat) returns (w: Option<Bytes>)
      ensures w.Some? && w.value != [] ==>
        && Present(fs, p) && |w.value| <= CHUNK && at + |w.value| <= |Read(fs, p).bytes|
        && w.value == Read(fs, p).bytes[at..at + |w.value|]
    {
      var n: nat :| n <= CHUNK;
      if Present(fs, p) && at + n <= |Read(fs, p).bytes| {
        w := Some(Read(fs, p).bytes[at..at + n]);
      } else {
        w := None;
      }
    }

    /** `put` is what the medium has written down for `w`. */
    method Write(h: Ino, at: nat, w: Bytes) returns (ok: bool, ghost put: Bytes)
      requires Busy()
      modifies this`fs
      ensures ok ==> |put| == |w| && (c.faithful ==> put == w) && Writes(old(fs), h, at, put, fs)
      ensures !ok ==> fs == old(fs) || Writes(old(fs), h, at, put, fs)
    {
      put := w;
      ok := h in fs.data && at <= |fs.data[h].bytes|;
      if ok {
        fs := fs.(data := fs.data[h := Data(WriteAt(fs.data[h].bytes, at, w), false)]);
        ok := *;
      }
    }

    method HashFile(p: Path) returns (h: Option<int>)
      ensures h.Some? ==> Present(fs, p) && h.value == hash(Read(fs, p).bytes)
    {
      var works: bool := *;
      h := if works && Present(fs, p) then Some(hash(Read(fs, p).bytes)) else None;
    }

    method RecordEntry(e: Entry) returns (ok: bool)
      modifies this`jn
      ensures Records(old(jn), e, ok, jn)
    {
      ok := *;
      if ok { jn := Rebook(jn, jn.book[e.destination := e]); }
    }

    method ClearEntry(dst: Path) returns (ok: bool)
      modifies this`jn
      ensures Clears(old(jn), dst, ok, jn)
    {
      ok := *;
      if ok && dst in jn.book { jn := Rebook(jn, jn.book - {dst}); }
    }

    method GetEntry(dst: Path) returns (e: Option<Entry>)
      ensures e.Some? ==> dst in jn.book && e.value == jn.book[dst]
    {
      var works: bool := *;
      e := if works && dst in jn.book then Some(jn.book[dst]) else None;
    }

    /******* Steps: one call of the engine, then anybody else's *******/

    ghost predicate Stepping(id: nat, src: Path, at: At)
      reads this, waiting
    {
      Valid() && Disjoint(c) && id in c.jobs && id in runs && c.jobs[id].src == src && runs[id].at == at
    }

    /** The Job's own variables after the step, and whether a call in it failed;
        everybody else is free to have moved. */
    twostate predicate Stepped(id: nat, r: Run, ok: bool)
      reads this, waiting
    {
      && Valid() && id in runs && old(hist) <= hist && runs[id] == r
      && faults == (if ok then old(faults) else old(faults) + 1) && leftovers == old(leftovers)
    }

    /** After a cleanup a failure leaves something over. */
    twostate predicate Cleaned(id: nat, r: Run, ok: bool)
      reads this, waiting
    {
      && Valid() && id in runs && old(hist) <= hist && runs[id] == r
      && faults == (if ok then old(faults) else old(faults) + 1)
      && leftovers == if ok then old(leftovers) else old(leftovers) + 1
    }

    method RemoveTemp(ghost id: nat, temp: Path, ghost yes: At, ghost no: At) returns (ok: bool)
      requires Valid() && id in c.jobs && temp == TempPathFor(runs[id].dst)
      requires AboutToSweep(runs[id].at, yes, no)
      modifies this
      ensures Cleaned(id, old(runs[id]).(at := if ok then yes else no), ok)
    {
      hide IsRun, Unlinks, Moves, AboutToSweep;
      ghost var r := runs[id];
      ok := RemoveFile(temp);
      SweepMoves(c, c.jobs[id], PointOf(Last(), id), ok, fs, yes, no);
      Done(id, r.(at := if ok then yes else no), ok);
      leftovers := if ok then leftovers else leftovers + 1;
    }

    method ClearJournal(ghost id: nat, dst: Path, ghost yes: At, ghost no: At) returns (ok: bool)
      requires Valid() && id in c.jobs && dst == runs[id].dst
      requires AboutToClear(c.jobs[id], runs[id], yes, no)
      modifies this
      ensures Cleaned(id, old(runs[id]).(at := if ok then yes else no), ok)
    {
      hide IsRun, Clears, Moves, AboutToClear;
      ghost var r := runs[id];
      ok := ClearEntry(dst);
      ClearMoves(c, c.jobs[id], PointOf(Last(), id), ok, jn, yes, no);
      Done(id, r.(at := if ok then yes else no), ok);
      leftovers := if ok then leftovers else leftovers + 1;
    }

    method CommitRename(ghost id: nat, temp: Path, dst: Path, ghost yes: At, ghost no: At) returns (ok: bool)
      requires Valid() && id in c.jobs && dst == runs[id].dst && temp == TempPathFor(dst)
      requires AboutToCommit(c.jobs[id], runs[id], yes, no)
      modifies this
      ensures Stepped(id, old(runs[id]).(at := if ok then yes else no), ok)
    {
      hide IsRun, Renames, Moves, AboutToCommit;
      ghost var r := runs[id];
      ok := Rename(temp, dst);
      CommitMoves(c, c.jobs[id], PointOf(Last(), id), ok, fs, yes, no);
      Done(id, r.(at := if ok then yes else no), ok);
    }

    method Sync(ghost id: nat, h: Ino, ghost yes: At, ghost no: At) returns (ok: bool)
      requires Valid() && id in c.jobs && h == runs[id].h
      requires (runs[id].at == CloneSync && yes == CloneCommit && no == Record)
            || (runs[id].at == At.Sync && yes == Measure && no == Sweep(IoError))
      modifies this
      ensures Stepped(id, old(runs[id]).(at := if ok then yes else no), ok)
    {
      hide IsRun, Unlinks, Renames, Clears, Syncs, Clones, OpensTruncated, Records, ReadsOn, ResumeOffset, Probes,
        Resolves, Candidate;
      ghost var r := runs[id];
      ok := SyncAll(h);
      Done(id, r.(at := if ok then yes else no), ok);
    }

    /** Both ends of a transfer are opened together: the source, then the emptied temp. */
    method OpenBoth(ghost id: nat, src: Path, temp: Path, ghost yes: At, ghost no: At) returns (h: Option<Ino>)
      requires Valid() && id in c.jobs && src == c.jobs[id].src && temp == TempPathFor(runs[id].dst)
      requires (runs[id].at == CloneOpen && yes == CloneIoctl && no == Record)
            || (runs[id].at == Open(0) && yes == Chunk && no == Sweep(IoError))
      modifies this
      ensures Stepped(id, if h.Some? then old(runs[id]).(at := yes, h := h.value,
                                                         total := if yes == Chunk then 0 else old(runs[id]).total)
                          else old(runs[id]).(at := no), h.Some?)
    {
      hide IsRun, Unlinks, Renames, Clears, Syncs, Clones, OpensTruncated, Records, ReadsOn, ResumeOffset, Probes,
        Resolves, Candidate;
      ghost var r := runs[id];
      h := None;
      var s := OpenExisting(src);
      if s.Some? { h := OpenTruncated(temp); }
      Done(id, if h.Some? then r.(at := yes, h := h.value, total := if yes == Chunk then 0 else r.total)
           else r.(at := no), h.Some?);
    }

    /** To go on where an earlier stream stopped, both ends are opened as they are. */
    method OpenResumed(ghost id: nat, src: Path, temp: Path, from: nat) returns (h: Option<Ino>)
      requires Valid() && id in c.jobs && temp == TempPathFor(runs[id].dst) && runs[id].at == Open(from) && from > 0
      modifies this
      ensures Stepped(id, if h.Some? then old(runs[id]).(at := Chunk, h := h.value, total := from)
                          else old(runs[id]).(at := Sweep(IoError)), h.Some?)
    {
      hide IsRun;
      ghost var r := runs[id];
      h := None;
      var s := OpenExisting(src);
      if s.Some? { h := OpenExisting(temp); }
      Done(id, if h.Some? then r.(at := Chunk, h := h.value, total := from) else r.(at := Sweep(IoError)), h.Some?);
    }

    method Clone(ghost id: nat, src: Path, h: Ino) returns (ok: bool)
      requires Valid() && id in c.jobs && src == c.jobs[id].src && h == runs[id].h && runs[id].at == CloneIoctl
      modifies this
      ensures Stepped(id, old(runs[id]).(at := if ok then CloneSync else CloneUndo), ok)
    {
      hide IsRun, Clones;
      ghost var r := runs[id];
      ok := CloneInto(src, h);
      Done(id, r.(at := if ok then CloneSync else CloneUndo), ok);
    }

    method Stat(ghost id: nat, src: Path) returns (len: Option<nat>)
      requires Valid() && id in c.jobs && src == c.jobs[id].src && runs[id].at == At.Stat
      modifies this
      ensures Stepped(id, if len.Some? then old(runs[id]).(at := At.Exists, expected := len.value)
                          else old(runs[id]).(at := Finished(Err(IoError), false)), len.Some?)
    {
      hide IsRun;
      ghost var r := runs[id];
      len := Metadata(src);
      Done(id, if len.Some? then r.(at := At.Exists, expected := len.value)
           else r.(at := Finished(Err(IoError), false)), len.Some?);
    }

    /** The existence check and what the policy makes of it. */
    method Check(ghost id: nat, dst: Path, policy: Policy, ghost go: At, ghost beside: At) returns (there: bool)
      requires Valid() && id in c.jobs && dst == runs[id].dst && policy == c.jobs[id].policy
      requires (runs[id].at == MoveExists && go == MoveSameFs && beside == MoveProbe(2))
            || (runs[id].at == At.Exists && go == SameFs && beside == Probe(2))
      modifies this
      ensures Stepped(id, Resolved(old(runs[id]), there, policy, go, beside), true)
    {
      hide IsRun;
      ghost var r := runs[id];
      there := Exists(dst);
      Done(id, Resolved(r, there, policy, go, beside), true);
    }

    method ProbeOne(ghost id: nat, dst: Path, n: nat, ghost next: At, ghost go: At) returns (there: bool)
      requires Valid() && id in c.jobs && dst == runs[id].dst && n < CANDIDATE_LIMIT
      requires (runs[id].at == MoveProbe(n) && next == MoveProbe(n + 1) && go == MoveSameFs)
            || (runs[id].at == Probe(n) && next == Probe(n + 1) && go == SameFs)
      modifies this
      ensures Stepped(id, if there then old(runs[id]).(at := next)
                          else old(runs[id]).(at := go, dst := Candidate(dst, n)), true)
      ensures MaySay(c, old(fs), Candidate(dst, n), there)
    {
      hide IsRun, Candidate;
      ghost var r := runs[id];
      there := Exists(Candidate(dst, n));
      Done(id, if there then r.(at := next) else r.(at := go, dst := Candidate(dst, n)), true);
    }

    method CompareDevices(ghost id: nat, src: Path, dst: Path, ghost yes: At, ghost no: At) returns (same: Option<bool>)
      requires Valid() && id in c.jobs && src == c.jobs[id].src && dst == runs[id].dst
      requires (runs[id].at == MoveSameFs && yes == MoveRename && no == At.Stat)
            || (runs[id].at == SameFs && yes == CloneOpen && no == Record)
      modifies this
      ensures Stepped(id, old(runs[id]).(at := if same == None then Finished(Err(IoError), false)
                                               else if same.value then yes else no), same.Some?)
      ensures same.Some? ==> same.value == (dev(src.dir) == dev(dst.dir))
    {
      hide IsRun;
      ghost var r := runs[id];
      same := SameFilesystem(src, dst);
      Done(id, r.(at := if same == None then Finished(Err(IoError), false) else if same.value then yes else no),
           same.Some?);
    }

    method RecordInJournal(ghost id: nat, e: Entry) returns (ok: bool)
      requires Valid() && id in c.jobs && runs[id].at == Record
      requires e == Entry(c.jobs[id].src, runs[id].dst, TempPathFor(runs[id].dst), runs[id].expected, e.done,
                          c.jobs[id].checksum)
      requires e.done == 0 || e.done == ResumeOffset(fs, jn, runs[id].dst, runs[id].expected, c.jobs[id].checksum)
      modifies this
      ensures Stepped(id, old(runs[id]).(at := if ok then Open(e.done) else Finished(Err(IoError), false)), ok)
    {
      hide IsRun, Records, ResumeOffset;
      ghost var r := runs[id];
      ok := RecordEntry(e);
      Done(id, r.(at := if ok then Open(e.done) else Finished(Err(IoError), false)), ok);
    }

    /** The next chunk; a read that fails ends the stream. */
    method ReadChunk(ghost id: nat, src: Path, total: nat) returns (w: Option<Bytes>)
      requires Valid() && id in c.jobs && runs[id].at == Chunk
      modifies this
      ensures if w.Some? then Valid() && fs == old(fs) && runs == old(runs) && hist == old(hist)
        && faults == old(faults) && leftovers == old(leftovers)
              else Stepped(id, old(runs[id]).(at := Sweep(IoError)), false)
      ensures w.Some? && w.value != [] ==>
        && Present(fs, src) && |w.value| <= CHUNK && total + |w.value| <= |Read(fs, src).bytes|
        && w.value == Read(fs, src).bytes[total..total + |w.value|]
    {
      hide IsRun;
      w := ReadAt(src, total);
      if w == None { Done(id, runs[id].(at := Sweep(IoError)), false); }
    }

    method WriteChunk(ghost id: nat, h: Ino, total: nat, w: Bytes) returns (ok: bool)
      requires Valid() && id in c.jobs && runs[id].at == Chunk && h == runs[id].h && total == runs[id].total
      requires Copies(c.(faithful := true), c.jobs[id], fs, runs[id], w)
      modifies this
      ensures Stepped(id, if ok then old(runs[id]).(total := total + |w|) else old(runs[id]).(at := Sweep(IoError)), ok)
    {
      hide IsRun, Writes, Moves;
      ghost var r := runs[id];
      ghost var put;
      ok, put := Write(h, total, w);
      if ok { assert Copies(c, c.jobs[id], Last().fs, r, put); }
      WriteMoves(c, c.jobs[id], PointOf(Last(), id), ok, put, fs);
      Done(id, if ok then r.(total := total + |w|) else r.(at := Sweep(IoError)), ok);
    }

    method CompareHashes(ghost id: nat, src: Path, temp: Path, attempt: nat) returns (same: Option<bool>)
      requires Valid() && id in c.jobs && src == c.jobs[id].src && temp == TempPathFor(runs[id].dst)
      requires runs[id].at == Hash(attempt)
      modifies this
      ensures Stepped(id, old(runs[id]).(at := if same == None then Finished(Err(IoError), false)
                                               else if same.value then Commit(Checksummed)
                                               else if attempt == 0 then Hash(1) else Sweep(ChecksumMismatch)),
                                                 same.Some?)
    {
      hide IsRun;
      ghost var r := runs[id];
      var want := HashFile(src);
      var got := HashFile(temp);
      same := if want.Some? && got.Some? then Some(want.value == got.value) else None;
      Done(id, r.(at := if same == None then Finished(Err(IoError), false)
                        else if same.value then Commit(Checksummed)
                        else if attempt == 0 then Hash(1) else Sweep(ChecksumMismatch)), same.Some?);
    }

    method RenameSource(ghost id: nat, src: Path, dst: Path) returns (ok: bool)
      requires Valid() && id in c.jobs && src == c.jobs[id].src && dst == runs[id].dst && runs[id].at == MoveRename
      modifies this
      ensures Stepped(id, old(runs[id]).(at := Finished(if ok then Ok(Moved(dst)) else Err(IoError), false)), ok)
    {
      hide IsRun, Renames;
      ghost var r := runs[id];
      ok := Rename(src, dst);
      Done(id, r.(at := Finished(if ok then Ok(Moved(dst)) else Err(IoError), false)), ok);
    }

    method RemoveSource(ghost id: nat, src: Path) returns (ok: bool)
      requires Valid() && id in c.jobs && src == c.jobs[id].src && runs[id].at == MoveRemove
      modifies this
      ensures Stepped(id, old(runs[id]).(at := Finished(if ok then Ok(Moved(old(runs[id]).dst)) else Err(IoError),
                                                        false)), ok)
    {
      hide IsRun, Unlinks;
      ghost var r := runs[id];
      ok := RemoveFile(src);
      Done(id, r.(at := Finished(if ok then Ok(Moved(r.dst)) else Err(IoError), false)), ok);
    }

    /** A step that calls nothing: the search is over, the loop ends, the size is compared. */
    method Think(ghost id: nat, ghost at: At)
      requires Valid() && id in c.jobs && Concludes(c.jobs[id], runs[id], at)
      modifies this
      ensures Stepped(id, old(runs[id]).(at := at), true)
    {
      hide IsRun;
      Done(id, runs[id].(at := at), true);
    }

    method Begin(ghost id: nat, dst: Path, isMove: bool)
      requires Valid() && id in c.jobs && id !in waiting.ids && runs[id].at == Idle
      requires OthersWait(id) && c.jobs[id].dst == dst && c.jobs[id].isMove == isMove
      modifies this
      ensures Stepped(id, old(runs[id]).(at := if isMove then MoveExists else At.Stat, dst := dst), true)
    {
      hide IsRun;
      Done(id, runs[id].(at := if isMove then MoveExists else At.Stat, dst := dst), true);
    }

    /** The answer has been given, and the next file may have its turn. */
    method Retire(ghost id: nat)
      requires Valid() && id in c.jobs && id !in waiting.ids && runs[id].at.Finished?
      modifies this
      ensures Stepped(id, old(runs[id]).(at := Idle), true)
    {
      hide IsRun;
      Done(id, runs[id].(at := Idle), true);
    }
  }

  /** Where each of these calls is made, and where its success and its failure lead. */
  ghost predicate AboutToSweep(at: At, yes: At, no: At) {
    || (at.Sweep? && yes == SweepBook(at.error, true) && no == SweepBook(at.error, false))
    || (at == CloneUndo && yes == no == Record)
    || (at == CloneDrop && yes == no == Finished(Err(IoError), false))
  }

  ghost predicate AboutToClear(j: Job, r: Run, yes: At, no: At) {
    || (r.at.SweepBook? && yes == Finished(Err(r.at.error), r.at.gone) && no == Finished(Err(r.at.error), false))
    || (r.at.Clear? && yes == EndOf(j, r, r.at.tier) && no == Finished(Err(IoError), false))
  }

  ghost predicate AboutToCommit(j: Job, r: Run, yes: At, no: At) {
    || (r.at == CloneCommit && yes == EndOf(j, r, SharedExtents) && no == CloneDrop)
    || (r.at.Commit? && yes == Clear(r.at.tier) && no == Finished(Err(IoError), false))
  }

  lemma SweepMoves(c: Config, j: Job, x: Point, ok: bool, fs': Fs, yes: At, no: At)
    requires AboutToSweep(x.r.at, yes, no) && Unlinks(x.fs, TempPathFor(x.r.dst), ok, fs')
    ensures !x.r.at.Idle? && Moves(c, j, x, Point(fs', x.jn, x.r.(at := if ok then yes else no)))
  {
    hide Unlinks;
  }

  lemma ClearMoves(c: Config, j: Job, x: Point, ok: bool, jn': Journal, yes: At, no: At)
    requires AboutToClear(j, x.r, yes, no) && Clears(x.jn, x.r.dst, ok, jn')
    ensures !x.r.at.Idle? && Moves(c, j, x, Point(x.fs, jn', x.r.(at := if ok then yes else no)))
  {
    hide Clears;
  }

  lemma WriteMoves(c: Config, j: Job, x: Point, ok: bool, put: Bytes, fs': Fs)
    requires x.r.at == Chunk && (ok ==> Copies(c, j, x.fs, x.r, put))
    requires Writes(x.fs, x.r.h, x.r.total, put, fs') || (!ok && fs' == x.fs)
    ensures Moves(c, j, x, Point(fs', x.jn, if ok then x.r.(total := x.r.total + |put|)
                                            else x.r.(at := Sweep(IoError))))
  {
    hide Writes, Copies;
  }

  lemma CommitMoves(c: Config, j: Job, x: Point, ok: bool, fs': Fs, yes: At, no: At)
    requires AboutToCommit(j, x.r, yes, no) && Renames(x.fs, TempPathFor(x.r.dst), x.r.dst, ok, fs')
    ensures !x.r.at.Idle? && Moves(c, j, x, Point(fs', x.jn, x.r.(at := if ok then yes else no)))
  {
    hide Renames;
  }

  ghost predicate Concludes(j: Job, r: Run, at: At) {
    || ((r.at == MoveProbe(CANDIDATE_LIMIT) || r.at == Probe(CANDIDATE_LIMIT)) && at == Finished(Err(IoError), false))
    || (r.at == Chunk && at == At.Sync)
    || (r.at == Measure && at == if r.total != r.expected then Sweep(SizeMismatch)
                                 else if j.checksum then Hash(0) else Commit(SizeChecked))
  }

  ghost function EndOf(j: Job, r: Run, tier: Tier): At {
    if j.isMove then MoveRemove else Finished(Ok(Copied(tier, r.expected, r.replaced, r.dst)), false)
  }

  ghost function Resolved(r: Run, there: bool, policy: Policy, go: At, beside: At): Run {
    if !there then r.(at := go, replaced := false)
    else match policy
      case Skip => r.(at := SKIPPED)
      case Replace => r.(at := go, replaced := true)
      case KeepBoth => r.(at := beside, replaced := false)
  }

  ghost function Boot(c: Config, fs: Fs): Sys {
    Sys(fs, Journal(map[], {}), map id | id in c.jobs :: RESTING, set p | p in c.before :: (p, c.before[p]))
  }

  lemma Extend(c: Config, hist: seq<Sys>, id: nat, s': Sys)
    requires IsRun(c, hist) && Next(c, hist[|hist| - 1], Step(id), s')
    ensures IsRun(c, hist + [s'])
  {
    hide Next, Init;
    var longer := hist + [s'];
    forall n | 0 <= n < |longer| - 1 ensures Steps(c, longer[n], longer[n + 1]) {
      if n == |hist| - 1 {
        assert Next(c, longer[n], Step(id), longer[n + 1]);
      } else {
        assert Steps(c, hist[n], hist[n + 1]);
      }
    }
  }

  /******* The engine *******/

  /** `p` is the first name beside an occupied `dst` that the disk says is free. */
  ghost predicate LeastFree(c: Config, fs: Fs, dst: Path, p: Path) {
    exists k :: 2 <= k < CANDIDATE_LIMIT && p == Candidate(dst, k) && Beaten(fs, dst, k) && MaySay(c, fs, p, false)
  }

  /** All of the ten thousand are in use. */
  ghost predicate NoneFree(fs: Fs, dst: Path) {
    dst in fs.names && forall n | 2 <= n < 10_000 :: Candidate(dst, n) in fs.names
  }

  /** A free name beside `dst`: the least one, at a moment of the search. `moving` says
      which of the two conflict checks asks. */
  method FreeNameBeside(m: Kernel, ghost id: nat, ghost src: Path, dst: Path, ghost moving: bool)
    returns (free: Option<Path>)
    requires m.Stepping(id, src, if moving then MoveProbe(2) else Probe(2)) && m.runs[id].dst == dst
    modifies m
    ensures m.Valid() && id in m.runs && old(m.hist) <= m.hist
    ensures m.runs[id] == if free.Some?
      then old(m.runs[id]).(at := if moving then MoveSameFs else SameFs, dst := free.value)
                          else old(m.runs[id]).(at := Finished(Err(IoError), false))
    ensures free.Some? ==>
      exists k :: |old(m.hist)| - 1 <= k < |m.hist| && LeastFree(m.c, m.hist[k].fs, dst, free.value)
    ensures free.None? ==> exists k :: |old(m.hist)| - 1 <= k < |m.hist| && NoneFree(m.hist[k].fs, dst)
    ensures m.faults == old(m.faults) && m.leftovers == old(m.leftovers)
  {
    hide IsRun, Disjoint, Moves, Kernel.Valid, Candidate, LeastFree, NoneFree, Beaten, MaySay;
    ghost var r := m.runs[id];
    HasHistory(m);
    for n: nat := 2 to CANDIDATE_LIMIT
      invariant m.Stepping(id, src, if moving then MoveProbe(n) else Probe(n)) && old(m.hist) <= m.hist
        && |old(m.hist)| > 0
      invariant m.runs[id] == r.(at := if moving then MoveProbe(n) else Probe(n))
      invariant m.faults == old(m.faults) && m.leftovers == old(m.leftovers)
    {
      ghost var k := |m.hist| - 1;
      TakenSoFar(m, id, src, n);
      var there := m.ProbeOne(id, dst, n, if moving then MoveProbe(n + 1) else Probe(n + 1),
                              if moving then MoveSameFs else SameFs);
      if !there {
        IsLeastFree(m.c, m.hist[k].fs, dst, n);
        return Some(Candidate(dst, n));
      }
    }
    TakenSoFar(m, id, src, CANDIDATE_LIMIT);
    AllTaken(m.fs, dst);
    ghost var searched := m.hist;
    m.Think(id, Finished(Err(IoError), false));
    assert m.hist[|searched| - 1] == searched[|searched| - 1];
    return None;
  }

  lemma AllTaken(fs: Fs, dst: Path)
    requires Beaten(fs, dst, CANDIDATE_LIMIT)
    ensures NoneFree(fs, dst)
  {
    hide Candidate;
  }

  lemma IsLeastFree(c: Config, fs: Fs, dst: Path, n: nat)
    requires 2 <= n < CANDIDATE_LIMIT && Beaten(fs, dst, n) && MaySay(c, fs, Candidate(dst, n), false)
    ensures LeastFree(c, fs, dst, Candidate(dst, n))
  {
  }

  lemma HasHistory(m: Kernel)
    requires m.Valid()
    ensures |m.hist| > 0
  {
  }

  /** What the search has seen so far is still so. */
  lemma TakenSoFar(m: Kernel, id: nat, src: Path, n: nat)
    requires m.Stepping(id, src, MoveProbe(n)) || m.Stepping(id, src, Probe(n))
    ensures |m.hist| > 0 && m.hist[|m.hist| - 1].fs == m.fs && Beaten(m.fs, m.runs[id].dst, n)
  {
    hide IsRun, Disjoint;
    Known(m.c, m.hist, |m.hist| - 1, id);
    RunLands(m.c, m.hist, |m.hist| - 1);
    assert LandingOk(m.c, id, PointOf(m.hist[|m.hist| - 1], id));
  }

  /** Neither the temp file nor the entry of a copy to `dst` is there. */
  ghost predicate Clean(m: Kernel, dst: Path)
    reads m
  {
    TempPathFor(dst) !in m.fs.names && dst !in m.jn.book
  }

  /** The tier is that of the way the bytes went: checked by their number or, if asked
      for, by their hash where they were written, and shared where they were cloned. */
  predicate TierFits(res: Result, checksum: bool, cloned: bool) {
    res.Ok? && res.outcome.Copied? ==>
      res.outcome.tier == if cloned then SharedExtents else if checksum then Checksummed else SizeChecked
  }

  /** On one device, and nowhere else, the bytes are shared, unless some call failed. */
  ghost predicate SharesWhereItCan(m: Kernel, src: Path, res: Result, checksum: bool, failed: bool)
    reads m
  {
    res.Ok? && res.outcome.Copied? ==>
      var same := m.dev(src.dir) == m.dev(res.outcome.committedAs.dir);
      TierFits(res, checksum, same) || (same && failed && TierFits(res, checksum, false))
  }

  /** A comparison that failed, of sizes or of hashes. */
  predicate Wrong(e: Option<Error>) { e == Some(SizeMismatch) || e == Some(ChecksumMismatch) }

  function ErrorOf(res: Result): Option<Error> { if res.Err? then Some(res.error) else None }

  method TryReflinkIntoTemp(m: Kernel, ghost id: nat, src: Path, temp: Path) returns (cloned: bool)
    requires m.Stepping(id, src, CloneOpen) && temp == TempPathFor(m.runs[id].dst)
    modifies m
    ensures m.Valid() && id in m.runs && old(m.hist) <= m.hist
    ensures m.runs[id] == old(m.runs[id]).(at := if cloned then CloneCommit else Record, h := m.runs[id].h)
    ensures 0 <= m.leftovers - old(m.leftovers) <= m.faults - old(m.faults)
    ensures (!cloned ==> m.faults > old(m.faults))
  {
    hide IsRun, Disjoint, Moves, Kernel.Valid;
    cloned := false;
    var h := m.OpenBoth(id, src, temp, CloneIoctl, Record);
    if h == None { return; }
    var ok := m.Clone(id, src, h.value);
    if ok {
      cloned := m.Sync(id, h.value, CloneCommit, Record);
    } else {
      var _ := m.RemoveTemp(id, temp, Record, Record);
    }
  }

  /** `let _ = remove_file(temp); let _ = journal.clear(dst);` */
  method Discard(m: Kernel, ghost id: nat, ghost src: Path, temp: Path, dst: Path, ghost e: Error)
    requires m.Stepping(id, src, Sweep(e)) && dst == m.runs[id].dst && temp == TempPathFor(dst)
    modifies m
    ensures m.Valid() && id in m.runs && old(m.hist) <= m.hist && m.runs[id].at.Finished?
      && m.runs[id].at.result == Err(e)
    ensures 0 <= m.leftovers - old(m.leftovers) <= m.faults - old(m.faults)
    ensures (m.leftovers == old(m.leftovers) ==> Clean(m, m.runs[id].dst))
  {
    hide IsRun, Disjoint, Moves, Kernel.Valid;
    var gone := m.RemoveTemp(id, temp, SweepBook(e, true), SweepBook(e, false));
    var _ := m.ClearJournal(id, dst, Finished(Err(e), gone), Finished(Err(e), false));
    SweptIsClean(m, id, e);
  }

  lemma SweptIsClean(m: Kernel, id: nat, e: Error)
    requires m.Valid() && Disjoint(m.c) && id in m.c.jobs && id in m.runs
    ensures m.runs[id].at == Finished(Err(e), true) ==> Clean(m, m.runs[id].dst)
  {
    hide IsRun, Disjoint;
    JournalCovers(m.c, m.hist, |m.hist| - 1, id);
  }

  method ResumePoint(m: Kernel, dst: Path, temp: Path, expected: nat, checksum: bool) returns (from: nat)
    requires temp == TempPathFor(dst)
    ensures from == 0 || from == ResumeOffset(m.fs, m.jn, dst, expected, checksum)
    ensures from > 0 ==>
      && Present(m.fs, temp) && dst in m.jn.book
      && var e := m.jn.book[dst];
         && e.temp == temp && e.expected == expected && e.checksum == checksum
         && from == |Read(m.fs, temp).bytes| == e.done < expected
  {
    from := 0;
    var entry := m.GetEntry(dst);
    if entry == None { return; }
    var e := entry.value;
    if e.temp != temp || e.expected != expected || e.checksum != checksum { return; }
    var len := m.Metadata(temp);
    if len.Some? && len.value == e.done && len.value < expected { from := len.value; }
  }

  /** Copy chunk by chunk, from `from` on, until the source is at an end, and make it durable. */
  method Stream(m: Kernel, ghost id: nat, src: Path, temp: Path, from: nat) returns (written: Option<nat>)
    requires m.Stepping(id, src, Open(from)) && temp == TempPathFor(m.runs[id].dst)
    modifies m
    ensures m.Valid() && id in m.runs && old(m.hist) <= m.hist
    ensures m.runs[id] == old(m.runs[id]).(at := if written.Some? then Measure else Sweep(IoError),
                                           h := m.runs[id].h, total := m.runs[id].total)
    ensures written.Some? ==> written.value == m.runs[id].total
    ensures 0 <= m.leftovers - old(m.leftovers) <= m.faults - old(m.faults)
    ensures (written == None ==> m.faults > old(m.faults))
  {
    hide IsRun, Disjoint, Moves, Kernel.Valid;
    var h := OpenStream(m, id, src, temp, from);
    if h == None { return None; }
    written := StreamChunks(m, id, src, h.value, from);
    if written == None { return; }
    m.Think(id, At.Sync);
    var ok := m.Sync(id, h.value, Measure, Sweep(IoError));
    if !ok { written := None; }
  }

  method OpenStream(m: Kernel, ghost id: nat, src: Path, temp: Path, from: nat) returns (h: Option<Ino>)
    requires m.Stepping(id, src, Open(from)) && temp == TempPathFor(m.runs[id].dst)
    modifies m
    ensures m.Stepped(id, if h.Some? then old(m.runs[id]).(at := Chunk, h := h.value, total := from)
                          else old(m.runs[id]).(at := Sweep(IoError)), h.Some?)
  {
    hide IsRun, Disjoint, Moves, Kernel.Valid;
    if from > 0 {
      h := m.OpenResumed(id, src, temp, from);
    } else {
      h := m.OpenBoth(id, src, temp, Chunk, Sweep(IoError));
    }
  }

  method StreamChunks(m: Kernel, ghost id: nat, src: Path, h: Ino, from: nat) returns (written: Option<nat>)
    requires m.Stepping(id, src, Chunk) && m.runs[id].h == h && m.runs[id].total == from
    modifies m
    ensures m.Valid() && id in m.runs && old(m.hist) <= m.hist
    ensures m.runs[id] == old(m.runs[id]).(at := if written.Some? then Chunk else Sweep(IoError),
                                           total := m.runs[id].total)
    ensures written.Some? ==> written.value == m.runs[id].total
    ensures 0 <= m.leftovers - old(m.leftovers) <= m.faults - old(m.faults)
    ensures (written == None ==> m.faults > old(m.faults))
  {
    hide IsRun, Disjoint, Moves, Kernel.Valid;
    var total := from;
    StableSource(m, id, src);
    while true
      invariant m.Stepping(id, src, Chunk) && old(m.hist) <= m.hist
      invariant 0 <= m.leftovers - old(m.leftovers) <= m.faults - old(m.faults)
      invariant m.runs[id] == old(m.runs[id]).(total := total)
      invariant src in m.c.before && total <= |m.c.before[src]|
      decreases |m.c.before[src]| - total
    {
      var w := m.ReadChunk(id, src, total);
      if w == None { return None; }
      if w.value == [] { break; }
      StableSource(m, id, src);
      var ok := m.WriteChunk(id, h, total, w.value);
      if !ok { return None; }
      total := total + |w.value|;
    }
    return Some(total);
  }

  /** What makes the loop end: the source does not grow. */
  lemma StableSource(m: Kernel, id: nat, src: Path)
    requires m.Stepping(id, src, Chunk)
    ensures src in m.c.before && m.runs[id].total <= |m.c.before[src]|
    ensures Present(m.fs, src) ==> Read(m.fs, src).bytes == m.c.before[src]
  {
    hide IsRun, Disjoint;
    Known(m.c, m.hist, |m.hist| - 1, id);
    if Present(m.fs, src) { SourceIsUntouched(m.c, m.hist, |m.hist| - 1, id, m.fs.names); }
  }

  /** Hash both files, twice if need be. */
  method VerifyWithRetry(m: Kernel, ghost id: nat, src: Path, temp: Path, dst: Path) returns (r: Option<Error>)
    requires m.Stepping(id, src, Hash(0)) && dst == m.runs[id].dst && temp == TempPathFor(dst)
    modifies m
    ensures m.Valid() && id in m.runs && old(m.hist) <= m.hist
    ensures if r.Some? then m.runs[id].at.Finished? && m.runs[id].at.result == Err(r.value)
            else m.runs[id] == old(m.runs[id]).(at := Commit(Checksummed))
    ensures 0 <= m.leftovers - old(m.leftovers) <= m.faults - old(m.faults)
    ensures (r == Some(IoError) ==> m.faults > old(m.faults))
    ensures Wrong(r) && m.leftovers == old(m.leftovers) ==> Clean(m, m.runs[id].dst)
  {
    hide IsRun, Disjoint, Moves, Clean, Kernel.Valid;
    ghost var run := m.runs[id];
    for attempt: nat := 0 to 2
      invariant m.Stepping(id, src, if attempt < 2 then Hash(attempt) else Sweep(ChecksumMismatch))
      invariant m.runs[id] == run.(at := m.runs[id].at) && old(m.hist) <= m.hist
      invariant 0 <= m.leftovers - old(m.leftovers) <= m.faults - old(m.faults)
    {
      var same := m.CompareHashes(id, src, temp, attempt);
      if same == None { return Some(IoError); }
      if same.value { return None; }
    }
    Discard(m, id, src, temp, dst, ChecksumMismatch);
    return Some(ChecksumMismatch);
  }

  /** A copy's end: finished with `res`, or a move's source is all that is left. */
  ghost predicate Copying(m: Kernel, id: nat, res: Result)
    reads m
    requires id in m.c.jobs && id in m.runs
  {
    if m.c.jobs[id].isMove && res.Ok? && res.outcome.Copied? then
      m.runs[id].at == MoveRemove && m.runs[id].dst == res.outcome.committedAs
    else m.runs[id].at.Finished? && m.runs[id].at.result == res
  }

  /** The streamed path, from the journal entry to the commit. */
  method StreamAndCommit(m: Kernel, ghost id: nat, src: Path, dst: Path, expected: nat, checksum: bool, replaced: bool)
    returns (res: Result)
    requires m.Stepping(id, src, Record) && m.c.jobs[id].checksum == checksum
    requires m.runs[id].dst == dst && m.runs[id].expected == expected && m.runs[id].replaced == replaced
    modifies m
    ensures m.Valid() && id in m.runs && old(m.hist) <= m.hist && Copying(m, id, res)
    ensures 0 <= m.leftovers - old(m.leftovers) <= m.faults - old(m.faults)
    ensures (res == Err(IoError) ==> m.faults > old(m.faults))
    ensures Wrong(ErrorOf(res)) && m.leftovers == old(m.leftovers) ==> Clean(m, m.runs[id].dst)
    ensures TierFits(res, checksum, false)
    ensures res.Ok? ==> res.outcome.Copied? && res.outcome.committedAs == dst
  {
    hide IsRun, Disjoint, Moves, Clean, Kernel.Valid, ResumeOffset;
    var temp := TempPathFor(dst);
    var from := ResumePoint(m, dst, temp, expected, checksum);
    var ok := m.RecordInJournal(id, Entry(src, dst, temp, expected, from, checksum));
    if !ok { return Err(IoError); }
    var written := Stream(m, id, src, temp, from);
    if written == None {
      Discard(m, id, src, temp, dst, IoError);
      return Err(IoError);
    }
    res := CheckAndCommit(m, id, src, temp, dst, expected, checksum, replaced, written.value);
  }

  /** The unconditional size check, and what follows it. */
  method CheckAndCommit(m: Kernel, ghost id: nat, src: Path, temp: Path, dst: Path, expected: nat, checksum: bool,
                        replaced: bool, written: nat)
    returns (res: Result)
    requires m.Stepping(id, src, Measure) && temp == TempPathFor(dst) && m.c.jobs[id].checksum == checksum
    requires m.runs[id].dst == dst && m.runs[id].expected == expected && m.runs[id].replaced == replaced
    requires m.runs[id].total == written
    modifies m
    ensures m.Valid() && id in m.runs && old(m.hist) <= m.hist && Copying(m, id, res)
    ensures 0 <= m.leftovers - old(m.leftovers) <= m.faults - old(m.faults)
    ensures (res == Err(IoError) ==> m.faults > old(m.faults))
    ensures Wrong(ErrorOf(res)) && m.leftovers == old(m.leftovers) ==> Clean(m, m.runs[id].dst)
    ensures TierFits(res, checksum, false)
    ensures res.Ok? ==> res.outcome.Copied? && res.outcome.committedAs == dst
  {
    hide IsRun, Disjoint, Moves, Clean, Kernel.Valid;
    m.Think(id, if written != expected then Sweep(SizeMismatch) else if checksum then Hash(0) else Commit(SizeChecked));
    if written != expected {
      Discard(m, id, src, temp, dst, SizeMismatch);
      return Err(SizeMismatch);
    }
    res := VerifyAndCommit(m, id, src, temp, dst, expected, checksum, replaced);
  }

  method VerifyAndCommit(m: Kernel, ghost id: nat, src: Path, temp: Path, dst: Path, expected: nat, checksum: bool,
                         replaced: bool)
    returns (res: Result)
    requires m.Stepping(id, src, if checksum then Hash(0) else Commit(SizeChecked)) && temp == TempPathFor(dst)
    requires m.runs[id].dst == dst && m.runs[id].expected == expected && m.runs[id].replaced == replaced
    modifies m
    ensures m.Valid() && id in m.runs && old(m.hist) <= m.hist && Copying(m, id, res)
    ensures 0 <= m.leftovers - old(m.leftovers) <= m.faults - old(m.faults)
    ensures (res == Err(IoError) ==> m.faults > old(m.faults))
    ensures Wrong(ErrorOf(res)) && m.leftovers == old(m.leftovers) ==> Clean(m, m.runs[id].dst)
    ensures TierFits(res, checksum, false)
    ensures res.Ok? ==> res.outcome.Copied? && res.outcome.committedAs == dst
  {
    hide IsRun, Disjoint, Moves, Clean, Kernel.Valid;
    var tier := SizeChecked;
    if checksum {
      var bad := VerifyWithRetry(m, id, src, temp, dst);
      if bad.Some? { return Err(bad.value); }
      tier := Checksummed;
    }
    res := CommitAndClear(m, id, temp, dst, expected, replaced, tier);
  }

  /** The commit, and only then the end of the journal's entry. */
  method CommitAndClear(m: Kernel, ghost id: nat, temp: Path, dst: Path, expected: nat, replaced: bool, tier: Tier)
    returns (res: Result)
    requires m.Valid() && Disjoint(m.c) && id in m.c.jobs && id in m.runs && m.runs[id].at == Commit(tier)
    requires temp == TempPathFor(dst) && m.runs[id].dst == dst && m.runs[id].expected == expected
    requires m.runs[id].replaced == replaced
    modifies m
    ensures m.Valid() && id in m.runs && old(m.hist) <= m.hist && Copying(m, id, res)
    ensures 0 <= m.leftovers - old(m.leftovers) <= m.faults - old(m.faults)
    ensures (res == Err(IoError) ==> m.faults > old(m.faults)) && !Wrong(ErrorOf(res))
    ensures res.Ok? ==> res == Ok(Copied(tier, expected, replaced, dst))
  {
    hide IsRun, Disjoint, Moves, Kernel.Valid;
    ghost var end := EndOf(m.c.jobs[id], m.runs[id], tier);
    var ok := m.CommitRename(id, temp, dst, Clear(tier), Finished(Err(IoError), false));
    if !ok { return Err(IoError); }
    ok := m.ClearJournal(id, dst, end, Finished(Err(IoError), false));
    return if ok then Ok(Copied(tier, expected, replaced, dst)) else Err(IoError);
  }

  /** What to do about an occupied destination: go on to a name, or stop. */
  datatype Choice = Go(dst: Path) | Stop(res: Result)

  /** The answer arrived with the Job; nothing is asked here. */
  method ResolveConflict(m: Kernel, ghost id: nat, ghost src: Path, asked: Path, policy: Policy, ghost moving: bool)
    returns (existed: bool, choice: Choice)
    requires m.Stepping(id, src, if moving then MoveExists else At.Exists) && m.runs[id].dst == asked
    requires m.c.jobs[id].policy == policy
    modifies m
    ensures m.Valid() && id in m.runs && old(m.hist) <= m.hist
    ensures match choice
            case Go(dst) => m.runs[id] == old(m.runs[id]).(at := if moving then MoveSameFs else SameFs, dst := dst,
                                                           replaced := existed && policy == Replace)
            case Stop(res) => m.runs[id].at.Finished? && m.runs[id].at.result == res
                              && ((res == Err(IoError) && policy == KeepBoth)
                                  || (res == Ok(SkippedExisting) && policy == Skip))
    ensures m.faults == old(m.faults) && m.leftovers == old(m.leftovers)
  {
    hide IsRun, Disjoint, Moves, Kernel.Valid;
    existed := m.Check(id, asked, policy, if moving then MoveSameFs else SameFs,
                       if moving then MoveProbe(2) else Probe(2));
    if !existed { return existed, Go(asked); }
    match policy
    case Skip => choice := Stop(Ok(SkippedExisting));
    case Replace => choice := Go(asked);
    case KeepBoth =>
      var free := FreeNameBeside(m, id, src, asked, moving);
      choice := if free.Some? then Go(free.value) else Stop(Err(IoError));
  }

  /** The fast path still goes through the temp name and the commit rename; the
      journal is not told. No answer means: copy the ordinary way. */
  method CloneAndCommit(m: Kernel, ghost id: nat, src: Path, temp: Path, dst: Path, expected: nat, replaced: bool)
    returns (res: Option<Result>)
    requires m.Stepping(id, src, CloneOpen) && temp == TempPathFor(dst)
    requires m.runs[id].dst == dst && m.runs[id].expected == expected && m.runs[id].replaced == replaced
    modifies m
    ensures m.Valid() && id in m.runs && old(m.hist) <= m.hist
    ensures if res.Some? then Copying(m, id, res.value)
            else m.runs[id] == old(m.runs[id]).(at := Record, h := m.runs[id].h)
    ensures 0 <= m.leftovers - old(m.leftovers) <= m.faults - old(m.faults)
    ensures (res == Some(Err(IoError)) || res == None ==> m.faults > old(m.faults))
    ensures res.Some? ==> (Wrong(ErrorOf(res.value)) && m.leftovers == old(m.leftovers) ==> Clean(m, m.runs[id].dst))
    ensures res.Some? && res.value.Ok? ==> res.value == Ok(Copied(SharedExtents, expected, replaced, dst))
  {
    hide IsRun, Disjoint, Moves, Clean, Kernel.Valid;
    var cloned := TryReflinkIntoTemp(m, id, src, temp);
    if !cloned { return None; }
    ghost var end := EndOf(m.c.jobs[id], m.runs[id], SharedExtents);
    var ok := m.CommitRename(id, temp, dst, end, CloneDrop);
    if ok { return Some(Ok(Copied(SharedExtents, expected, replaced, dst))); }
    var _ := m.RemoveTemp(id, temp, Finished(Err(IoError), false), Finished(Err(IoError), false));
    return Some(Err(IoError));
  }

  /** Fill the temp name by the fast path where there is one, by streaming otherwise, and commit. */
  method CopyTo(m: Kernel, ghost id: nat, src: Path, dst: Path, expected: nat, checksum: bool, replaced: bool)
    returns (res: Result)
    requires m.Stepping(id, src, SameFs) && m.c.jobs[id].checksum == checksum
    requires m.runs[id].dst == dst && m.runs[id].expected == expected && m.runs[id].replaced == replaced
    modifies m
    ensures m.Valid() && id in m.runs && old(m.hist) <= m.hist && Copying(m, id, res)
    ensures 0 <= m.leftovers - old(m.leftovers) <= m.faults - old(m.faults)
    ensures (res == Err(IoError) ==> m.faults > old(m.faults))
    ensures Wrong(ErrorOf(res)) && m.leftovers == old(m.leftovers) ==> Clean(m, m.runs[id].dst)
    ensures SharesWhereItCan(m, src, res, checksum, m.faults > old(m.faults))
  {
    hide IsRun, Disjoint, Moves, Clean, Kernel.Valid;
    var temp := TempPathFor(dst);
    var same := m.CompareDevices(id, src, dst, CloneOpen, Record);
    if same == None { return Err(IoError); }
    if same.value {
      var fast := CloneAndCommit(m, id, src, temp, dst, expected, replaced);
      if fast.Some? { return fast.value; }
    }
    res := StreamAndCommit(m, id, src, dst, expected, checksum, replaced);
  }

  method CopyFileWith(m: Kernel, ghost id: nat, src: Path, asked: Path, checksum: bool, policy: Policy)
    returns (res: Result)
    requires m.Stepping(id, src, At.Stat) && m.runs[id].dst == asked
    requires m.c.jobs[id].checksum == checksum && m.c.jobs[id].policy == policy
    modifies m
    ensures m.Valid() && id in m.runs && old(m.hist) <= m.hist && Copying(m, id, res)
    ensures 0 <= m.leftovers - old(m.leftovers) <= m.faults - old(m.faults)
    ensures (res == Err(IoError) ==> m.faults > old(m.faults) || policy == KeepBoth)
    ensures Wrong(ErrorOf(res)) && m.leftovers == old(m.leftovers) ==> Clean(m, m.runs[id].dst)
    ensures SharesWhereItCan(m, src, res, checksum, m.faults > old(m.faults))
  {
    hide IsRun, Disjoint, Moves, Clean, Kernel.Valid;
    var len := m.Stat(id, src);
    if len == None { return Err(IoError); }
    var expected := len.value;
    var existed, choice := ResolveConflict(m, id, src, asked, policy, false);
    if choice.Stop? { return choice.res; }
    var dst := choice.dst;
    res := CopyTo(m, id, src, dst, expected, checksum, existed && policy == Replace);
  }

  /** Between devices: the source is removed only when the copy has landed. */
  method MoveAcross(m: Kernel, ghost id: nat, src: Path, dst: Path, checksum: bool, policy: Policy)
    returns (res: Result)
    requires m.Stepping(id, src, At.Stat) && m.runs[id].dst == dst && m.c.jobs[id].isMove
    requires m.c.jobs[id].checksum == checksum && m.c.jobs[id].policy == policy
    modifies m
    ensures m.Valid() && id in m.runs && old(m.hist) <= m.hist && m.runs[id].at.Finished? && m.runs[id].at.result == res
    ensures 0 <= m.leftovers - old(m.leftovers) <= m.faults - old(m.faults)
    ensures (res == Err(IoError) ==> m.faults > old(m.faults) || policy == KeepBoth)
    ensures Wrong(ErrorOf(res)) && m.leftovers == old(m.leftovers) ==> Clean(m, m.runs[id].dst)
  {
    hide IsRun, Disjoint, Moves, Clean, Kernel.Valid;
    var outcome := CopyFileWith(m, id, src, dst, checksum, policy);
    if outcome.Ok? && outcome.outcome.Copied? {
      var ok := m.RemoveSource(id, src);
      return if ok then Ok(Moved(outcome.outcome.committedAs)) else Err(IoError);
    }
    return outcome;
  }

  method MoveFileWith(m: Kernel, ghost id: nat, src: Path, asked: Path, checksum: bool, policy: Policy)
    returns (res: Result)
    requires m.Stepping(id, src, MoveExists) && m.runs[id].dst == asked && m.c.jobs[id].isMove
    requires m.c.jobs[id].checksum == checksum && m.c.jobs[id].policy == policy
    modifies m
    ensures m.Valid() && id in m.runs && old(m.hist) <= m.hist && m.runs[id].at.Finished? && m.runs[id].at.result == res
    ensures 0 <= m.leftovers - old(m.leftovers) <= m.faults - old(m.faults)
    ensures (res == Err(IoError) ==> m.faults > old(m.faults) || policy == KeepBoth)
    ensures Wrong(ErrorOf(res)) && m.leftovers == old(m.leftovers) ==> Clean(m, m.runs[id].dst)
  {
    hide IsRun, Disjoint, Moves, Clean, Kernel.Valid;
    var _, choice := ResolveConflict(m, id, src, asked, policy, true);
    if choice.Stop? { return choice.res; }
    var dst := choice.dst;
    var same := m.CompareDevices(id, src, dst, MoveRename, At.Stat);
    if same == None { return Err(IoError); }
    if same.value {
      var ok := m.RenameSource(id, src, dst);
      return if ok then Ok(Moved(dst)) else Err(IoError);
    }
    res := MoveAcross(m, id, src, dst, checksum, policy);
  }

  /** What an answer of the engine is worth in state `s`: the file is at the name asked
      for or at the least free one beside it, whole, durable where it was copied. */
  ghost predicate Worth(c: Config, s: Sys, j: Job, o: Outcome)
    requires j.src in c.before
  {
    && (o.Copied? ==>
          && !j.isMove && Present(s.fs, o.committedAs) && LandsLeast(s.fs, j, o.committedAs)
          && o.bytes == |c.before[j.src]| && Read(s.fs, o.committedAs).synced
          && (c.faithful || o.tier != SizeChecked ==> Read(s.fs, o.committedAs).bytes == c.before[j.src])
          && (j.checksum ==> o.tier != SizeChecked))
    && (o.Moved? ==>
          && j.isMove && j.src !in s.fs.names && Present(s.fs, o.committedAs) && LandsLeast(s.fs, j, o.committedAs)
          && |Read(s.fs, o.committedAs).bytes| == |c.before[j.src]|
          && (c.faithful || j.checksum ==> Read(s.fs, o.committedAs).bytes == c.before[j.src]))
    && (o == SkippedExisting ==> j.policy == Skip && j.dst in s.fs.names)
  }

  /** One file of a Job, as its runner calls the engine, and what its answer is worth
      at the moment it is given, with every other Job still at work. */
  method Transfer(m: Kernel, ghost id: nat, src: Path, dst: Path, checksum: bool, policy: Policy, isMove: bool)
    returns (res: Result)
    requires m.Stepping(id, src, Idle) && m.c.jobs[id] == Job(src, dst, checksum, policy, isMove)
    requires id !in m.waiting.ids && m.OthersWait(id)
    modifies m
    ensures m.Valid() && id in m.runs && old(m.hist) <= m.hist && m.runs[id].at.Finished?
    ensures src in m.c.before && (res.Ok? ==> Worth(m.c, m.Last(), m.c.jobs[id], res.outcome))
    ensures 0 <= m.leftovers - old(m.leftovers) <= m.faults - old(m.faults)
    ensures (res == Err(IoError) ==> m.faults > old(m.faults) || policy == KeepBoth)
    ensures Wrong(ErrorOf(res)) && m.leftovers == old(m.leftovers) ==> Clean(m, m.runs[id].dst)
  {
    hide IsRun, Disjoint, Moves, Clean, Kernel.Valid, Worth;
    m.Begin(id, dst, isMove);
    if isMove {
      res := MoveFileWith(m, id, src, dst, checksum, policy);
    } else {
      res := CopyFileWith(m, id, src, dst, checksum, policy);
    }
    IsWorth(m, id, res);
  }

  lemma IsWorth(m: Kernel, id: nat, res: Result)
    requires m.Valid() && Disjoint(m.c) && id in m.c.jobs && m.runs[id].at.Finished? && m.runs[id].at.result == res
    ensures m.c.jobs[id].src in m.c.before && |m.hist| > 0
    ensures res.Ok? ==> Worth(m.c, m.Last(), m.c.jobs[id], res.outcome)
  {
    hide IsRun, Disjoint, LandsLeast;
    var n := |m.hist| - 1;
    Known(m.c, m.hist, n, id);
    if res.Ok? && res.outcome.Copied? { CopiedIsTrue(m.c, m.hist, n, id); }
    if res.Ok? && res.outcome.Moved? { MovedIsTrue(m.c, m.hist, n, id); }
    if res == Ok(SkippedExisting) { SkippedIsTrue(m.c, m.hist, n, id); }
    if res.Ok? && !res.outcome.SkippedExisting? { LandsAtTheLeast(m.c, m.hist, n, id); }
  }

  /** The transfer, the length of what a move landed where it can be asked, and the
      end of the file's turn. */
  method Serve(m: Kernel, ghost id: nat, src: Path, dst: Path, checksum: bool, policy: Policy, isMove: bool)
    returns (res: Result, size: Option<nat>)
    requires m.Stepping(id, src, Idle) && m.c.jobs[id] == Job(src, dst, checksum, policy, isMove)
    requires id !in m.waiting.ids && m.OthersWait(id)
    modifies m
    ensures m.Valid() && id in m.runs && m.runs[id].at == Idle && old(m.hist) <= m.hist && |m.hist| > 0
    ensures src in m.c.before
    ensures res.Ok? ==>
      && WasWorth(m.c, m.hist, |old(m.hist)| - 1, m.c.jobs[id], res.outcome)
      && (res.outcome.Moved? && size.Some? ==> size.value == |m.c.before[src]|)
  {
    hide IsRun, Disjoint, Moves, Worth, Kernel.Valid;
    HasHistory(m);
    res := Transfer(m, id, src, dst, checksum, policy, isMove);
    ghost var answered := m.hist;
    HasHistory(m);
    size := None;
    if res.Ok? && res.outcome.Moved? {
      size := m.Metadata(res.outcome.committedAs);
      IsItsLength(m, m.c.jobs[id], res.outcome);
    }
    m.Retire(id);
    if res.Ok? { assert m.hist[|answered| - 1] == answered[|answered| - 1]; }
  }

  /** One file's turn, while the other files of its request wait. */
  method TakeTurn(m: Kernel, ghost id: nat, src: Path, dst: Path, checksum: bool, policy: Policy, isMove: bool)
    returns (res: Result, size: Option<nat>)
    requires m.Valid() && Disjoint(m.c) && id in m.waiting.ids && m.OthersWait(id)
    requires id in m.c.jobs && m.c.jobs[id] == Job(src, dst, checksum, policy, isMove)
    modifies m, m.waiting
    ensures m.Valid() && old(m.hist) <= m.hist && m.waiting.ids == old(m.waiting.ids) && |m.hist| > 0
    ensures src in m.c.before
    ensures res.Ok? ==>
      && WasWorth(m.c, m.hist, |old(m.hist)| - 1, m.c.jobs[id], res.outcome)
      && (res.outcome.Moved? && size.Some? ==> size.value == |m.c.before[src]|)
  {
    hide IsRun, Disjoint, WasWorth, Kernel.Valid;
    Idles(m, id);
    m.waiting.ids := m.waiting.ids - {id};
    StillValid(m);
    res, size := Serve(m, id, src, dst, checksum, policy, isMove);
    label Served:
    m.waiting.ids := m.waiting.ids + {id};
    StillValid@Served(m);
  }

  lemma Idles(m: Kernel, id: nat)
    requires m.Valid() && id in m.waiting.ids
    ensures id in m.runs && m.runs[id].at == Idle
  {
    hide IsRun;
  }

  /** Who waits may change while it is idle. */
  twostate lemma StillValid(m: Kernel)
    requires old(m.Valid()) && unchanged(m)
    requires forall k | k in m.waiting.ids :: k in old(m.waiting.ids) || (k in m.runs && m.runs[k].at == Idle)
    ensures m.Valid()
  {
    hide IsRun;
  }

  lemma IsItsLength(m: Kernel, j: Job, o: Outcome)
    requires m.Valid() && j.src in m.c.before && o.Moved? && Worth(m.c, m.Last(), j, o)
    ensures Present(m.fs, o.committedAs) && |Read(m.fs, o.committedAs).bytes| == |m.c.before[j.src]|
  {
    hide IsRun, LandsLeast;
  }

  /** At some moment from `from` on, `o` was worth what it says. */
  ghost predicate WasWorth(c: Config, hist: seq<Sys>, from: int, j: Job, o: Outcome)
    requires j.src in c.before
  {
    exists n | from <= n < |hist| :: 0 <= n && Worth(c, hist[n], j, o)
  }
}
