/**
 A Job's thread: its files go to the engine one after another, and what it has to say
 of them goes into the registry that the connections' writers broadcast.
 */
module JobThread {
  import opened Wrappers
  import opened Paths
  import opened Disk
  import opened CommitMachine
  import opened JobRunner
  import Engine
  import Writer

  /******* The engine *******/

  /**
   The engine as the runner sees it; `asked` is every call made to it. The kernel is
   the machine it runs on, and `files` are the machine's Jobs for the files of the
   request; there is none for a request the machine does not speak of.
   */
  class Transfers {
    const kernel: Engine.Kernel?
    const checksum: bool
    ghost const files: seq<nat>
    ghost var asked: seq<(Path, Path)>

    ghost function Frame(): set<object> {
      if kernel == null then {} else {kernel, kernel.waiting}
    }

    /** Between calls every file waits, those that have had their turn included. */
    ghost predicate Valid()
      reads this, Frame()
    {
      kernel != null ==>
        && kernel.Valid() && Disjoint(kernel.c) && Whole()
        && forall i | 0 <= i < |files| :: files[i] in kernel.waiting.ids
    }

    /** The files are all of their request, each once. */
    ghost predicate Whole() {
      kernel != null ==>
        && (forall i, k | 0 <= i < k < |files| :: files[i] != files[k])
        && forall i, k | i in files && k in kernel.c.jobs && kernel.c.request(k) == kernel.c.request(i) :: k in files
    }

    /** File by file the machine's Jobs are those of this request. */
    ghost predicate Fits(q: Request) {
      kernel != null ==>
        && q.checksum == checksum && |files| == |q.sources|
        && forall i | 0 <= i < |files| :: files[i] in kernel.c.jobs && kernel.c.jobs[files[i]] == q.JobOf(i)
    }

    /** The run has gone on from `was`, and what came of the files was worth its name. */
    ghost predicate Kept(q: Request, was: seq<Sys>, seen: seq<File>)
      reads this, Frame()
    {
      && Valid() && Fits(q)
      && (kernel != null ==> |was| > 0 && was <= kernel.hist && Honest(kernel.c, kernel.hist, |was| - 1, q, seen))
    }

    /** The same of one more file. */
    ghost predicate Earned(q: Request, was: seq<Sys>, n: nat, f: File)
      reads this, Frame()
      requires n < |q.sources|
    {
      kernel != null ==> WasTrue(kernel.c, kernel.hist, |was| - 1, q.JobOf(n), f)
    }

    constructor (kernel: Engine.Kernel?, checksum: bool, ghost files: seq<nat>)
      requires kernel != null ==>
        kernel.Valid() && Disjoint(kernel.c) && forall i | i in files :: i in kernel.waiting.ids
      requires forall i, k | 0 <= i < k < |files| :: files[i] != files[k]
      requires kernel != null ==>
        forall i, k | i in files && k in kernel.c.jobs && kernel.c.request(k) == kernel.c.request(i) :: k in files
      ensures Valid() && asked == [] && this.kernel == kernel && this.checksum == checksum && this.files == files
    {
      this.kernel, this.checksum := kernel, checksum;
      this.files, asked := files, [];
    }

    /** An answer of `Engine.Transfer`, with the length of what a move landed where it
        can be asked, and what they are worth then; without a kernel, any answer: a
        move never says copied, a copy never says moved. */
    method Ask(src: Path, dst: Path, policy: Policy, isMove: bool) returns (res: Result, size: Option<nat>)
      requires Valid()
      requires kernel != null ==>
        && |asked| < |files| && files[|asked|] in kernel.c.jobs
        && kernel.c.jobs[files[|asked|]] == Job(src, dst, checksum, policy, isMove)
      modifies this, Frame()
      ensures Valid() && asked == old(asked) + [(src, dst)]
      ensures res.Ok? ==> Answers(res.outcome, policy, isMove)
      ensures kernel != null ==> old(kernel.hist) <= kernel.hist && |kernel.hist| > 0
      ensures kernel != null && res.Ok? ==>
        WasTrue(kernel.c, kernel.hist, |old(kernel.hist)| - 1, Job(src, dst, checksum, policy, isMove),
                File(src.name, res.outcome, size))
    {
      hide IsRun, Disjoint, Engine.Worth, Engine.WasWorth;
      size := None;
      if kernel == null {
        asked := asked + [(src, dst)];
        res := *;
        if res.Ok? && !Answers(res.outcome, policy, isMove) { res := Err(IoError); }
        size := *;
      } else {
        ghost var id := files[|asked|];
        asked := asked + [(src, dst)];
        res, size := Engine.TakeTurn(kernel, id, src, dst, checksum, policy, isMove);
        if res.Ok? { WorthAnswers(kernel.c, kernel.hist, |old(kernel.hist)| - 1, kernel.c.jobs[id], res.outcome); }
      }
    }
  }

  lemma WorthAnswers(c: Config, hist: seq<Sys>, from: int, j: Job, o: Outcome)
    requires j.src in c.before && Engine.WasWorth(c, hist, from, j, o)
    ensures Answers(o, j.policy, j.isMove)
  {
  }

  /** The outcome was worth what it says at some moment from `from` on, and a moved
      file's size is its source's. */
  ghost predicate WasTrue(c: Config, hist: seq<Sys>, from: int, j: Job, f: File) {
    && j.src in c.before && Engine.WasWorth(c, hist, from, j, f.outcome)
    && (f.outcome.Moved? && f.size.Some? ==> f.size.value == |c.before[j.src]|)
  }

  /** Every outcome tallied was true when the engine gave it. */
  ghost predicate Honest(c: Config, hist: seq<Sys>, from: int, q: Request, seen: seq<File>) {
    |seen| <= |q.sources| && forall i | 0 <= i < |seen| :: WasTrue(c, hist, from, q.JobOf(i), seen[i])
  }

  lemma StaysHonest(c: Config, hist: seq<Sys>, from: int, q: Request, seen: seq<File>, hist': seq<Sys>)
    requires Honest(c, hist, from, q, seen) && hist <= hist'
    ensures Honest(c, hist', from, q, seen)
  {
    forall i | 0 <= i < |seen| ensures WasTrue(c, hist', from, q.JobOf(i), seen[i]) {
      assert WasTrue(c, hist, from, q.JobOf(i), seen[i]);
      StaysTrue(c, hist, from, q.JobOf(i), seen[i], hist');
    }
  }

  lemma StaysTrue(c: Config, hist: seq<Sys>, from: int, j: Job, f: File, hist': seq<Sys>)
    requires WasTrue(c, hist, from, j, f) && hist <= hist'
    ensures WasTrue(c, hist', from, j, f)
  {
    hide Engine.Worth;
    var n :| from <= n < |hist| && 0 <= n && Engine.Worth(c, hist[n], j, f.outcome);
    assert hist'[n] == hist[n];
  }

  lemma NothingYet(t: Transfers, q: Request, was: seq<Sys>)
    requires t.Valid() && t.Fits(q) && (t.kernel != null ==> was == t.kernel.hist)
    ensures t.Kept(q, was, [])
  {
  }

  lemma TrueSince(c: Config, hist: seq<Sys>, from: int, recent: int, j: Job, f: File)
    requires from <= recent && WasTrue(c, hist, recent, j, f)
    ensures WasTrue(c, hist, from, j, f)
  {
  }

  /** A claim above a size check is kept by the disk, on any medium: each landing held the
      whole source, byte for byte, durable, when the engine answered. */
  lemma ClaimIsKept(c: Config, hist: seq<Sys>, from: int, q: Request, seen: seq<File>, claim: Completion, i: nat)
    requires Honest(c, hist, from, q, seen) && MaySayOf(seen, q.isMove, claim)
    requires claim.strength.Some? && claim.strength.value > 1
    requires i < |seen| && seen[i].outcome.Copied?
    ensures exists n :: from <= n < |hist| && 0 <= n && HeldWhole(c, hist[n], q.sources[i], seen[i].outcome.committedAs)
  {
    assert WasTrue(c, hist, from, q.JobOf(i), seen[i]);
    assert seen[i].outcome.tier == SizeChecked ==> CopiedUnder(seen, SizeChecked);
    var n :| from <= n < |hist| && 0 <= n && Engine.Worth(c, hist[n], q.JobOf(i), seen[i].outcome);
    assert HeldWhole(c, hist[n], q.sources[i], seen[i].outcome.committedAs);
  }

  ghost predicate HeldWhole(c: Config, s: Sys, src: Path, at: Path) {
    && src in c.before && Present(s.fs, at)
    && Read(s.fs, at).bytes == c.before[src] && Read(s.fs, at).synced
  }

  /** What the sources of the files that arrived amount to. */
  ghost function Weight(c: Config, q: Request, seen: seq<File>): nat
    requires |seen| <= |q.sources| && forall i | 0 <= i < |seen| :: q.sources[i] in c.before
  {
    if seen == [] then 0
    else
      var n := |seen| - 1;
      Weight(c, q, seen[..n]) + if seen[n].Arrived() then |c.before[q.sources[n]]| else 0
  }

  /** The length of every moved file that was not empty could be asked. */
  ghost predicate AllSized(c: Config, q: Request, seen: seq<File>)
    requires |seen| <= |q.sources| && forall i | 0 <= i < |seen| :: q.sources[i] in c.before
  {
    forall i | 0 <= i < |seen| && seen[i].outcome.Moved? :: seen[i].size.Some? || c.before[q.sources[i]] == []
  }

  lemma SourcesWereThere(c: Config, hist: seq<Sys>, from: int, q: Request, seen: seq<File>)
    requires Honest(c, hist, from, q, seen)
    ensures forall i | 0 <= i < |seen| :: q.sources[i] in c.before
  {
    forall i | 0 <= i < |seen| ensures q.sources[i] in c.before {
      assert WasTrue(c, hist, from, q.JobOf(i), seen[i]);
    }
  }

  /** The bytes a Job reports are those of the sources of the files that arrived, if and
      only if every moved file's length could be asked. */
  lemma {:induction false} BytesAreTheSources(c: Config, hist: seq<Sys>, from: int, q: Request, seen: seq<File>)
    requires Honest(c, hist, from, q, seen) && forall i | 0 <= i < |seen| :: q.sources[i] in c.before
    ensures Sum(Arrivals(seen)) <= Weight(c, q, seen)
    ensures Sum(Arrivals(seen)) == Weight(c, q, seen) <==> AllSized(c, q, seen)
  {
    if seen == [] {
    } else {
      hide Honest, WasTrue, Arrivals, Sum, File.Bytes, Weight, AllSized;
      var n := |seen| - 1;
      HonestParts(c, hist, from, q, seen);
      BytesAreTheSources(c, hist, from, q, seen[..n]);
      SumGrows(seen);
      OneMoreWeight(c, q, seen);
      LastBytes(c, hist, from, q.JobOf(n), seen[n]);
    }
  }

  lemma SumGrows(seen: seq<File>)
    requires seen != []
    ensures var n := |seen| - 1; Sum(Arrivals(seen)) == Sum(Arrivals(seen[..n])) + seen[n].Bytes()
  {
    var front := Arrivals(seen[..|seen| - 1]);
    var last := seen[|seen| - 1];
    assert Arrivals(seen) == if last.Arrived() then front + [last] else front;
    hide Arrivals;
    if last.Arrived() { assert (front + [last])[..|front|] == front; }
  }

  lemma HonestParts(c: Config, hist: seq<Sys>, from: int, q: Request, seen: seq<File>)
    requires Honest(c, hist, from, q, seen) && seen != []
    ensures var n := |seen| - 1; Honest(c, hist, from, q, seen[..n]) && WasTrue(c, hist, from, q.JobOf(n), seen[n])
  {
    hide WasTrue;
  }

  lemma OneMoreWeight(c: Config, q: Request, seen: seq<File>)
    requires 0 < |seen| <= |q.sources| && forall i | 0 <= i < |seen| :: q.sources[i] in c.before
    ensures var n := |seen| - 1;
      && Weight(c, q, seen) == Weight(c, q, seen[..n]) + (if seen[n].Arrived() then |c.before[q.sources[n]]| else 0)
      && (AllSized(c, q, seen) <==>
          AllSized(c, q, seen[..n]) && (seen[n].outcome.Moved? ==> seen[n].size.Some? || c.before[q.sources[n]] == []))
  {
    var n := |seen| - 1;
    assert forall i | 0 <= i < n :: seen[..n][i] == seen[i];
  }

  lemma LastBytes(c: Config, hist: seq<Sys>, from: int, j: Job, f: File)
    requires WasTrue(c, hist, from, j, f)
    ensures f.Bytes() == if f.Arrived() && (f.outcome.Moved? ==> f.size.Some?) then |c.before[j.src]| else 0
  {
    var n :| from <= n < |hist| && 0 <= n && Engine.Worth(c, hist[n], j, f.outcome);
  }

  /******* The registry *******/

  /** What the registry is told of a view. */
  function Shown(v: View): (w: Writer.View)
    ensures w.Terminal() == v.Terminal()
  {
    Writer.View(v.failed, v.tier.Some?, v.bytes)
  }

  /** At the moments `at`, one after another, these views were the Job's entry. */
  ghost predicate InTurn(hist: seq<Writer.Sys>, from: nat, job: Writer.JobId, puts: seq<View>, at: seq<nat>) {
    && |at| == |puts|
    && (forall i | 0 <= i < |at| ::
          from <= at[i] < |hist| && job in hist[at[i]].registry && hist[at[i]].registry[job] == Shown(puts[i]))
    && forall i, k | 0 <= i < k < |at| :: at[i] < at[k]
  }

  ghost predicate IsOver(puts: seq<View>) { puts != [] && puts[|puts| - 1].Terminal() }

  /** The thread has put these views, each whole, and has ended exactly if the last is
      a terminal one. */
  ghost predicate Told(shared: Writer.Shared, from: nat, job: Writer.JobId, puts: seq<View>)
    reads shared
  {
    && shared.Valid() && from <= |shared.hist|
    && job !in shared.Now().mid && (job in shared.Now().over <==> IsOver(puts))
    && exists at :: InTurn(shared.hist, from, job, puts, at)
  }

  method Publish(shared: Writer.Shared, ghost from: nat, job: Writer.JobId, puts: seq<View>, v: View)
    returns (puts': seq<View>)
    requires Told(shared, from, job, puts) && !IsOver(puts)
    modifies shared
    ensures puts' == puts + [v] && Told(shared, from, job, puts')
  {
    hide Writer.IsRun, Writer.Next, Writer.Shared.Valid, Shown, InTurn, Told;
    ghost var before := shared.hist;
    ghost var at := WhenTold(shared, from, job, puts);
    ghost var n, _ := shared.Put(job, Shown(v));
    puts' := puts + [v];
    InTurnAgain(before, shared.hist, from, job, puts, at, v, n);
    ToldBy(shared, from, job, puts', at + [n]);
  }

  lemma WhenTold(shared: Writer.Shared, from: nat, job: Writer.JobId, puts: seq<View>) returns (at: seq<nat>)
    requires Told(shared, from, job, puts) && !IsOver(puts)
    ensures shared.Valid() && from <= |shared.hist| && job !in shared.Now().mid && job !in shared.Now().over
    ensures InTurn(shared.hist, from, job, puts, at)
  {
    hide InTurn, Writer.IsRun;
    at :| InTurn(shared.hist, from, job, puts, at);
  }

  lemma ToldBy(shared: Writer.Shared, from: nat, job: Writer.JobId, puts: seq<View>, at: seq<nat>)
    requires shared.Valid() && from <= |shared.hist| && job !in shared.Now().mid
    requires (job in shared.Now().over <==> IsOver(puts)) && InTurn(shared.hist, from, job, puts, at)
    ensures Told(shared, from, job, puts)
  {
    hide InTurn, Writer.IsRun;
  }

  lemma InTurnAgain(hist: seq<Writer.Sys>, hist': seq<Writer.Sys>, from: nat, job: Writer.JobId, puts: seq<View>,
                    at: seq<nat>, v: View, n: nat)
    requires InTurn(hist, from, job, puts, at) && hist <= hist' && from <= |hist| <= n < |hist'|
    requires job in hist'[n].registry && hist'[n].registry[job] == Shown(v)
    ensures InTurn(hist', from, job, puts + [v], at + [n])
  {
    hide Shown;
    assert forall i | 0 <= i < |at| :: hist'[at[i]] == hist[at[i]];
  }

  /** What the thread said of the Job's end is what each connection hears of it, if it
      hears of it at all and however late: a failure if and only if the last view failed. */
  lemma EndIsHeard(hist: seq<Writer.Sys>, from: nat, job: Writer.JobId, puts: seq<View>, at: seq<nat>,
                   n: nat, k: Writer.ConnId)
    requires Writer.IsRun(hist) && InTurn(hist, from, job, puts, at) && IsOver(puts)
    requires at[|at| - 1] <= n < |hist| && k in hist[n].conns
    ensures var log := hist[n].conns[k].log;
      forall i | 0 <= i < |log| && log[i].job == job && log[i].Terminal() ::
        (log[i].Failed? <==> puts[|puts| - 1].failed) && (log[i].Finished? <==> !puts[|puts| - 1].failed)
  {
    hide Writer.IsRun;
    var m, last, log := at[|at| - 1], puts[|puts| - 1], hist[n].conns[k].log;
    assert hist[m].registry[job] == Shown(last);
    Writer.EndIsToldAsItWas(hist, m, n, k, job);
    assert forall i | 0 <= i < |log| :: log[i].Terminal() <==> !log[i].Progress?;
  }

  lemma NothingTold(shared: Writer.Shared, job: Writer.JobId)
    requires shared.Valid() && job !in shared.Now().mid && job !in shared.Now().over
    ensures Told(shared, |shared.hist|, job, [])
  {
    assert InTurn(shared.hist, |shared.hist|, job, [], []);
  }

  /******* On the way *******/

  /** What is shown of a Job under way: the figures of the files done so far, no more
      bytes missing than are still on their way, and no claim. */
  ghost predicate Shows(v: View, seen: seq<File>, total: nat) {
    && v == View(|WhichArrived(seen)|, total, 0, |WhichReplaced(seen)|, |WhichStayed(seen)|, v.bytes,
                 None, None, None, [], false)
    && v.bytes >= Sum(Arrivals(seen))
  }

  /** Each view is of the first so many files, and none is of fewer than one before it. */
  ghost predicate OnTheWay(puts: seq<View>, seen: seq<File>, total: nat) {
    exists ks :: OnTheWayAt(puts, seen, total, ks)
  }

  ghost predicate OnTheWayAt(puts: seq<View>, seen: seq<File>, total: nat, ks: seq<nat>) {
    && |ks| == |puts| && (forall i | 0 <= i < |ks| :: ks[i] <= |seen| && Shows(puts[i], seen[..ks[i]], total))
    && forall i, k | 0 <= i < k < |ks| :: ks[i] <= ks[k]
  }

  lemma FirstShown(base: View, total: nat)
    requires base == View(0, total, 0, 0, 0, 0, None, None, None, [], false)
    ensures Shows(base, [], total) && OnTheWay([base], [], total)
  {
    HowMany([]);
    var none: seq<File> := [];
    assert none[..0] == none && OnTheWayAt([base], none, total, [0]);
  }

  lemma MoreShown(puts: seq<View>, v: View, seen: seq<File>, total: nat)
    requires OnTheWay(puts, seen, total) && Shows(v, seen, total)
    ensures OnTheWay(puts + [v], seen, total)
  {
    hide Shows;
    var ks: seq<nat> :| OnTheWayAt(puts, seen, total, ks);
    assert seen[..|seen|] == seen;
    assert OnTheWayAt(puts + [v], seen, total, ks + [|seen|]);
  }

  lemma OneMoreSeen(puts: seq<View>, seen: seq<File>, f: File, total: nat)
    requires OnTheWay(puts, seen, total)
    ensures OnTheWay(puts, seen + [f], total)
  {
    hide Shows;
    var ks: seq<nat> :| OnTheWayAt(puts, seen, total, ks);
    forall i | 0 <= i < |ks| ensures (seen + [f])[..ks[i]] == seen[..ks[i]] {}
    assert OnTheWayAt(puts, seen + [f], total, ks);
  }

  lemma ShowsMore(v: View, before: nat, done: nat, seen: seq<File>, total: nat)
    requires Shows(v.(bytes := before), seen, total)
    ensures Shows(v.(bytes := before + done), seen, total)
  {
  }

  lemma TallyShows(tally: Tally, v: View, total: nat)
    requires tally.Valid() && v.bytes >= tally.bytes
    requires v == View(tally.FilesDone(), total, 0, tally.replaced, tally.skippedExisting, v.bytes,
                       None, None, None, [], false)
    ensures Shows(v, tally.seen, total)
  {
    hide WhichArrived, WhichStayed, WhichReplaced, Lists;
    TallyIsTrue(tally);
  }

  /******* The thread *******/

  /** What came of the first files, file by file. */
  ghost predicate Matches(seen: seq<File>, q: Request) {
    && |seen| <= |q.sources|
    && (forall i | 0 <= i < |seen| :: seen[i].asked == q.sources[i].name)
    && forall f | f in seen :: Answers(f.outcome, q.policy, q.isMove)
  }

  method RunJob(t: Transfers, shared: Writer.Shared, job: Writer.JobId, sources: seq<Path>, dir: string,
                policy: Policy, isMove: bool)
    returns (puts: seq<View>, journaled: bool, ghost seen: seq<File>)
    requires t.Valid() && t.Fits(Request(sources, dir, t.checksum, policy, isMove))
    requires t.kernel != null ==> t.asked == []
    requires shared.Valid() && job !in shared.Now().mid && job !in shared.Now().over
    modifies t, t.Frame(), shared
    ensures |puts| > 1 && puts[|puts| - 1].Terminal() && forall i | 0 <= i < |puts| - 1 :: !puts[i].Terminal()
    ensures Told(shared, |old(shared.hist)|, job, puts)
    ensures var tried := |t.asked| - |old(t.asked)|;
            && 0 <= tried <= |sources| && t.asked == old(t.asked) + Calls(sources, dir, tried)
            && Conserves(puts[|puts| - 1], seen, tried, journaled)
    ensures OnTheWay(puts[..|puts| - 1], seen, |sources|)
    ensures puts[|puts| - 1].filesTotal == |sources| && KeepsVerb(puts[|puts| - 1], isMove)
    ensures var q := Request(sources, dir, t.checksum, policy, isMove);
      Matches(seen, q) && t.Kept(q, if t.kernel == null then [] else old(t.kernel.hist), seen)
    ensures var v := puts[|puts| - 1]; !v.failed ==>
      MaySayOf(seen, isMove, Completion(v.outcome.value, v.tier.value, v.strength))
  {
    hide Conserves, KeepsVerb, MaySayOf, Arrivals, Names, Sum, Count, IsLeast, Honest, WasTrue, Calls, Told, Matches,
      Tally.Valid, Transfers.Valid, Transfers.Fits, Transfers.Kept, Transfers.Earned, Writer.IsRun, OnTheWay, Shows;
    var base := View(0, |sources|, 0, 0, 0, 0, None, None, None, [], false);
    ghost var q := Request(sources, dir, t.checksum, policy, isMove);
    ghost var was := if t.kernel == null then [] else t.kernel.hist;
    ghost var from := |shared.hist|;
    OneMoreCall(sources, dir, 0);
    NothingYet(t, q, was);
    NothingSeen(q);
    NothingTold(shared, job);
    assert shared !in t.Frame();
    seen := [];
    puts := Publish(shared, from, job, [], base);
    assert puts == [base];
    FirstShown(base, |sources|);
    journaled := *;
    if !journaled {
      var last := base.(outcome := Some(WordFailed), failed := true, filesSkipped := |sources|);
      Stillborn(last, isMove);
      puts := End(shared, from, job, puts, last, seen, |sources|);
      return;
    }
    puts, seen := RunStarted(t, shared, from, job, sources, dir, policy, isMove, base, puts, q, was);
  }

  /** The files, and what is said of them all. */
  method RunStarted(t: Transfers, shared: Writer.Shared, ghost from: nat, job: Writer.JobId, sources: seq<Path>,
                    dir: string, policy: Policy, isMove: bool, base: View, puts0: seq<View>,
                    ghost q: Request, ghost was: seq<Sys>)
    returns (puts: seq<View>, ghost seen: seq<File>)
    requires q == Request(sources, dir, t.checksum, policy, isMove) && t.Kept(q, was, [])
    requires base == View(0, |sources|, 0, 0, 0, 0, None, None, None, [], false) && shared !in t.Frame()
    requires Told(shared, from, job, puts0) && puts0 == [base] && OnTheWay(puts0, [], |sources|)
    requires t.kernel != null ==> t.asked == []
    modifies t, t.Frame(), shared
    ensures |puts| > 1 && puts[|puts| - 1].Terminal() && forall i | 0 <= i < |puts| - 1 :: !puts[i].Terminal()
    ensures Told(shared, from, job, puts)
    ensures var tried := |t.asked| - |old(t.asked)|;
            && 0 <= tried <= |sources| && t.asked == old(t.asked) + Calls(sources, dir, tried)
            && Conserves(puts[|puts| - 1], seen, tried, true)
    ensures OnTheWay(puts[..|puts| - 1], seen, |sources|) && Matches(seen, q) && t.Kept(q, was, seen)
    ensures puts[|puts| - 1].filesTotal == |sources| && KeepsVerb(puts[|puts| - 1], isMove)
    ensures var v := puts[|puts| - 1]; !v.failed ==>
      MaySayOf(seen, isMove, Completion(v.outcome.value, v.tier.value, v.strength))
  {
    hide Conserves, KeepsVerb, MaySayOf, Arrivals, Names, Sum, Count, IsLeast, Honest, WasTrue, Calls, Told, Matches,
      Tally.Valid, Transfers.Valid, Transfers.Fits, Transfers.Kept, Transfers.Earned, Writer.IsRun, OnTheWay, Shows;
    var tally := new Tally(isMove);
    var failed;
    puts, failed := RunFiles(t, shared, from, job, sources, dir, policy, isMove, base, puts0, tally, q, was);
    seen := tally.seen;
    OneMoreCall(sources, dir, |seen| + if failed then 1 else 0);
    if failed { return; }
    AllAnswer(tally.seen, q);
    var last := Conclude(tally, base, policy);
    puts := End(shared, from, job, puts, last, seen, |sources|);
  }

  /** The last view of all. */
  method End(shared: Writer.Shared, ghost from: nat, job: Writer.JobId, puts: seq<View>, last: View,
             ghost seen: seq<File>, ghost total: nat)
    returns (puts': seq<View>)
    requires Told(shared, from, job, puts) && OnTheWay(puts, seen, total) && last.Terminal()
    requires |puts| > 0 && forall i | 0 <= i < |puts| :: !puts[i].Terminal()
    modifies shared
    ensures puts' == puts + [last] && Told(shared, from, job, puts') && |puts'| > 1 && puts'[|puts'| - 1] == last
    ensures OnTheWay(puts'[..|puts'| - 1], seen, total) && forall i | 0 <= i < |puts'| - 1 :: !puts'[i].Terminal()
  {
    hide Told, OnTheWay;
    puts' := Publish(shared, from, job, puts, last);
    assert puts'[..|puts'| - 1] == puts;
  }

  /** The last view of a Job none of whose files failed. */
  method Conclude(tally: Tally, base: View, ghost policy: Policy) returns (last: View)
    requires tally.Valid() && base == View(0, |tally.seen|, 0, 0, 0, 0, None, None, None, [], false)
    requires forall f | f in tally.seen :: Answers(f.outcome, policy, tally.isMove)
    ensures last.Terminal() && !last.failed && last.outcome.Some? && last.tier.Some? && last.filesTotal == |tally.seen|
    ensures Conserves(last, tally.seen, |tally.seen|, true) && KeepsVerb(last, tally.isMove)
    ensures MaySayOf(tally.seen, tally.isMove, Completion(last.outcome.value, last.tier.value, last.strength))
  {
    hide Conserves, KeepsVerb, MaySayOf, Tally.Valid;
    var c := tally.Finish();
    last := base.(filesDone := tally.FilesDone(), bytes := tally.bytes, outcome := Some(c.outcome),
                  tier := Some(c.tier), strength := c.strength, filesReplaced := tally.replaced,
                  filesSkippedExisting := tally.skippedExisting, landedAs := tally.landed);
    DoneAddsUp(tally, c, last, policy);
  }

  lemma NothingSeen(q: Request)
    ensures Matches([], q)
  {
  }

  lemma AllAnswer(seen: seq<File>, q: Request)
    requires Matches(seen, q)
    ensures forall f | f in seen :: Answers(f.outcome, q.policy, q.isMove)
  {
  }

  /** The loop over the files; a failure ends it, and the Job. */
  method RunFiles(t: Transfers, shared: Writer.Shared, ghost from: nat, job: Writer.JobId, sources: seq<Path>,
                  dir: string, policy: Policy, isMove: bool, base: View, puts0: seq<View>, tally: Tally,
                  ghost q: Request, ghost was: seq<Sys>)
    returns (puts: seq<View>, failed: bool)
    requires q == Request(sources, dir, t.checksum, policy, isMove) && t.Kept(q, was, tally.seen)
    requires tally.Valid() && tally.seen == [] && tally.isMove == isMove && tally !in t.Frame() && shared !in t.Frame()
    requires base == View(0, |sources|, 0, 0, 0, 0, None, None, None, [], false) && (t.kernel != null ==> t.asked == [])
    requires Told(shared, from, job, puts0) && puts0 == [base] && OnTheWay(puts0, [], |sources|)
    modifies t, t.Frame(), shared, tally
    ensures tally.Valid() && t.Kept(q, was, tally.seen) && Matches(tally.seen, q) && Told(shared, from, job, puts)
    ensures var tried := |tally.seen| + if failed then 1 else 0;
      tried <= |sources| && t.asked == old(t.asked) + Calls(sources, dir, tried)
    ensures |puts| > 0 && forall i | 0 <= i < |puts| - 1 :: !puts[i].Terminal()
    ensures if failed then
              && |puts| > 1 && puts[|puts| - 1].failed && puts[|puts| - 1].filesTotal == |sources|
              && Conserves(puts[|puts| - 1], tally.seen, |tally.seen| + 1, true) && KeepsVerb(puts[|puts| - 1], isMove)
            else |tally.seen| == |sources| && !puts[|puts| - 1].Terminal()
    ensures OnTheWay(if failed then puts[..|puts| - 1] else puts, tally.seen, |sources|)
  {
    hide Conserves, KeepsVerb, Arrivals, Names, Sum, Count, IsLeast, Honest, WasTrue, Calls, Told, Matches,
      Tally.Valid, Transfers.Valid, Transfers.Fits, Transfers.Kept, Transfers.Earned, Writer.IsRun, OnTheWay, Shows;
    puts, failed := puts0, false;
    OneMoreCall(sources, dir, 0);
    NothingSeen(q);
    for index := 0 to |sources|
      invariant tally.Valid() && |tally.seen| == index && Matches(tally.seen, q)
      invariant t.Kept(q, was, tally.seen) && t.asked == old(t.asked) + Calls(sources, dir, index)
      invariant Told(shared, from, job, puts) && |puts| > 0 && forall v | v in puts :: !v.Terminal()
      invariant OnTheWay(puts, tally.seen, |sources|)
    {
      var source := sources[index];
      var view := base.(filesDone := tally.FilesDone(), filesReplaced := tally.replaced,
                        filesSkippedExisting := tally.skippedExisting);
      TallyShows(tally, view.(bytes := tally.bytes), |sources|);
      puts := Report(shared, from, job, puts, view, tally.bytes, tally.seen);
      OneMoreCall(sources, dir, index);
      var result, size := HandOver(t, source, dir, policy, isMove, q, was, tally.seen);
      match result
      case Ok(outcome) =>
        OneMoreKept(t, q, was, tally.seen, File(source.name, outcome, size));
        OneMoreSeen(puts, tally.seen, File(source.name, outcome, size), |sources|);
        tally.Record(source.name, outcome, size);
      case Err(_) =>
        var last := view.(outcome := Some(WordFailed), failed := true, filesDone := tally.FilesDone(),
                          filesSkipped := |sources| - index - 1, bytes := tally.bytes, landedAs := tally.landed);
        FailedAddsUp(tally, view, last, isMove);
        puts := End(shared, from, job, puts, last, tally.seen, |sources|);
        return puts, true;
    }
  }

  /** One file goes to the engine, the next of its request. */
  method HandOver(t: Transfers, source: Path, dir: string, policy: Policy, isMove: bool,
                  ghost q: Request, ghost was: seq<Sys>, ghost seen: seq<File>)
    returns (result: Result, size: Option<nat>)
    requires t.Kept(q, was, seen) && |seen| < |q.sources| && source == q.sources[|seen|]
    requires q.dir == dir && q.checksum == t.checksum && q.policy == policy && q.isMove == isMove
    requires t.kernel != null ==> |t.asked| == |seen|
    modifies t, t.Frame()
    ensures t.asked == old(t.asked) + [(source, Path(dir, source.name))]
    ensures t.Kept(q, was, seen)
    ensures result.Ok? ==>
      var f := File(source.name, result.outcome, size);
      Answers(f.outcome, policy, isMove) && t.Earned(q, was, |seen|, f)
  {
    hide Honest, WasTrue, Transfers.Valid, Transfers.Fits;
    NextFile(t, q, |seen|);
    ghost var before := if t.kernel == null then [] else t.kernel.hist;
    result, size := t.Ask(source, Path(dir, source.name), policy, isMove);
    if t.kernel != null {
      StaysHonest(t.kernel.c, before, |was| - 1, q, seen, t.kernel.hist);
      if result.Ok? {
        TrueSince(t.kernel.c, t.kernel.hist, |was| - 1, |before| - 1, q.JobOf(|seen|),
                  File(source.name, result.outcome, size));
      }
    }
  }

  lemma OneMoreKept(t: Transfers, q: Request, was: seq<Sys>, seen: seq<File>, f: File)
    requires t.Kept(q, was, seen) && |seen| < |q.sources| && t.Earned(q, was, |seen|, f)
    requires Matches(seen, q) && f.asked == q.sources[|seen|].name && Answers(f.outcome, q.policy, q.isMove)
    ensures t.Kept(q, was, seen + [f]) && Matches(seen + [f], q)
  {
    hide WasTrue, Transfers.Valid, Transfers.Fits;
  }

  lemma OneMoreCall(sources: seq<Path>, dir: string, n: nat)
    requires n <= |sources|
    ensures |Calls(sources, dir, n)| == n
    ensures n < |sources| ==>
      Calls(sources, dir, n + 1) == Calls(sources, dir, n) + [(sources[n], Path(dir, sources[n].name))]
  {
  }

  lemma NextFile(t: Transfers, q: Request, n: nat)
    requires t.Fits(q) && n < |q.sources|
    ensures t.kernel != null ==>
      n < |t.files| && t.files[n] in t.kernel.c.jobs && t.kernel.c.jobs[t.files[n]] == q.JobOf(n)
  {
  }

  /** The engine reports as often as it likes; none of it ends the Job. */
  method Report(shared: Writer.Shared, ghost from: nat, job: Writer.JobId, puts: seq<View>, view: View, before: nat,
                ghost seen: seq<File>)
    returns (puts': seq<View>)
    requires OnTheWay(puts, seen, view.filesTotal) && Shows(view.(bytes := before), seen, view.filesTotal)
    requires !view.Terminal() && |puts| > 0 && forall v | v in puts :: !v.Terminal()
    requires Told(shared, from, job, puts)
    modifies shared
    ensures |puts'| > 0 && forall v | v in puts' :: !v.Terminal()
    ensures Told(shared, from, job, puts') && OnTheWay(puts', seen, view.filesTotal)
  {
    hide Told, OnTheWay, Shows;
    var times: nat :| true;
    puts' := puts;
    for i := 0 to times
      invariant |puts'| > 0 && (forall v | v in puts' :: !v.Terminal()) && Told(shared, from, job, puts')
      invariant OnTheWay(puts', seen, view.filesTotal)
    {
      var done: nat :| true;
      ShowsMore(view, before, done, seen, view.filesTotal);
      MoreShown(puts', view.(bytes := before + done), seen, view.filesTotal);
      puts' := Publish(shared, from, job, puts', view.(bytes := before + done));
    }
  }
}
