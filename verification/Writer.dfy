/**
 The registry of Jobs and the writers that broadcast it.

 Job threads, the readers that release Jobs and one writer per connection share a
 locked map and a counter. `put` is two steps, insert and bump; a connection takes
 its opening snapshot in one step and its baseline revision in a later one; a tick
 reads the revision in one step and the map in another.
 */
module Writer {
  import opened Wrappers

  type JobId = nat

  type ConnId = nat

  /** What matters of a `JobView`: a failure, a completion, or neither yet. */
  datatype View = View(error: bool, tier: bool, content: nat) {
    predicate Terminal() { error || tier }
  }

  datatype Event = Progress(job: JobId) | Finished(job: JobId) | Failed(job: JobId) {
    predicate Terminal() { !Progress? }
  }

  function EventFor(j: JobId, v: View): Event {
    if v.error then Failed(j) else if v.tier then Finished(j) else Progress(j)
  }

  /** What is said of a Job found so: that it failed if there is an error, that it is done
      if there is a tier and no error, and otherwise how far it is. */
  predicate Fits(e: Event, j: JobId, v: View) {
    && e.job == j
    && (e.Failed? <==> v.error)
    && (e.Finished? <==> v.tier && !v.error)
    && (e.Progress? <==> !v.tier && !v.error)
  }

  lemma EventFits(j: JobId, v: View)
    ensures Fits(EventFor(j, v), j, v)
  {
  }

  type Registry = map<JobId, View>

  function Ended(r: Registry): set<JobId> { set j | j in r && r[j].Terminal() }

  /** What one connection still has something to say about. */
  function SnapshotFor(r: Registry, sent: set<JobId>): (q: Registry)
    ensures q.Keys == r.Keys - (Ended(r) * sent)
    ensures Ended(q) == Ended(r) - sent
  {
    map j | j in r && (!r[j].Terminal() || j !in sent) :: r[j]
  }

  /** Where a connection is: the snapshot is taken and the baseline is not; between
      ticks; a tick has seen a new revision; sending what the tick found; gone. */
  datatype Phase = Opened | Resting | Ticked | Sending(queue: Registry) | Gone

  /**
   `opening` and the log are what the client has been told. `early` collects the
   Jobs that end between snapshot and baseline, and `missed` those of them whose
   bump also came before the baseline was read; neither influences a step.
   */
  datatype Conn = Conn(phase: Phase, last: nat, sent: set<JobId>, opening: set<JobId>, log: seq<Event>,
                       early: set<JobId>, missed: set<JobId>)

  /** `mid` holds the Jobs whose put has inserted and not bumped; `over` those that
      have made their last put. */
  datatype Sys = Sys(registry: Registry, revision: nat, mid: set<JobId>, over: set<JobId>, conns: map<ConnId, Conn>)

  datatype Step =
    | Insert(j: JobId, v: View)
    | Bump(j: JobId)
    | Release(j: JobId)
    | Connect(k: ConnId)
    | Baseline(k: ConnId)
    | Tick(k: ConnId)
    | Look(k: ConnId)
    | Send(k: ConnId, j: JobId, ok: bool)
    | Rest(k: ConnId)

  function SawInsert(c: Conn, j: JobId, v: View): Conn {
    if c.phase.Opened? && v.Terminal() then c.(early := c.early + {j}) else c
  }

  function SawBump(c: Conn, j: JobId): Conn {
    if c.phase.Opened? && j in c.early then c.(missed := c.missed + {j}) else c
  }

  /** A Job's thread puts one view at a time and stops after a terminal one. */
  predicate Next(s: Sys, e: Step, s': Sys) {
    match e
    case Insert(j, v) =>
      && j !in s.mid && j !in s.over
      && s' == s.(registry := s.registry[j := v], mid := s.mid + {j},
                  over := if v.Terminal() then s.over + {j} else s.over,
                  conns := map k | k in s.conns :: SawInsert(s.conns[k], j, v))
    case Bump(j) =>
      && j in s.mid
      && s' == s.(revision := s.revision + 1, mid := s.mid - {j},
                  conns := map k | k in s.conns :: SawBump(s.conns[k], j))
    case Release(j) =>
      s' == s.(registry := s.registry - {j})
    case Connect(k) =>
      && k !in s.conns
      && s' == s.(conns := s.conns[k := Conn(Opened, 0, Ended(s.registry), Ended(s.registry), [], {}, {})])
    case Baseline(k) =>
      && k in s.conns && s.conns[k].phase.Opened?
      && s' == s.(conns := s.conns[k := s.conns[k].(phase := Resting, last := s.revision)])
    case Tick(k) =>
      && k in s.conns && s.conns[k].phase.Resting?
      && s' == if s.revision == s.conns[k].last then s
               else s.(conns := s.conns[k := s.conns[k].(phase := Ticked, last := s.revision)])
    case Look(k) =>
      && k in s.conns && s.conns[k].phase.Ticked?
      && s' == s.(conns := s.conns[k := s.conns[k].(phase := Sending(SnapshotFor(s.registry, s.conns[k].sent)),
                                                    missed := {})])
    case Send(k, j, ok) =>
      && k in s.conns && s.conns[k].phase.Sending? && j in s.conns[k].phase.queue
      && var c := s.conns[k];
         var v := c.phase.queue[j];
         var sent' := if v.Terminal() then c.sent + {j} else c.sent;
         s' == s.(conns := s.conns[k := if ok then c.(phase := Sending(c.phase.queue - {j}), sent := sent',
                                                      log := c.log + [EventFor(j, v)])
                                        else c.(phase := Gone, sent := sent')])
    case Rest(k) =>
      && k in s.conns && s.conns[k].phase == Sending(map[])
      && s' == s.(conns := s.conns[k := s.conns[k].(phase := Resting)])
  }

  const START := Sys(map[], 0, {}, {}, map[])

  ghost predicate IsRun(hist: seq<Sys>) {
    && |hist| > 0 && hist[0] == START
    && forall n | 0 <= n < |hist| - 1 :: Steps(hist[n], hist[n + 1])
  }

  ghost predicate Steps(s: Sys, s': Sys) { exists e :: Next(s, e, s') }

  /******* What the client has been told *******/

  /** The Job's completion has reached this client, in the opening state or as an event. */
  ghost predicate Conveyed(c: Conn, j: JobId) {
    j in c.opening || exists n | 0 <= n < |c.log| :: c.log[n].Terminal() && c.log[n].job == j
  }

  /** Nothing about a Job after its completion: no second completion, no progress. */
  ghost predicate Once(c: Conn) {
    && (forall n | 0 <= n < |c.log| :: c.log[n].job !in c.opening)
    && (forall m, n | 0 <= m < n < |c.log| && c.log[m].Terminal() :: c.log[n].job != c.log[m].job)
  }

  /******* The invariant *******/

  ghost predicate SharedOk(s: Sys) {
    && s.registry.Keys * s.over == Ended(s.registry)
  }

  ghost predicate ToldOk(s: Sys, c: Conn) {
    && c.opening <= c.sent <= s.over
    && (c.phase != Gone ==> forall j :: j in c.sent <==> Conveyed(c, j))
    && (c.phase.Sending? ==> c.phase.queue.Keys !! c.sent
                             && forall j | j in c.phase.queue && c.phase.queue[j].Terminal() :: j in s.over)
  }

  /** Where an ended Job's completion is, if the client has not had it. */
  ghost predicate PendingOk(s: Sys, c: Conn) {
    && c.missed <= c.early && c.missed !! c.sent
    && c.last <= s.revision
    && (c.phase.Opened? ==> c.early <= s.over && c.early !! c.sent && forall j | j in Ended(s.registry) ::
          j in c.sent || (j in c.early && (j in s.mid || j in c.missed)))
    && (c.phase.Resting? ==> forall j | j in Ended(s.registry) ::
          j in c.sent || j in s.mid || s.revision > c.last || j in c.missed)
    && (c.phase.Sending? ==> c.missed == {} && forall j | j in Ended(s.registry) ::
          j in c.sent || j in Ended(c.phase.queue) || j in s.mid || s.revision > c.last)
  }

  ghost predicate ConnOk(s: Sys, c: Conn) { ToldOk(s, c) && Once(c) && PendingOk(s, c) }

  ghost predicate Inv(s: Sys) {
    SharedOk(s) && forall k | k in s.conns :: ConnOk(s, s.conns[k])
  }

  lemma StepKeeps(s: Sys, e: Step, s': Sys)
    requires Inv(s) && Next(s, e, s')
    ensures Inv(s')
  {
    match e
    case Insert(j, v) => Inserts(s, j, v, s');
    case Bump(j) => Bumps(s, j, s');
    case Release(j) => Releases(s, j, s');
    case Connect(k) => Connects(s, k, s');
    case Baseline(k) => Turns(s, k, s');
    case Tick(k) => Turns(s, k, s');
    case Look(k) => Looks(s, k, s');
    case Send(k, j, ok) => Sends(s, k, j, ok, s');
    case Rest(k) => Turns(s, k, s');
  }

  lemma Inserts(s: Sys, j: JobId, v: View, s': Sys)
    requires Inv(s) && Next(s, Insert(j, v), s')
    ensures Inv(s')
  {
    hide Once;
    assert Ended(s'.registry) == if v.Terminal() then Ended(s.registry) + {j} else Ended(s.registry) - {j};
    forall k | k in s'.conns ensures ConnOk(s', s'.conns[k]) {
      assert ConnOk(s, s.conns[k]);
      SameTold(s.conns[k], s'.conns[k]);
    }
  }

  lemma Bumps(s: Sys, j: JobId, s': Sys)
    requires Inv(s) && Next(s, Bump(j), s')
    ensures Inv(s')
  {
    hide Once;
    forall k | k in s'.conns ensures ConnOk(s', s'.conns[k]) {
      assert ConnOk(s, s.conns[k]);
      SameTold(s.conns[k], s'.conns[k]);
    }
  }

  lemma Releases(s: Sys, j: JobId, s': Sys)
    requires Inv(s) && Next(s, Release(j), s')
    ensures Inv(s')
  {
    hide Once;
    assert Ended(s'.registry) == Ended(s.registry) - {j};
    forall k | k in s'.conns ensures ConnOk(s', s'.conns[k]) { assert ConnOk(s, s.conns[k]); }
  }

  lemma SameTold(c: Conn, c': Conn)
    requires c'.opening == c.opening && c'.log == c.log
    ensures forall j :: Conveyed(c', j) <==> Conveyed(c, j)
    ensures Once(c) ==> Once(c')
  {
  }

  lemma Others(s: Sys, k: ConnId, s': Sys)
    requires Inv(s) && s' == s.(conns := s'.conns) && k in s'.conns && ConnOk(s', s'.conns[k])
    requires forall i | i in s'.conns && i != k :: i in s.conns && s'.conns[i] == s.conns[i]
    ensures Inv(s')
  {
    forall i | i in s'.conns ensures ConnOk(s', s'.conns[i]) {
      if i != k { assert ConnOk(s, s.conns[i]); }
    }
  }

  lemma Connects(s: Sys, k: ConnId, s': Sys)
    requires Inv(s) && Next(s, Connect(k), s')
    ensures Inv(s')
  {
    var c := s'.conns[k];
    assert forall j :: Conveyed(c, j) <==> j in c.opening;
    Others(s, k, s');
  }

  lemma Turns(s: Sys, k: ConnId, s': Sys)
    requires Inv(s)
    requires Next(s, Baseline(k), s') || Next(s, Tick(k), s') || Next(s, Rest(k), s')
    ensures Inv(s')
  {
    assert ConnOk(s, s.conns[k]);
    SameTold(s.conns[k], s'.conns[k]);
    hide Once;
    Others(s, k, s');
  }

  lemma Looks(s: Sys, k: ConnId, s': Sys)
    requires Inv(s) && Next(s, Look(k), s')
    ensures Inv(s')
  {
    assert ConnOk(s, s.conns[k]);
    SameTold(s.conns[k], s'.conns[k]);
    hide Once;
    var q := s'.conns[k].phase.queue;
    forall j | j in q && q[j].Terminal() ensures j in s.over { assert j in Ended(s.registry); }
    Others(s, k, s');
  }

  lemma Sends(s: Sys, k: ConnId, j: JobId, ok: bool, s': Sys)
    requires Inv(s) && Next(s, Send(k, j, ok), s')
    ensures Inv(s')
  {
    var c, c' := s.conns[k], s'.conns[k];
    var v := c.phase.queue[j];
    assert ConnOk(s, c);
    if ok {
      Appended(c, EventFor(j, v), c');
      assert Ended(c'.phase.queue) == Ended(c.phase.queue) - {j};
    } else {
      SameTold(c, c');
    }
    hide Once;
    Others(s, k, s');
  }

  lemma Appended(c: Conn, e: Event, c': Conn)
    requires Once(c) && !Conveyed(c, e.job)
    requires c'.opening == c.opening && c'.log == c.log + [e]
    ensures Once(c')
    ensures forall i :: Conveyed(c', i) <==> Conveyed(c, i) || (e.Terminal() && i == e.job)
  {
    assert c'.log[|c.log|] == e;
    forall i ensures Conveyed(c', i) <==> Conveyed(c, i) || (e.Terminal() && i == e.job) {
      if Conveyed(c, i) && i !in c.opening {
        var n :| 0 <= n < |c.log| && c.log[n].Terminal() && c.log[n].job == i;
        assert c'.log[n] == c.log[n];
      }
    }
  }

  lemma {:induction false} RunKeeps(hist: seq<Sys>, n: nat)
    requires IsRun(hist) && n < |hist|
    ensures Inv(hist[n])
  {
    hide Inv, Next;
    if n == 0 {
      StartOk();
    } else {
      RunKeeps(hist, n - 1);
      assert Steps(hist[n - 1], hist[n - 1 + 1]);
      var e :| Next(hist[n - 1], e, hist[n]);
      StepKeeps(hist[n - 1], e, hist[n]);
    }
  }

  lemma StartOk()
    ensures Inv(START)
  {
  }

  /******* The promises *******/

  /** At most once: over every run, with any number of clients, Jobs and releases,
      a connection hears nothing about a Job that had ended when it opened, and
      nothing about a Job after that Job's completion. */
  lemma AtMostOnce(hist: seq<Sys>, n: nat, k: ConnId)
    requires IsRun(hist) && n < |hist| && k in hist[n].conns
    ensures Once(hist[n].conns[k])
  {
    RunKeeps(hist, n);
  }

  /** The writer is between ticks, has seen the current revision, and no put is half done. */
  predicate Quiet(s: Sys, k: ConnId) {
    k in s.conns && s.conns[k].phase.Resting? && s.conns[k].last == s.revision && s.mid == {}
  }

  /** No lost completion, exactly: on a quiet connection the unreleased ended Jobs it
      has not been told of are those whose put fell between its opening snapshot and
      its baseline revision. */
  lemma LostExactlyInTheGap(hist: seq<Sys>, n: nat, k: ConnId)
    requires IsRun(hist) && n < |hist| && Quiet(hist[n], k)
    ensures forall j | j in Ended(hist[n].registry) ::
      Conveyed(hist[n].conns[k], j) <==> j !in hist[n].conns[k].missed
  {
    RunKeeps(hist, n);
    assert ConnOk(hist[n], hist[n].conns[k]);
  }

  lemma {:induction false} OverStays(hist: seq<Sys>, m: nat, n: nat, j: JobId)
    requires IsRun(hist) && m <= n < |hist| && j in hist[m].over
    ensures j in hist[n].over
    decreases n
  {
    if m < n {
      OverStays(hist, m, n - 1, j);
      assert Steps(hist[n - 1], hist[n - 1 + 1]);
    }
  }

  /** So once a Job's thread has ended, a connection that falls quiet while the Job is
      still to be released has been told so, unless it fell in the gap. */
  lemma OverIsHeard(hist: seq<Sys>, m: nat, n: nat, k: ConnId, j: JobId)
    requires IsRun(hist) && m <= n < |hist| && j in hist[m].over && j in hist[n].registry && Quiet(hist[n], k)
    ensures Conveyed(hist[n].conns[k], j) <==> j !in hist[n].conns[k].missed
  {
    hide IsRun, Conveyed;
    OverStays(hist, m, n, j);
    RunKeeps(hist, n);
    assert j in Ended(hist[n].registry);
    LostExactlyInTheGap(hist, n, k);
  }

  /** A put is in `missed` only if it both inserted after the snapshot and bumped
      before the baseline, and the first tick that finds a new revision settles it. */
  lemma GapIsSnapshotToBaseline(s: Sys, e: Step, s': Sys, k: ConnId, j: JobId)
    requires Next(s, e, s') && k in s'.conns
    ensures k in s.conns && j in s'.conns[k].early && j !in s.conns[k].early ==>
      s.conns[k].phase.Opened? && exists v: View :: v.Terminal() && e == Insert(j, v)
    ensures k in s.conns && j in s'.conns[k].missed && j !in s.conns[k].missed ==>
      s.conns[k].phase.Opened? && j in s.conns[k].early && e == Bump(j)
    ensures k !in s.conns ==> s'.conns[k].early == s'.conns[k].missed == {}
    ensures e == Look(k) ==> s'.conns[k].missed == {}
  {
    if e.Insert? && k in s.conns && j in s'.conns[k].early && j !in s.conns[k].early {
      assert e == Insert(j, e.v);
    }
  }

  /** Any later revision change that a writer observes delivers everything unsent. */
  lemma NextTickDelivers(hist: seq<Sys>, n: nat, k: ConnId)
    requires IsRun(hist) && n < |hist| && k in hist[n].conns && hist[n].conns[k].phase == Sending(map[])
    ensures forall j | j in Ended(hist[n].registry) ::
      Conveyed(hist[n].conns[k], j) || j in hist[n].mid || hist[n].revision > hist[n].conns[k].last
  {
    RunKeeps(hist, n);
    assert ConnOk(hist[n], hist[n].conns[k]);
    assert Ended(map[]) == {};
  }

  /** Nothing has been said of the Job's end to this client, nor is about to be. */
  ghost predicate Unsaid(c: Conn, j: JobId) {
    && (forall n | 0 <= n < |c.log| && c.log[n].job == j :: c.log[n].Progress?)
    && (c.phase.Sending? && j in c.phase.queue ==> !c.phase.queue[j].Terminal())
  }

  /** All that has been said of it, or is about to be, is that it ended in this view. */
  ghost predicate SaidAs(c: Conn, j: JobId, v: View) {
    && (forall n | 0 <= n < |c.log| && c.log[n].job == j && !c.log[n].Progress? :: Fits(c.log[n], j, v))
    && (c.phase.Sending? && j in c.phase.queue && c.phase.queue[j].Terminal() ==> c.phase.queue[j] == v)
  }

  /** The Job has ended in `v`, and nobody is told otherwise. */
  ghost predicate EndedAs(s: Sys, j: JobId, v: View) {
    && j in s.over && (j in s.registry ==> s.registry[j] == v)
    && forall k | k in s.conns :: SaidAs(s.conns[k], j, v)
  }

  ghost predicate EndsRight(s: Sys, j: JobId) {
    && (j in s.registry && s.registry[j].Terminal() ==> EndedAs(s, j, s.registry[j]))
    && (j !in s.over ==> forall k | k in s.conns :: Unsaid(s.conns[k], j))
  }

  lemma EndStands(s: Sys, e: Step, s': Sys, j: JobId, v: View)
    requires Next(s, e, s') && EndedAs(s, j, v)
    ensures EndedAs(s', j, v)
  {
    forall k | k in s'.conns ensures SaidAs(s'.conns[k], j, v) {
      if k in s.conns { assert SaidAs(s.conns[k], j, v); }
      if e.Send? && e.k == k { EventFits(e.j, s.conns[k].phase.queue[e.j]); }
    }
  }

  lemma EndsRightly(s: Sys, e: Step, s': Sys, j: JobId)
    requires Inv(s) && Next(s, e, s') && EndsRight(s, j)
    ensures EndsRight(s', j)
  {
    if j in s.registry && s.registry[j].Terminal() {
      EndStands(s, e, s', j, s.registry[j]);
    } else if e.Insert? && e.j == j {
      forall k | k in s'.conns ensures SaidAs(s'.conns[k], j, e.v) { assert Unsaid(s.conns[k], j); }
    }
    if j !in s'.over { StillUnsaid(s, e, s', j); }
  }

  lemma StillUnsaid(s: Sys, e: Step, s': Sys, j: JobId)
    requires Inv(s) && Next(s, e, s') && j !in s'.over && forall k | k in s.conns :: Unsaid(s.conns[k], j)
    ensures forall k | k in s'.conns :: Unsaid(s'.conns[k], j)
  {
    assert j in s.registry ==> j !in Ended(s.registry);
    forall k | k in s'.conns ensures Unsaid(s'.conns[k], j) {
      if k in s.conns { assert Unsaid(s.conns[k], j); }
    }
  }

  lemma {:induction false} AlwaysRight(hist: seq<Sys>, n: nat, j: JobId)
    requires IsRun(hist) && n < |hist|
    ensures EndsRight(hist[n], j)
  {
    hide Inv, Next, EndsRight;
    if n == 0 {
      NobodyYet(j);
    } else {
      AlwaysRight(hist, n - 1, j);
      RunKeeps(hist, n - 1);
      assert Steps(hist[n - 1], hist[n - 1 + 1]);
      var e :| Next(hist[n - 1], e, hist[n]);
      EndsRightly(hist[n - 1], e, hist[n], j);
    }
  }

  lemma NobodyYet(j: JobId)
    ensures EndsRight(START, j)
  {
  }

  lemma {:induction false} EndStays(hist: seq<Sys>, m: nat, n: nat, j: JobId, v: View)
    requires IsRun(hist) && m <= n < |hist| && EndedAs(hist[m], j, v)
    ensures EndedAs(hist[n], j, v)
    decreases n
  {
    hide Next, EndedAs;
    if m < n {
      EndStays(hist, m, n - 1, j, v);
      assert Steps(hist[n - 1], hist[n - 1 + 1]);
      var e :| Next(hist[n - 1], e, hist[n]);
      EndStands(hist[n - 1], e, hist[n], j, v);
    }
  }

  /** Once a Job has been seen to end in some view, every connection that is ever told of
      its end is told the end that view has: a failure if there is an error, a
      completion if there is none, even after the Job has been released. */
  lemma EndIsToldAsItWas(hist: seq<Sys>, m: nat, n: nat, k: ConnId, j: JobId)
    requires IsRun(hist) && m <= n < |hist| && k in hist[n].conns
    requires j in hist[m].registry && hist[m].registry[j].Terminal()
    ensures var v, log := hist[m].registry[j], hist[n].conns[k].log;
      forall i | 0 <= i < |log| && log[i].job == j && !log[i].Progress? ::
        if v.error then log[i].Failed? else log[i].Finished?
  {
    hide IsRun;
    AlwaysRight(hist, m, j);
    EndStays(hist, m, n, j, hist[m].registry[j]);
    assert SaidAs(hist[n].conns[k], j, hist[m].registry[j]);
  }

  /** The gap is real: a Job ends inside it, the connection falls quiet, and the
      completion has not been said. */
  lemma GapLosesACompletion() returns (hist: seq<Sys>)
    ensures IsRun(hist)
    ensures var s := hist[|hist| - 1];
            Quiet(s, 0) && 7 in Ended(s.registry) && !Conveyed(s.conns[0], 7)
  {
    var done := View(false, true, 0);
    var conn0 := Conn(Opened, 0, {}, {}, [], {}, {});
    var s1 := START.(conns := START.conns[0 := conn0]);
    var s2 := s1.(registry := map[7 := done], mid := {7}, over := {7},
                  conns := map k | k in s1.conns :: SawInsert(s1.conns[k], 7, done));
    var s3 := s2.(revision := 1, mid := {}, conns := map k | k in s2.conns :: SawBump(s2.conns[k], 7));
    var s4 := s3.(conns := s3.conns[0 := s3.conns[0].(phase := Resting, last := 1)]);
    hist := [START, s1, s2, s3, s4];
    assert Steps(START, s1) by { assert Ended(START.registry) == {} && Next(START, Connect(0), s1); }
    assert Steps(s1, s2) by {
      assert s1.registry[7 := done] == s2.registry;
      assert Next(s1, Insert(7, done), s2);
    }
    assert Steps(s2, s3) by {
      assert s2.mid - {7} == s3.mid;
      assert Next(s2, Bump(7), s3);
    }
    assert Steps(s3, s4) by { assert Next(s3, Baseline(0), s4); }
    hide Steps;
    assert IsRun(hist);
    assert !Conveyed(s4.conns[0], 7);
  }

  /******* The code *******/

  /** The shared state; `hist` is the run its threads have made so far. */
  class Shared {
    var jobs: Registry
    var revision: nat
    ghost var hist: seq<Sys>

    ghost predicate Running()
      reads this
    {
      |hist| > 0 && IsRun(hist)
    }

    ghost function Now(): Sys
      reads this
      requires Running()
    {
      hist[|hist| - 1]
    }

    ghost predicate Valid()
      reads this
    {
      Running() && Now().registry == jobs && Now().revision == revision
    }

    constructor ()
      ensures Valid() && hist == [START]
    {
      jobs, revision, hist := map[], 0, [START];
    }

    /** Step `e` is done; the other threads may now take theirs. */
    method Did(ghost e: Step, ghost s': Sys, ghost k: Option<ConnId>, ghost j: Option<JobId>)
      requires Running() && Next(Now(), e, s') && s'.registry == jobs && s'.revision == revision
      modifies this
      ensures Valid() && old(hist) + [s'] <= hist && LeavesAlone(s', Now(), k, j)
    {
      ghost var was := hist;
      hist := hist + [s'];
      assert forall n | 0 <= n < |hist| - 1 :: Steps(hist[n], hist[n + 1]) by {
        assert Steps(was[|was| - 1], s');
      }
      Interference(k, j);
    }

    /** Stands for any number of steps of anybody else, including none. */
    method Interference(ghost k: Option<ConnId>, ghost j: Option<JobId>)
      requires Valid()
      modifies this
      ensures Valid() && old(hist) <= hist && LeavesAlone(old(Now()), Now(), k, j)
    {
    }

    /** The view is in the registry at moment `n`, and the revision is bumped in the step
        to moment `m`. */
    method Put(j: JobId, v: View) returns (ghost n: nat, ghost m: nat)
      requires Valid() && j !in Now().mid && j !in Now().over
      modifies this
      ensures Valid() && old(hist) < hist && j !in Now().mid && (j in Now().over <==> v.Terminal())
      ensures |old(hist)| <= n < m < |hist| && j in hist[n].registry && hist[n].registry[j] == v
      ensures Next(hist[m - 1], Bump(j), hist[m])
    {
      hide IsRun;
      jobs := jobs[j := v];
      ghost var s := Now();
      ghost var s1 := s.(registry := jobs, mid := s.mid + {j}, over := if v.Terminal() then s.over + {j} else s.over,
                         conns := map k | k in s.conns :: SawInsert(s.conns[k], j, v));
      Did(Insert(j, v), s1, None, Some(j));
      ghost var mid := hist;
      revision := revision + 1;
      ghost var t := Now();
      ghost var t1 := t.(revision := revision, mid := t.mid - {j},
                         conns := map k | k in t.conns :: SawBump(t.conns[k], j));
      Did(Bump(j), t1, None, Some(j));
      n, m := |old(hist)|, |mid|;
      assert hist[n] == s1 && hist[m - 1] == t && hist[m] == t1;
    }

    method Remove(j: JobId)
      requires Valid()
      modifies this
      ensures Valid() && old(hist) < hist && hist[|old(hist)|].registry == old(jobs) - {j}
      ensures hist[|old(hist)|].revision == old(revision)
    {
      jobs := jobs - {j};
      Did(Release(j), Now().(registry := jobs), None, None);
    }
  }

  /** What no other thread does to connection `k`, or to Job `j`'s thread, where one of
      them is the caller's. */
  ghost predicate LeavesAlone(s: Sys, s': Sys, k: Option<ConnId>, j: Option<JobId>) {
    && (j.Some? ==> (j.value in s.mid <==> j.value in s'.mid) && (j.value in s.over <==> j.value in s'.over))
    && (k.Some? ==> (k.value in s.conns <==> k.value in s'.conns))
    && (k.Some? && k.value in s.conns ==>
        var c, c' := s.conns[k.value], s'.conns[k.value]; c' == c.(early := c'.early, missed := c'.missed))
  }

  /** One connection's life: the opening state, the baseline, then `ticks` ticks
      unless a send fails. What its client was told, it was told once. */
  method Serve(shared: Shared, ghost k: ConnId, ticks: nat) returns (log: seq<Event>)
    requires shared.Valid() && k !in shared.Now().conns
    modifies shared
    ensures shared.Valid() && old(shared.hist) < shared.hist && k in shared.Now().conns
    ensures shared.Now().conns[k].log == log && Once(shared.Now().conns[k])
    ensures shared.Now().conns[k].phase.Resting? || shared.Now().conns[k].phase.Gone?
  {
    hide IsRun, Once;
    var sent, opening := Ended(shared.jobs), Ended(shared.jobs);
    log := [];
    shared.Did(Connect(k), With(shared.Now(), k, Conn(Opened, 0, sent, opening, [], {}, {})), Some(k), None);
    var last := shared.revision;
    Turn(shared, k, Baseline(k), Resting, last);
    for t := 0 to ticks
      invariant shared.Valid() && old(shared.hist) < shared.hist && Holds(shared, k, Resting, last, sent, log)
    {
      var gone;
      last, sent, log, gone := TickOnce(shared, k, last, sent, log);
      if gone { break; }
    }
    AtMostOnce(shared.hist, |shared.hist| - 1, k);
  }

  /** One tick: if the revision is new, everything the connection still has something
      to say about is sent, and only then does the writer rest again. */
  method TickOnce(shared: Shared, ghost k: ConnId, last0: nat, sent0: set<JobId>, log0: seq<Event>)
    returns (last: nat, sent: set<JobId>, log: seq<Event>, gone: bool)
    requires shared.Valid() && Holds(shared, k, Resting, last0, sent0, log0)
    modifies shared
    ensures shared.Valid() && old(shared.hist) < shared.hist
      && Holds(shared, k, if gone then Gone else Resting, last, sent, log)
    ensures Next(old(shared.Now()), Tick(k), shared.hist[|old(shared.hist)|]) && last == old(shared.revision)
    ensures last == last0 ==> sent == sent0 && log == log0 && !gone
    ensures last != last0 ==> exists m | |old(shared.hist)| <= m < |shared.hist| - 1 ::
      && Next(shared.hist[m], Look(k), shared.hist[m + 1])
      && var found := SnapshotFor(shared.hist[m].registry, sent0);
         Tells(found, log0, log) && (!gone ==> TellsAll(found, log0, log) && sent == sent0 + Ended(found))
  {
    hide IsRun, Tells, TellsAll;
    last, sent, log, gone := shared.revision, sent0, log0, false;
    ghost var s := shared.Now();
    if last == last0 {
      shared.Did(Tick(k), s, Some(k), None);
      return;
    }
    shared.Did(Tick(k), With(s, k, s.conns[k].(phase := Ticked, last := last)), Some(k), None);
    s := shared.Now();
    ghost var m := |shared.hist| - 1;
    var queue := SnapshotFor(shared.jobs, sent);
    shared.Did(Look(k), With(s, k, s.conns[k].(phase := Sending(queue), missed := {})), Some(k), None);
    ghost var looked := shared.hist;
    sent, log, gone := SendAll(shared, k, queue, last, sent, log);
    assert shared.hist[m] == looked[m] && shared.hist[m + 1] == looked[m + 1];
  }

  /** What the log has gained is about these Jobs, each as it was found. */
  ghost predicate Tells(jobs: Registry, log0: seq<Event>, log: seq<Event>) {
    && log0 <= log
    && forall n | |log0| <= n < |log| :: log[n].job in jobs && Fits(log[n], log[n].job, jobs[log[n].job])
  }

  /** It is one event of each of them. */
  ghost predicate TellsAll(jobs: Registry, log0: seq<Event>, log: seq<Event>) {
    && |log| == |log0| + |jobs|
    && forall j | j in jobs :: exists n | |log0| <= n < |log| :: Fits(log[n], j, jobs[j])
  }

  function With(s: Sys, k: ConnId, c: Conn): Sys { s.(conns := s.conns[k := c]) }

  /** The connection as the writer's own variables have it. */
  ghost predicate Holds(shared: Shared, k: ConnId, phase: Phase, last: nat, sent: set<JobId>, log: seq<Event>)
    reads shared
    requires shared.Valid()
  {
    && k in shared.Now().conns
    && var c := shared.Now().conns[k]; c.phase == phase && c.last == last && c.sent == sent && c.log == log
  }

  method Turn(shared: Shared, ghost k: ConnId, ghost e: Step, ghost phase: Phase, ghost last: nat)
    requires shared.Valid() && k in shared.Now().conns && last == shared.revision
    requires var s := shared.Now(); Next(s, e, With(s, k, s.conns[k].(phase := phase, last := last)))
    modifies shared
    ensures shared.Valid() && old(shared.hist) < shared.hist
    ensures Holds(shared, k, phase, last, old(shared.Now()).conns[k].sent, old(shared.Now()).conns[k].log)
  {
    hide IsRun;
    ghost var s := shared.Now();
    shared.Did(e, With(s, k, s.conns[k].(phase := phase, last := last)), Some(k), None);
  }

  method SendAll(shared: Shared, ghost k: ConnId, jobs: Registry, ghost last: nat, sent0: set<JobId>, log0: seq<Event>)
    returns (sent: set<JobId>, log: seq<Event>, gone: bool)
    requires shared.Valid() && Holds(shared, k, Sending(jobs), last, sent0, log0)
    modifies shared
    ensures shared.Valid() && old(shared.hist) < shared.hist
    ensures Holds(shared, k, if gone then Gone else Resting, last, sent, log)
    ensures Tells(jobs, log0, log) && (!gone ==> TellsAll(jobs, log0, log) && sent == sent0 + Ended(jobs))
  {
    hide IsRun, Tells, TellsAll, Told, Ended, EventFor;
    var queue := jobs;
    NothingTold(jobs, sent0, log0);
    sent, log, gone := sent0, log0, false;
    while queue != map[]
      invariant shared.Valid() && old(shared.hist) <= shared.hist && Holds(shared, k, Sending(queue), last, sent, log)
      invariant Told(jobs, queue, sent0, sent, log0, log)
      decreases |queue|
    {
      var j :| j in queue;
      TellsOne(jobs, queue, j, sent0, sent, log0, log);
      sent, log, gone := SendOne(shared, k, queue, j, last, sent, log);
      if gone { return; }
      queue := queue - {j};
    }
    AllTold(jobs, sent0, sent, log0, log);
    ghost var s := shared.Now();
    RestIsAStep(s, k);
    shared.Did(Rest(k), With(s, k, s.conns[k].(phase := Resting)), Some(k), None);
  }

  /** One Job's event; what has been sent of it is noted first. */
  method SendOne(shared: Shared, ghost k: ConnId, queue: Registry, j: JobId, ghost last: nat,
                 sent0: set<JobId>, log0: seq<Event>)
    returns (sent: set<JobId>, log: seq<Event>, gone: bool)
    requires shared.Valid() && Holds(shared, k, Sending(queue), last, sent0, log0) && j in queue
    modifies shared
    ensures shared.Valid() && old(shared.hist) < shared.hist
    ensures sent == if queue[j].Terminal() then sent0 + {j} else sent0
    ensures log == if gone then log0 else log0 + [EventFor(j, queue[j])]
    ensures Holds(shared, k, if gone then Gone else Sending(queue - {j}), last, sent, log)
  {
    hide IsRun, Next, EventFor;
    var v := queue[j];
    sent, log := sent0, log0;
    ghost var s := shared.Now();
    SendIsAStep(s, k, queue, j);
    if v.Terminal() { sent := sent + {j}; }
    gone := *;
    if gone {
      shared.Did(Send(k, j, false), With(s, k, s.conns[k].(phase := Gone, sent := sent)), Some(k), None);
      return;
    }
    log := log + [EventFor(j, v)];
    shared.Did(Send(k, j, true), With(s, k, s.conns[k].(phase := Sending(queue - {j}), sent := sent, log := log)),
               Some(k), None);
  }

  lemma SendIsAStep(s: Sys, k: ConnId, queue: Registry, j: JobId)
    requires k in s.conns && s.conns[k].phase == Sending(queue) && j in queue
    ensures var c := s.conns[k];
      var sent := if queue[j].Terminal() then c.sent + {j} else c.sent;
      && Next(s, Send(k, j, false), With(s, k, c.(phase := Gone, sent := sent)))
      && Next(s, Send(k, j, true), With(s, k, c.(phase := Sending(queue - {j}), sent := sent,
                                                 log := c.log + [EventFor(j, queue[j])])))
  {
  }

  lemma RestIsAStep(s: Sys, k: ConnId)
    requires k in s.conns && s.conns[k].phase == Sending(map[])
    ensures Next(s, Rest(k), With(s, k, s.conns[k].(phase := Resting)))
  {
  }

  /** All but the queue has been told. */
  ghost predicate Told(jobs: Registry, queue: Registry, sent0: set<JobId>, sent: set<JobId>,
                       log0: seq<Event>, log: seq<Event>)
  {
    && Tells(jobs, log0, log) && |log| + |queue| == |log0| + |jobs|
    && (forall j | j in queue :: j in jobs && queue[j] == jobs[j])
    && (forall j | j in jobs && j !in queue :: exists n | |log0| <= n < |log| :: Fits(log[n], j, jobs[j]))
    && sent == sent0 + set j | j in Ended(jobs) && j !in queue
  }

  lemma NothingTold(jobs: Registry, sent0: set<JobId>, log0: seq<Event>)
    ensures Told(jobs, jobs, sent0, sent0, log0, log0)
  {
    assert (set j | j in Ended(jobs) && j !in jobs) == {};
  }

  lemma AllTold(jobs: Registry, sent0: set<JobId>, sent: set<JobId>, log0: seq<Event>, log: seq<Event>)
    requires Told(jobs, map[], sent0, sent, log0, log)
    ensures Tells(jobs, log0, log) && TellsAll(jobs, log0, log) && sent == sent0 + Ended(jobs)
  {
    assert (set j | j in Ended(jobs)) == Ended(jobs);
  }

  lemma TellsOne(jobs: Registry, queue: Registry, j: JobId, sent0: set<JobId>, sent: set<JobId>,
                 log0: seq<Event>, log: seq<Event>)
    requires Told(jobs, queue, sent0, sent, log0, log) && j in queue
    ensures Tells(jobs, log0, log)
    ensures Told(jobs, queue - {j}, sent0, if queue[j].Terminal() then sent + {j} else sent, log0,
                 log + [EventFor(j, queue[j])])
  {
    var log' := log + [EventFor(j, queue[j])];
    EventFits(j, queue[j]);
    OneFewer(queue, j);
    hide Fits, EventFor;
    assert log'[|log|] == EventFor(j, queue[j]) && forall n | 0 <= n < |log| :: log'[n] == log[n];
    forall i | i in jobs && i !in queue - {j} ensures exists n | |log0| <= n < |log'| :: Fits(log'[n], i, jobs[i]) {
      if i == j {
        assert Fits(log'[|log|], i, jobs[i]);
      } else {
        var n :| |log0| <= n < |log| && Fits(log[n], i, jobs[i]);
        assert Fits(log'[n], i, jobs[i]);
      }
    }
    assert j in Ended(jobs) <==> queue[j].Terminal();
  }

  lemma OneFewer(queue: Registry, j: JobId)
    requires j in queue
    ensures |queue - {j}| == |queue| - 1
  {
    assert queue.Keys == (queue - {j}).Keys + {j} && |queue.Keys| == |queue| && |(queue - {j}).Keys| == |queue - {j}|;
  }
}
