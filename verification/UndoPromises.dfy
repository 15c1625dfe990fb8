/** What the undo protocol promises, in every run without the one exception; and what
    the exception costs. */
module UndoPromises {
  import opened Wrappers
  import opened Paths
  import opened UndoStack
  import opened UndoProtocol
  import opened UndoBatches
  import Trash

  /** On whose behalf the thing answered was asked, as the books have it. */
  function AnswersFor(w: World, e: Event): Origin {
    match e
    case AnswerConflicts(id, _, _) => w.OriginOf(id)
    case AnswerAck(id, _) => w.OriginOf(id)
    case AnswerRenamed(id, _, _, _) => w.OriginOf(id)
    case AnswerRestored(id, _) => w.OriginOf(id)
    case JobFinished(d) => w.JobOrigin(d.job)
    case JobFailed(j) => w.JobOrigin(j)
    case _ => Ordinary
  }

  /** The answer says that the undo happened: the name is back, the file has been moved
      back, or this was the last restore of a batch and something came back. */
  ghost predicate Happened(w: World, e: Event) {
    match e
    case AnswerRenamed(_, _, _, error) => !error
    case AnswerRestored(id, error) => IsLast(w, id, error) && SomethingCame(w, id, error)
    case JobFinished(d) => !d.outcome.DidSkip?
    case _ => false
  }

  /** An answer to an undo, prompt or late, spends exactly the entry it answers, if
      the undo happened, and nothing if it did not; it never records anything. */
  ghost predicate SpendsItsOwn(w: World, e: Event) {
    var t, t' := w.s.stack, After(w, e).s.stack;
    var o := AnswersFor(w, e);
    o.Undoing? ==>
      t'.made == t.made && t'.entries == if Happened(w, e) then Without(t.entries, o.entry) else t.entries
  }

  /** What the user did anew and can be taken back: a confirmed delete, a rename, and a
      Job that moved its one file, left nothing alone and knows where the file is. */
  function NewDeed(e: Event): Option<Deed> {
    match e
    case TrashConfirmed(items) => Some(WasTrashed(items))
    case AnswerRenamed(_, from, to, error) => if error then None else Some(WasRenamed(to, BaseName(from)))
    case JobFinished(d) =>
      if d.outcome == DidMove && d.filesTotal == 1 && d.filesSkippedExisting == 0
         && |d.landedAs| == 1 && |d.landedAs[0]| > 0
      then Some(WasMoved(d.source, d.destination + [Trash.SLASH] + d.landedAs[0]))
      else None
    case _ => None
  }

  /** Everything else spends nothing, and records exactly what was newly done. */
  ghost predicate RecordsWhatIsNew(w: World, e: Event) {
    var t, t' := w.s.stack, After(w, e).s.stack;
    AnswersFor(w, e).Ordinary? ==>
      match NewDeed(e)
      case Some(deed) => t'.entries == Pushed(t.entries, Entry(t.made, deed)) && t'.made == t.made + 1
      case None => t'.entries == t.entries && t'.made == t.made
  }

  /** In every run without the exception, at every step. */
  lemma EveryAnswerSpendsItsOwn(hist: seq<World>, n: nat, e: Event)
    requires IsRun(hist) && n < |hist| && May(hist[n], e)
    ensures SpendsItsOwn(hist[n], e) && RecordsWhatIsNew(hist[n], e)
  {
    hide IsRun, Inv, BatchesOk, SpendsItsOwn, RecordsWhatIsNew, May;
    RunKeepsBatches(hist, n);
    AnswerRule(hist[n], e);
  }

  lemma AnswerRule(w: World, e: Event)
    requires Inv(w) && BatchesOk(w) && May(w, e)
    ensures SpendsItsOwn(w, e) && RecordsWhatIsNew(w, e)
  {
    hide Inv, BatchesOk, SpendsItsOwn, RecordsWhatIsNew, After, May;
    match e
    case AnswerRenamed(_, _, _, _) => RenamedRule(w, e);
    case AnswerRestored(id, error) => RestoredRule(w, id, error);
    case JobFinished(d) => FinishedRule(w, d);
    case _ => QuietRule(w, e);
  }

  lemma QuietRule(w: World, e: Event)
    requires Inv(w) && May(w, e) && !e.AnswerRenamed? && !e.AnswerRestored? && !e.JobFinished?
    ensures SpendsItsOwn(w, e) && RecordsWhatIsNew(w, e)
  {
    Books(w, e);
    hide After, Inv, May, Sends;
    EntriesStay(w.s, e);
  }

  lemma EntriesStay(s: State, e: Event)
    requires !e.AnswerRenamed? && !e.AnswerRestored? && !e.JobFinished?
    ensures var t, t' := s.stack, StateAfter(s, e).stack;
      if e.TrashConfirmed? then t' == t.Push(WasTrashed(e.items)) else t'.entries == t.entries && t'.made == t.made
  {
  }

  lemma RenamedRule(w: World, e: Event)
    requires Inv(w) && May(w, e) && e.AnswerRenamed?
    ensures SpendsItsOwn(w, e) && RecordsWhatIsNew(w, e)
  {
    TakenFrom(w.s.lateRequests, e.id);
    assert Recognised(w, e.id);
    hide Stack.Valid;
  }

  lemma RestoredRule(w: World, id: ReqId, error: bool)
    requires Inv(w) && BatchesOk(w) && May(w, AnswerRestored(id, error))
    ensures SpendsItsOwn(w, AnswerRestored(id, error)) && RecordsWhatIsNew(w, AnswerRestored(id, error))
  {
    var e := AnswerRestored(id, error);
    Books(w, e);
    WhoseRestore(w, id, error);
    hide Inv, BatchesOk, May, After, StateAfter, IsLast, SomethingCame;
    RestoredExactly(w, id, error);
  }

  lemma WhoseRestore(w: World, id: ReqId, error: bool)
    requires Inv(w) && BatchesOk(w) && May(w, AnswerRestored(id, error))
    ensures AnswersFor(w, AnswerRestored(id, error)).Undoing?
  {
    var n := FirstBatch(w.s.lateBatches, id);
    assert InBatch(w.s, id);
    if w.s.batch.Some? && id in w.s.batch.value.ids {
      assert For(w.asked, id, {KRestore}, w.s.stack.inFlight);
    } else {
      assert w.s.lateBatches[n] in w.s.lateBatches;
      assert For(w.asked, id, {KRestore}, w.s.lateBatches[n].entry);
    }
    hide Inv, BatchesOk, May;
  }

  lemma FinishedRule(w: World, d: Done)
    requires Inv(w) && May(w, JobFinished(d))
    ensures SpendsItsOwn(w, JobFinished(d)) && RecordsWhatIsNew(w, JobFinished(d))
  {
    TakenFrom(w.s.lateJobs, d.job);
    hide Stack.Valid;
  }

  /******* Ctrl+Z comes back *******/

  ghost predicate OwedInv(w: World) {
    var s := w.s;
    && (s.requestId.Some? && s.jobId.None? ==> s.requestId.value in w.open)
    && (s.jobId.Some? ==> s.jobId.value !in w.ended)
  }

  /** Something will yet end the undo under way: an answer, the end of its Job, or
      the conflict question, which is answered, cancelled or times out. */
  ghost predicate Owed(w: World) {
    var s := w.s;
    || Asking(s)
    || (s.requestId.Some? && s.requestId.value in w.open)
    || (s.jobId.Some? && s.jobId.value !in w.ended)
    || (s.batch.Some? && exists id :: id in s.batch.value.ids && id in w.open)
  }

  /** What an event leaves of the requests that were open. */
  lemma OpenAfter(w: World, e: Event)
    requires Fresh(w) && forall id | id in w.open :: id in w.asked
    ensures var w' := After(w, e);
      && (forall id | id in w.asked :: id in w'.open <==> id in w.open && id !in AnsweredBy(e))
      && (forall id | w.s.nextId <= id < w'.s.nextId && id !in AnsweredBy(e) :: id in w'.open)
  {
    NewIdsAre(w, Sends(w, e).0);
    hide StateAfter;
  }

  /** Where a handle in use, and a batch, come from. */
  lemma HandleOrigins(s: State, e: Event)
    requires PhaseOk(s) && Consistent(s, e) && (e.AnswerAck? ==> s.requestId == Some(e.id) ==> s.jobId.None?)
    ensures var s' := StateAfter(s, e);
      && (s'.requestId.Some? && s'.jobId.None? ==>
            (s'.requestId == s.requestId && s.jobId.None?
             && !((e.AnswerAck? || e.AnswerRenamed?) && e.id == s.requestId.value))
            || (s'.requestId == Some(s.nextId) && s'.nextId > s.nextId))
      && (s'.jobId.Some? ==>
          (s'.jobId == s.jobId && s'.jobId.value !in EndedBy(e)) || (e.AnswerAck? && e.taken == s'.jobId))
  {
    hide Stack.Valid;
  }

  lemma OwedKeeps(w: World, e: Event)
    requires Inv(w) && OwedInv(w) && May(w, e)
    ensures OwedInv(After(w, e))
  {
    MayIsConsistent(w, e);
    Books(w, e);
    OpenAfter(w, e);
    HandleOrigins(w.s, e);
    hide After, RecordsOk, NothingForgotten, PhaseOk, StateAfter, Sends;
  }

  /** While an undo is under way something is still owed that will end it, so the
      stack is never locked: in every run without the exception. */
  lemma {:induction false} NeverLockedOut(hist: seq<World>, n: nat)
    requires IsRun(hist) && n < |hist|
    ensures OwedInv(hist[n]) && (hist[n].s.stack.busy ==> Owed(hist[n]))
  {
    hide Inv, BatchesOk, OwedInv, May, Strands, After;
    RunKeepsBatches(hist, n);
    var w := hist[n];
    if n == 0 {
      NothingOwed();
    } else {
      NeverLockedOut(hist, n - 1);
      RunKeeps(hist, n - 1);
      assert Steps(hist[n - 1], hist[n - 1 + 1]);
      var e :| May(hist[n - 1], e) && !Strands(hist[n - 1], e) && hist[n - 1 + 1] == After(hist[n - 1], e);
      OwedKeeps(hist[n - 1], e);
    }
    BusyIsOwed(w);
  }

  lemma NothingOwed()
    ensures OwedInv(START)
  {
  }

  lemma BusyIsOwed(w: World)
    requires Inv(w) && BatchesOk(w) && OwedInv(w)
    ensures w.s.stack.busy ==> Owed(w)
  {
    if w.s.batch.Some? { AmongNone(w.s.batch.value.ids, w.open); }
  }

  /******* The exception *******/

  predicate Plays(w: World, e: Event, w': World) { May(w, e) && w' == After(w, e) }

  /** The question of the undo is answered in favour of going on: by the daemon, that
      there is nothing in the way, or, where it has answered already, by the user. */
  predicate GoesOn(w: World, e: Event) {
    && w.s.pending.Some?
    && if w.s.pending.value.requestId in w.open then e == AnswerConflicts(w.s.pending.value.requestId, false, true)
       else e == Choose(true)
  }

  /** Whenever the daemon falls silent while the conflict question of an undo is out,
      there is a way on that ends with the wrong entry spent: something else is trashed,
      the question is answered, and the move back succeeds. */
  lemma StrandingMaySpendTheWrongEntry(w: World, item: Item, answer: Event, d: Done)
    returns (w1: World, w2: World, w3: World, w4: World)
    requires Inv(w) && Asking(w.s) && GoesOn(w, answer)
    requires d.job !in w.jobs && d.job !in w.ended && !d.outcome.DidSkip?
    ensures Plays(w, Drop, w1) && Plays(w1, TrashConfirmed([item]), w2) && Plays(w2, answer, w3)
    ensures Plays(w3, AnswerAck(w.s.nextId, Some(d.job)), w4) && May(w4, JobFinished(d))
    ensures !SpendsItsOwn(w4, JobFinished(d))
    ensures AnswersFor(w4, JobFinished(d)) == Undoing(w.s.stack.inFlight.value)
    ensures w4.s.stack.entries == Pushed(w.s.stack.entries, Entry(w.s.stack.made, WasTrashed([item])))
    ensures After(w4, JobFinished(d)).s.stack.entries == w4.s.stack.entries[..|w4.s.stack.entries| - 1]
  {
    w1 := After(w, Drop);
    w2 := After(w1, TrashConfirmed([item]));
    w3 := After(w2, answer);
    w4 := After(w3, AnswerAck(w.s.nextId, Some(d.job)));
    InFlightIs(w);
    hide After, Inv, May, SpendsItsOwn, StateAfter;
    LetsGo(w, item, w1, w2);
    GoesOut(w, answer, w2, w3);
    IsTakenUp(w, d.job, w3, w4);
    SpendsTheTop(w, w4, WasTrashed([item]), d);
  }

  lemma InFlightIs(w: World)
    requires Inv(w) && Asking(w.s)
    ensures w.s.stack.Valid() && w.s.stack.inFlight.Some?
  {
  }

  /** The entry is let go, and another comes on top of it. */
  lemma LetsGo(w: World, item: Item, w1: World, w2: World)
    requires Inv(w) && Asking(w.s) && w1 == After(w, Drop) && w2 == After(w1, TrashConfirmed([item]))
    ensures May(w, Drop) && May(w1, TrashConfirmed([item]))
    ensures w2.s == w.s.(stack := w.s.stack.Release().Push(WasTrashed([item])))
    ensures w2.asked == w.asked && w2.open == w.open && w2.jobs == w.jobs && w2.ended == w.ended
  {
    NewIdsAre(w, 0);
    NewIdsAre(w1, 0);
    assert w.NewIds(0) == w1.NewIds(0) == {};
    hide RecordsOk, NothingForgotten, Stack.Push;
  }

  /** The question goes on to be answered. */
  lemma GoesOut(w: World, e: Event, w2: World, w3: World)
    requires Inv(w) && Asking(w.s) && GoesOn(w, e) && w3 == After(w2, e)
    requires w2.s == w.s.(stack := w2.s.stack) && w2.asked == w.asked && w2.open == w.open
    requires w2.jobs == w.jobs && w2.ended == w.ended
    ensures May(w2, e)
    ensures w3.s.stack == w2.s.stack && w3.s.requestId == Some(w.s.nextId) && w.s.nextId in w3.open
    ensures w.s.nextId in w3.asked && w3.asked[w.s.nextId] == Asked(KTransfer, Undoing(w.s.stack.inFlight.value))
    ensures w3.jobs == w.jobs && w3.ended == w.ended
  {
    NewIdsAre(w2, 1);
    assert w.s.pending.value.requestId < w.s.nextId;
    hide RecordsOk, NothingForgotten, Stack.Valid;
  }

  lemma IsTakenUp(w: World, j: JobId, w3: World, w4: World)
    requires w4 == After(w3, AnswerAck(w.s.nextId, Some(j))) && j !in w3.jobs && j !in w3.ended
    requires w3.s.requestId == Some(w.s.nextId) && w.s.nextId in w3.open && w.s.nextId in w3.asked
    requires w3.asked[w.s.nextId].kind == KTransfer
    ensures May(w3, AnswerAck(w.s.nextId, Some(j)))
    ensures w4.s.stack == w3.s.stack && w4.s.jobId == Some(j) && w4.ended == w3.ended
    ensures j in w4.jobs && w4.jobs[j] == w3.asked[w.s.nextId].origin
  {
  }

  lemma NothingInFlight(s: State, d: Done)
    requires s.jobId == Some(d.job) && !d.outcome.DidSkip? && s.stack.inFlight.None? && s.stack.entries != []
    ensures StateAfter(s, JobFinished(d)).stack.entries == s.stack.entries[..|s.stack.entries| - 1]
  {
  }

  /** What is recorded once the entry has been let go is on top of it. */
  lemma TopIsAnother(s: Stack, deed: Deed)
    requires s.Valid() && s.inFlight.Some?
    ensures var s' := s.Release().Push(deed);
      && s'.inFlight.None? && s'.entries != [] && s'.entries == Pushed(s.entries, Entry(s.made, deed))
      && Without(s'.entries, s.inFlight.value) != s'.entries[..|s'.entries| - 1]
  {
    var e, es := s.inFlight.value, s.Release().Push(deed).entries;
    PushingKeeps(s.Release(), deed);
    WithoutTakesOne(es, e);
    var top := es[|es| - 1];
    assert top == Entry(s.made, deed) && top != e;
    assert top in Without(es, e);
    assert top !in es[..|es| - 1];
  }

  /** With nothing in flight the top is spent, which is not the entry answered. */
  lemma SpendsTheTop(w: World, w4: World, deed: Deed, d: Done)
    requires w.s.stack.Valid() && w.s.stack.inFlight.Some? && w4.s.jobId == Some(d.job) && !d.outcome.DidSkip?
    requires d.job in w4.jobs && w4.jobs[d.job] == Undoing(w.s.stack.inFlight.value) && d.job !in w4.ended
    requires w4.s.stack == w.s.stack.Release().Push(deed)
    ensures May(w4, JobFinished(d)) && !SpendsItsOwn(w4, JobFinished(d))
    ensures AnswersFor(w4, JobFinished(d)) == Undoing(w.s.stack.inFlight.value)
    ensures w4.s.stack.entries == Pushed(w.s.stack.entries, Entry(w.s.stack.made, deed))
    ensures After(w4, JobFinished(d)).s.stack.entries == w4.s.stack.entries[..|w4.s.stack.entries| - 1]
  {
    hide StateAfter, Sends, Without, Pushed, Stack.Valid;
    TopIsAnother(w.s.stack, deed);
    NothingInFlight(w4.s, d);
  }

  /** From `w` on, without a further silence of that kind. */
  ghost predicate GoesOnFrom(w: World, ws: seq<World>) {
    |ws| > 0 && ws[0] == w && forall n | 0 <= n < |ws| - 1 :: Steps(ws[n], ws[n + 1])
  }

  /** If the daemon falls silent now, some answer may yet spend what it should not. */
  ghost predicate SilenceMayMisspend(w: World) {
    exists ws, e :: Misspends(After(w, Drop), ws, e)
  }

  ghost predicate Misspends(w: World, ws: seq<World>, e: Event) {
    GoesOnFrom(w, ws) && May(ws[|ws| - 1], e) && !SpendsItsOwn(ws[|ws| - 1], e)
  }

  lemma {:induction false} KeptFrom(w: World, ws: seq<World>, n: nat)
    requires Inv(w) && BatchesOk(w) && GoesOnFrom(w, ws) && n < |ws|
    ensures Inv(ws[n]) && BatchesOk(ws[n])
  {
    hide Inv, BatchesOk, May, Strands, After;
    if n > 0 {
      KeptFrom(w, ws, n - 1);
      assert Steps(ws[n - 1], ws[n - 1 + 1]);
      var e :| May(ws[n - 1], e) && !Strands(ws[n - 1], e) && ws[n - 1 + 1] == After(ws[n - 1], e);
      EventKeepsIff(ws[n - 1], e);
      BatchesKeep(ws[n - 1], e);
    }
  }

  /** The exact condition: silence is dangerous if and only if the question of an undo
      is out. `j` is any Job id not yet in use. */
  lemma SilenceMayMisspendIff(w: World, j: JobId)
    requires Inv(w) && BatchesOk(w) && j !in w.jobs && j !in w.ended
    ensures SilenceMayMisspend(w) <==> Asking(w.s)
  {
    hide Inv, BatchesOk, SpendsItsOwn, RecordsWhatIsNew;
    if Asking(w.s) {
      MisspendsSomehow(w, j);
    } else if ws, e :| Misspends(After(w, Drop), ws, e) {
      EventKeepsIff(w, Drop);
      BatchesKeep(w, Drop);
      hide After, May;
      KeptFrom(After(w, Drop), ws, |ws| - 1);
      AnswerRule(ws[|ws| - 1], e);
    }
  }

  lemma MisspendsSomehow(w: World, j: JobId)
    requires Inv(w) && Asking(w.s) && j !in w.jobs && j !in w.ended
    ensures SilenceMayMisspend(w)
  {
    hide Inv, SpendsItsOwn, After, May, GoesOnFrom, Steps, Misspends;
    var d, item := Done(j, DidMove, 1, 0, [], [], []), Item([], [], []);
    var answer := Answer(w);
    var w1, w2, w3, w4 := StrandingMaySpendTheWrongEntry(w, item, answer, d);
    hide GoesOn, Asking;
    PlaysIsStep(w1, TrashConfirmed([item]), w2);
    PlaysIsStep(w2, answer, w3);
    PlaysIsStep(w3, AnswerAck(w.s.nextId, Some(j)), w4);
    GoesOnFour(w1, w2, w3, w4, JobFinished(d));
    assert Misspends(After(w, Drop), [w1, w2, w3, w4], JobFinished(d));
  }

  lemma Answer(w: World) returns (e: Event)
    requires Asking(w.s)
    ensures GoesOn(w, e) && !e.Drop?
  {
    var p := w.s.pending.value.requestId;
    e := if p in w.open then AnswerConflicts(p, false, true) else Choose(true);
  }

  lemma PlaysIsStep(w: World, e: Event, w': World)
    requires Plays(w, e, w') && !e.Drop?
    ensures Steps(w, w')
  {
    hide May, After;
    assert !Strands(w, e);
  }

  lemma GoesOnFour(w1: World, w2: World, w3: World, w4: World, e: Event)
    requires Steps(w1, w2) && Steps(w2, w3) && Steps(w3, w4) && May(w4, e) && !SpendsItsOwn(w4, e)
    ensures Misspends(w1, [w1, w2, w3, w4], e)
  {
    hide Steps, May, SpendsItsOwn;
  }

  const MOVING := Done(1, DidMove, 1, 0, [47, 114], [47, 100], [[114]])

  const AWAY: Entry := Entry(0, WasMoved([47, 114], Trash.Join([47, 100], [114])))

  const BACK := Done(2, DidMove, 1, 0, [47, 100, 47, 114], [], [[114]])

  const OTHER: Item := Item([47, 120], [], [])

  /** For instance: one file is moved away and its undo asked for; the daemon falls
      silent while the question is out; another file is trashed; the daemon comes back,
      the move is carried out, and the entry that is spent is the other file's. */
  lemma SilenceSpendsTheWrongEntry()
    returns (w1: World, w2: World, w3: World, w4: World, w5: World, w6: World)
    ensures Plays(START, JobFinished(MOVING), w1) && Plays(w1, CtrlZ(true, 1), w2) && Plays(w2, Drop, w3)
    ensures Plays(w3, TrashConfirmed([OTHER]), w4) && Plays(w4, AnswerConflicts(1, false, true), w5)
      && Plays(w5, AnswerAck(2, Some(2)), w6)
    ensures May(w6, JobFinished(BACK)) && AnswersFor(w6, JobFinished(BACK)) == Undoing(AWAY)
    ensures w6.s.stack.entries == [AWAY, Entry(1, WasTrashed([OTHER]))]
    ensures After(w6, JobFinished(BACK)).s.stack.entries == [AWAY]
  {
    hide After, Inv, SpendsItsOwn, May, StateAfter;
    w1 := After(START, JobFinished(MOVING));
    w2 := After(w1, CtrlZ(true, 1));
    MovesAway(w1);
    PutsTheQuestion(w1, w2);
    w3, w4, w5, w6 := StrandingMaySpendTheWrongEntry(w2, OTHER, AnswerConflicts(1, false, true), BACK);
    assert [AWAY, Entry(1, WasTrashed([OTHER]))][..1] == [AWAY];
  }

  lemma MovesAway(w1: World)
    requires w1 == After(START, JobFinished(MOVING))
    ensures May(START, JobFinished(MOVING)) && Inv(w1)
    ensures w1.s == OPENING.(stack := Stack([AWAY], None, false, 1)) && w1.jobs == map[] && w1.ended == {1}
  {
    hide Inv;
    StartOk();
    EventKeepsIff(START, JobFinished(MOVING));
    Books(START, JobFinished(MOVING));
  }

  lemma PutsTheQuestion(w1: World, w2: World)
    requires Inv(w1) && w2 == After(w1, CtrlZ(true, 1)) && w1.jobs == map[] && w1.ended == {1}
    requires w1.s == OPENING.(stack := Stack([AWAY], None, false, 1))
    ensures May(w1, CtrlZ(true, 1)) && Inv(w2) && Asking(w2.s) && GoesOn(w2, AnswerConflicts(1, false, true))
    ensures w2.s.stack == Stack([AWAY], Some(AWAY), true, 1) && w2.s.nextId == 2 && w2.jobs == map[] && w2.ended == {1}
  {
    hide Inv;
    EventKeepsIff(w1, CtrlZ(true, 1));
    Books(w1, CtrlZ(true, 1));
    NewIdsAre(w1, 1);
  }
}
