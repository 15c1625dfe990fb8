/**
 A trash entry is undone by several requests, answered one at a time and in any order,
 some of them after the window has given up waiting. The count it keeps is right.
 */
module UndoBatches {
  import opened Wrappers
  import opened Paths
  import opened UndoStack
  import opened UndoProtocol

  /** How many of these are among those. */
  function Among(ids: seq<ReqId>, those: set<ReqId>): nat {
    if ids == [] then 0 else (if ids[0] in those then 1 else 0) + Among(ids[1..], those)
  }

  ghost predicate Distinct(ids: seq<ReqId>) { forall i, k | 0 <= i < k < |ids| :: ids[i] != ids[k] }

  lemma {:induction false} AmongSame(ids: seq<ReqId>, a: set<ReqId>, b: set<ReqId>)
    requires forall id | id in ids :: id in a <==> id in b
    ensures Among(ids, a) == Among(ids, b)
  {
    if ids != [] { AmongSame(ids[1..], a, b); }
  }

  lemma {:induction false} AmongOneMore(ids: seq<ReqId>, a: set<ReqId>, id: ReqId)
    requires Distinct(ids) && id in ids && id !in a
    ensures Among(ids, a + {id}) == Among(ids, a) + 1
  {
    if ids[0] == id {
      assert id !in ids[1..];
      AmongSame(ids[1..], a, a + {id});
    } else {
      AmongOneMore(ids[1..], a, id);
    }
  }

  lemma {:induction false} AmongAll(ids: seq<ReqId>, a: set<ReqId>)
    requires forall id | id in ids :: id in a
    ensures Among(ids, a) == |ids|
  {
    if ids != [] { AmongAll(ids[1..], a); }
  }

  lemma {:induction false} AmongNone(ids: seq<ReqId>, a: set<ReqId>)
    ensures Among(ids, a) == 0 <==> forall id | id in ids :: id !in a
  {
    if ids != [] {
      AmongNone(ids[1..], a);
      assert ids == [ids[0]] + ids[1..];
    }
  }

  /******* The counts *******/

  /** A batch knows how many answers it has had and how many files came back, and its
      requests are those that went out together. */
  ghost predicate Told(w: World, b: Batch) {
    && b.ids != [] && Distinct(b.ids) && b.total == |b.ids| <= b.asked
    && b.replies < b.total && b.replies + Among(b.ids, w.open) == b.total && b.back == Among(b.ids, w.came)
    && forall id | id in b.ids ::
      id in w.asked && w.asked[id].kind == KRestore && id in w.together && w.together[id] == b.ids
  }

  ghost predicate NoneShared(a: Batch, b: Batch) { forall id | id in a.ids :: id !in b.ids }

  predicate InBatch(s: State, id: ReqId) {
    (s.batch.Some? && id in s.batch.value.ids) || exists l :: l in s.lateBatches && id in l.key.ids
  }

  /** So of every batch, waited for or given up on; no request is in two, and none that
      is still to be answered is in none. */
  ghost predicate BatchesOk(w: World) {
    var s, late := w.s, w.s.lateBatches;
    && (s.batch.Some? ==> Told(w, s.batch.value))
    && (forall i | 0 <= i < |late| ::
        Told(w, late[i].key) && (s.batch.Some? ==> NoneShared(s.batch.value, late[i].key)))
    && (forall i, k | 0 <= i < |late| && 0 <= k < |late| && i != k :: NoneShared(late[i].key, late[k].key))
    && (forall id | id in w.open && id in w.asked && w.asked[id].kind == KRestore :: InBatch(s, id))
    && (forall id | id in w.came :: id !in w.open && id in w.asked)
  }

  /******* Every event keeps them *******/

  /** What becomes of the books on restores. */
  lemma RestoreBooks(w: World, e: Event)
    requires Inv(w)
    ensures var n, w' := Sends(w, e).0, After(w, e);
      && (forall id | id in w.asked :: id in w'.open <==> id in w.open && id !in AnsweredBy(e))
      && (forall id | id in w.together && id in w.asked :: id in w'.together && w'.together[id] == w.together[id])
      && w'.came == (if e.AnswerRestored? && !e.error then w.came + {e.id} else w.came)
      && w'.s == StateAfter(w.s, e) && Grows(w.asked, w'.asked)
  {
    NewIdsAre(w, Sends(w, e).0);
    hide StateAfter, Sends, PhaseOk, LinksOk, RecordsOk;
  }

  /** An answer that is not to one of its requests leaves a batch's count right. */
  lemma Stands(w: World, e: Event, b: Batch)
    requires Inv(w) && May(w, e) && Told(w, b)
    requires e.AnswerRestored? ==> e.id !in b.ids
    ensures Told(After(w, e), b)
  {
    var w' := After(w, e);
    RestoreBooks(w, e);
    hide Inv, After, StateAfter;
    AmongSame(b.ids, w.open, w'.open);
    AmongSame(b.ids, w.came, w'.came);
  }

  /** And an answer to one of them is counted. */
  lemma Counts(w: World, id: ReqId, error: bool, b: Batch)
    requires Inv(w) && May(w, AnswerRestored(id, error)) && Told(w, b) && id in b.ids && id !in w.came
    ensures var w', b' := After(w, AnswerRestored(id, error)), b.Counting(error);
      && b'.back == Among(b.ids, w'.came) && b'.replies + Among(b.ids, w'.open) == b.total
      && (b'.replies < b'.total ==> Told(w', b'))
      && (b'.replies >= b'.total <==> forall k | k in b.ids :: k !in w'.open)
  {
    var e := AnswerRestored(id, error);
    var w' := After(w, e);
    RestoreBooks(w, e);
    hide Inv, After, StateAfter;
    AmongOneMore(b.ids, w.open - {id}, id);
    assert w.open - {id} + {id} == w.open;
    AmongSame(b.ids, w.open - {id}, w'.open);
    if !error { AmongOneMore(b.ids, w.came, id); }
    AmongNone(b.ids, w'.open);
  }

  lemma Untouched(s: State, e: Event)
    requires PhaseOk(s) && !e.AnswerRestored? && !e.Drop?
    requires !(e.CtrlZ? && StateAfter(s, e).batch != s.batch)
    ensures StateAfter(s, e).batch == s.batch && StateAfter(s, e).lateBatches == s.lateBatches
  {
    hide Stack.Valid;
  }

  lemma OthersKeepBatches(w: World, e: Event)
    requires Inv(w) && BatchesOk(w) && May(w, e) && !e.AnswerRestored? && !e.Drop?
    requires StateAfter(w.s, e).batch == w.s.batch
    requires forall id | w.s.nextId <= id < After(w, e).s.nextId && id in After(w, e).asked ::
      After(w, e).asked[id].kind != KRestore
    ensures BatchesOk(After(w, e))
  {
    var w' := After(w, e);
    Untouched(w.s, e);
    RestoreBooks(w, e);
    Books(w, e);
    if w.s.batch.Some? { Stands(w, e, w.s.batch.value); }
    forall i | 0 <= i < |w.s.lateBatches|
      ensures Told(w', w.s.lateBatches[i].key) { Stands(w, e, w.s.lateBatches[i].key); }
    hide After, StateAfter, PhaseOk, LinksOk, RecordsOk, Told, NoneShared, Sends;
    forall id | id in w'.open && id in w'.asked && w'.asked[id].kind == KRestore ensures InBatch(w'.s, id) {
      assert InBatch(w.s, id);
    }
  }

  lemma DropKeepsBatches(w: World)
    requires Inv(w) && BatchesOk(w)
    ensures BatchesOk(After(w, Drop))
  {
    var s, w' := w.s, After(w, Drop);
    RestoreBooks(w, Drop);
    Books(w, Drop);
    if s.batch.Some? { Stands(w, Drop, s.batch.value); }
    forall i | 0 <= i < |s.lateBatches|
      ensures Told(w', s.lateBatches[i].key) { Stands(w, Drop, s.lateBatches[i].key); }
    assert s.batch.Some? ==> s.stack.busy;
    assert forall id | id in w.open :: id in w.asked;
    hide StateAfter, Inv, Told;
    JoinsTheLate(w, w');
  }

  /** The batch waited for, if there is one, is now among those given up on. */
  lemma JoinsTheLate(w: World, w': World)
    requires BatchesOk(w) && w'.s.batch == None
    requires w'.s.lateBatches == w.s.lateBatches +
      if w.s.batch.Some? then [Late(w.s.batch.value, w.s.stack.inFlight)] else []
    requires w.s.batch.Some? ==> Told(w', w.s.batch.value)
    requires forall i | 0 <= i < |w.s.lateBatches| :: Told(w', w.s.lateBatches[i].key)
    requires forall k | k in w'.open :: k in w.open && k in w.asked
    requires Grows(w.asked, w'.asked) && (forall k | k in w'.came :: k !in w'.open && k in w'.asked)
    ensures BatchesOk(w')
  {
    hide Told;
    var late, late' := w.s.lateBatches, w'.s.lateBatches;
    assert forall i | 0 <= i < |late| :: late'[i] == late[i];
    forall i | 0 <= i < |late| && w.s.batch.Some? ensures NoneShared(late[i].key, w.s.batch.value) {
      assert NoneShared(w.s.batch.value, late[i].key);
    }
    hide NoneShared;
    forall k | k in w'.open && k in w'.asked && w'.asked[k].kind == KRestore ensures InBatch(w'.s, k) {
      assert InBatch(w.s, k);
      if w.s.batch.Some? && k in w.s.batch.value.ids {
        assert late'[|late|].key == w.s.batch.value;
      } else {
        var l :| l in late && k in l.key.ids;
        assert l in late';
      }
    }
  }

  predicate StartsBatch(w: World, e: Event) {
    e.CtrlZ? && w.s.Ready(e.alive) && w.s.Top().deed.WasTrashed? && 0 < e.sends <= |w.s.Top().deed.items|
  }

  function NewBatch(w: World, e: Event): Batch
    requires StartsBatch(w, e)
  {
    Batch(|w.s.Top().deed.items|, e.sends, 0, 0, w.s.Ids(e.sends))
  }

  lemma BornBooks(w: World, e: Event)
    requires Fresh(w) && StartsBatch(w, e)
    ensures var w', n := After(w, e), e.sends;
      && w'.s.batch == Some(NewBatch(w, e)) && w'.s.lateBatches == w.s.lateBatches && w'.s.nextId == w.s.nextId + n
      && w'.came == w.came
      && (forall id | w.s.nextId <= id < w.s.nextId + n ::
            id in w'.open && id in w'.asked && w'.asked[id].kind == KRestore
            && id in w'.together && w'.together[id] == w.s.Ids(n))
      && (forall id | id in w'.open :: id in w.open || w.s.nextId <= id < w.s.nextId + n)
      && (forall id | w.s.nextId <= id :: id !in w.asked)
  {
    NewIdsAre(w, e.sends);
  }

  lemma BornTold(w: World, e: Event)
    requires Inv(w) && BatchesOk(w) && StartsBatch(w, e)
    ensures Told(After(w, e), NewBatch(w, e))
  {
    var w', b := After(w, e), NewBatch(w, e);
    BornBooks(w, e);
    hide After, StateAfter, Inv;
    AmongAll(b.ids, w'.open);
    AmongNone(b.ids, w'.came);
  }

  /** A new batch is nobody else's. */
  lemma CtrlZKeepsBatches(w: World, e: Event)
    requires Inv(w) && BatchesOk(w) && May(w, e) && StartsBatch(w, e) && w.s.batch == None
    ensures BatchesOk(After(w, e))
  {
    var s, w', b := w.s, After(w, e), NewBatch(w, e);
    RestoreBooks(w, e);
    BornBooks(w, e);
    BornTold(w, e);
    assert forall id | id in w.open :: id in w.asked;
    forall i | 0 <= i < |s.lateBatches| ensures Told(w', s.lateBatches[i].key) && NoneShared(b, s.lateBatches[i].key) {
      Stands(w, e, s.lateBatches[i].key);
      NewIsApart(w, e, s.lateBatches[i].key);
    }
    forall id | id in w'.open && id !in w.open ensures id in b.ids { NewIsIn(w, e, id); }
    hide After, StateAfter, Inv, Told, May, NoneShared, NewBatch;
    NewJoins(w, b, w');
  }

  lemma NewJoins(w: World, b: Batch, w': World)
    requires BatchesOk(w) && w'.s.batch == Some(b) && w.s.batch == None && w'.s.lateBatches == w.s.lateBatches
      && Told(w', b)
    requires forall i | 0 <= i < |w.s.lateBatches| ::
      Told(w', w.s.lateBatches[i].key) && NoneShared(b, w.s.lateBatches[i].key)
    requires forall k | k in w'.open :: (k in w.open && k in w.asked) || k in b.ids
    requires Grows(w.asked, w'.asked) && (forall k | k in w'.came :: k !in w'.open && k in w'.asked)
    ensures BatchesOk(w')
  {
    hide Told, NoneShared;
    forall k | k in w'.open && k in w'.asked && w'.asked[k].kind == KRestore ensures InBatch(w'.s, k) {
      if k !in b.ids { assert InBatch(w.s, k); }
    }
  }

  lemma NewIsApart(w: World, e: Event, b: Batch)
    requires Fresh(w) && StartsBatch(w, e) && Told(w, b)
    ensures NoneShared(NewBatch(w, e), b)
  {
  }

  lemma NewIsIn(w: World, e: Event, id: ReqId)
    requires StartsBatch(w, e) && w.s.nextId <= id < w.s.nextId + e.sends
    ensures id in NewBatch(w, e).ids
  {
    assert NewBatch(w, e).ids[id - w.s.nextId] == id;
  }

  /** An answer in time: the batch waited for counts it, or is done. */
  lemma PromptKeepsBatches(w: World, id: ReqId, error: bool)
    requires Inv(w) && BatchesOk(w) && May(w, AnswerRestored(id, error))
    requires w.s.batch.Some? && id in w.s.batch.value.ids
    ensures BatchesOk(After(w, AnswerRestored(id, error)))
  {
    var e, s := AnswerRestored(id, error), w.s;
    var w', b := After(w, e), s.batch.value;
    RestoreBooks(w, e);
    Books(w, e);
    Counts(w, id, error, b);
    forall i | 0 <= i < |s.lateBatches| ensures Told(w', s.lateBatches[i].key) { Stands(w, e, s.lateBatches[i].key); }
    assert w'.s.lateBatches == s.lateBatches;
    assert w'.s.batch == if b.Counting(error).replies < b.total then Some(b.Counting(error)) else None;
    assert forall k | k in w.open :: k in w.asked;
    hide After, StateAfter, Inv, May, Told;
    CountedOrDone(w, b.Counting(error), w');
  }

  lemma CountedOrDone(w: World, b: Batch, w': World)
    requires BatchesOk(w) && w.s.batch.Some? && b.ids == w.s.batch.value.ids && w'.s.lateBatches == w.s.lateBatches
    requires w'.s.batch == Some(b) || (w'.s.batch == None && forall k | k in b.ids :: k !in w'.open)
    requires w'.s.batch.Some? ==> Told(w', b)
    requires forall i | 0 <= i < |w.s.lateBatches| :: Told(w', w.s.lateBatches[i].key)
    requires forall k | k in w'.open :: k in w.open && k in w.asked
    requires Grows(w.asked, w'.asked) && (forall k | k in w'.came :: k !in w'.open && k in w'.asked)
    ensures BatchesOk(w')
  {
    hide Told;
    forall k | k in w'.open && k in w'.asked && w'.asked[k].kind == KRestore ensures InBatch(w'.s, k) {
      assert InBatch(w.s, k);
    }
  }

  /** A late one: so does the record of the batch given up on. */
  lemma LateKeepsBatches(w: World, id: ReqId, error: bool)
    requires Inv(w) && BatchesOk(w) && May(w, AnswerRestored(id, error))
    requires !(w.s.batch.Some? && id in w.s.batch.value.ids)
    ensures BatchesOk(After(w, AnswerRestored(id, error)))
  {
    var e, s := AnswerRestored(id, error), w.s;
    var w', late := After(w, e), s.lateBatches;
    var n := FirstBatch(late, id);
    IsOneOfTheLate(w, id, error);
    LateState(s, id, error);
    assert Told(w, late[n].key) && id !in w.came;
    CameBack(w, id, error);
    RestStand(w, id, error, n);
    hide StateAfter, Told, NoneShared, BatchesOk;
    Counts(w, id, error, late[n].key);
    RestoreBooks(w, e);
    Books(w, e);
    assert forall k | k in w.open :: k in w.asked;
    var b := late[n].key.Counting(error);
    hide After, Inv, Sends, May, Cut, Among;
    if b.replies < b.total {
      CountedStays(w, id, n, b, w');
    } else {
      LastLeaves(w, n, w');
    }
  }

  lemma CameBack(w: World, id: ReqId, error: bool)
    requires Inv(w) && BatchesOk(w) && May(w, AnswerRestored(id, error))
    ensures var w' := After(w, AnswerRestored(id, error)); forall k | k in w'.came :: k !in w'.open && k in w'.asked
  {
    RestoreBooks(w, AnswerRestored(id, error));
    hide Inv, After, StateAfter, Told, NoneShared;
  }

  /** The batches that the answer is not about. */
  lemma RestStand(w: World, id: ReqId, error: bool, n: nat)
    requires Inv(w) && BatchesOk(w) && May(w, AnswerRestored(id, error))
    requires n < |w.s.lateBatches| && id in w.s.lateBatches[n].key.ids
    ensures var w' := After(w, AnswerRestored(id, error));
      && (w.s.batch.Some? ==> Told(w', w.s.batch.value))
      && forall i | 0 <= i < |w.s.lateBatches| && i != n :: Told(w', w.s.lateBatches[i].key)
  {
    hide Inv, May, After, Told;
    var e, late := AnswerRestored(id, error), w.s.lateBatches;
    if w.s.batch.Some? {
      assert NoneShared(w.s.batch.value, late[n].key);
      Stands(w, e, w.s.batch.value);
    }
    forall i | 0 <= i < |late| && i != n ensures Told(After(w, e), late[i].key) {
      assert NoneShared(late[i].key, late[n].key);
      Stands(w, e, late[i].key);
    }
  }

  lemma IsOneOfTheLate(w: World, id: ReqId, error: bool)
    requires Inv(w) && BatchesOk(w) && May(w, AnswerRestored(id, error))
    requires !(w.s.batch.Some? && id in w.s.batch.value.ids)
    ensures FirstBatch(w.s.lateBatches, id) < |w.s.lateBatches|
  {
    assert InBatch(w.s, id);
  }

  lemma LateState(s: State, id: ReqId, error: bool)
    requires FirstBatch(s.lateBatches, id) < |s.lateBatches| && !(s.batch.Some? && id in s.batch.value.ids)
    ensures var n := FirstBatch(s.lateBatches, id);
      var b, s' := s.lateBatches[n].key.Counting(error), StateAfter(s, AnswerRestored(id, error));
      s'.batch == s.batch
      && s'.lateBatches == if b.replies < b.total then s.lateBatches[n := s.lateBatches[n].(key := b)]
                           else Cut(s.lateBatches, n)
  {
    hide Cut;
  }

  lemma LastLeaves(w: World, n: nat, w': World)
    requires BatchesOk(w) && n < |w.s.lateBatches|
    requires w'.s.batch == w.s.batch && w'.s.lateBatches == Cut(w.s.lateBatches, n)
    requires w.s.batch.Some? ==> Told(w', w.s.batch.value)
    requires forall i | 0 <= i < |w.s.lateBatches| && i != n :: Told(w', w.s.lateBatches[i].key)
    requires forall k | k in w'.open :: k in w.open && k in w.asked && k !in w.s.lateBatches[n].key.ids
    requires Grows(w.asked, w'.asked) && (forall k | k in w'.came :: k !in w'.open && k in w'.asked)
    ensures BatchesOk(w')
  {
    hide Told;
    LeavesRest(w.s, n, w'.s);
    hide Cut;
    forall k | k in w'.open && k in w'.asked && w'.asked[k].kind == KRestore ensures InBatch(w'.s, k) {
      assert InBatch(w.s, k);
    }
  }

  lemma CountedStays(w: World, id: ReqId, n: nat, b: Batch, w': World)
    requires BatchesOk(w) && n < |w.s.lateBatches| && b.ids == w.s.lateBatches[n].key.ids && Told(w', b)
    requires w'.s.batch == w.s.batch && w'.s.lateBatches == w.s.lateBatches[n := w.s.lateBatches[n].(key := b)]
    requires w.s.batch.Some? ==> Told(w', w.s.batch.value)
    requires forall i | 0 <= i < |w.s.lateBatches| && i != n :: Told(w', w.s.lateBatches[i].key)
    requires forall k | k in w'.open :: k in w.open && k in w.asked
    requires Grows(w.asked, w'.asked) && (forall k | k in w'.came :: k !in w'.open && k in w'.asked)
    ensures BatchesOk(w')
  {
    hide Told;
    forall k | k in w'.open && k in w'.asked && w'.asked[k].kind == KRestore ensures InBatch(w'.s, k) {
      assert InBatch(w.s, k);
      StillInBatch(w.s, k, n, w.s.lateBatches[n].(key := b), w'.s);
    }
  }

  lemma StillInBatch(s: State, k: ReqId, n: nat, l: Late<Batch>, s': State)
    requires InBatch(s, k) && n < |s.lateBatches| && l.key.ids == s.lateBatches[n].key.ids
    requires s'.batch == s.batch && s'.lateBatches == s.lateBatches[n := l]
    ensures InBatch(s', k)
  {
    if !(s.batch.Some? && k in s.batch.value.ids) {
      var i :| 0 <= i < |s.lateBatches| && k in s.lateBatches[i].key.ids;
      assert s'.lateBatches[i] in s'.lateBatches;
    }
  }

  lemma LeavesRest(s: State, n: nat, s': State)
    requires n < |s.lateBatches| && s'.batch == s.batch && s'.lateBatches == Cut(s.lateBatches, n)
    ensures forall k | InBatch(s, k) && k !in s.lateBatches[n].key.ids :: InBatch(s', k)
    ensures forall i | 0 <= i < |s'.lateBatches| :: s'.lateBatches[i] == s.lateBatches[if i < n then i else i + 1]
  {
    forall k | InBatch(s, k) && k !in s.lateBatches[n].key.ids ensures InBatch(s', k) {
      if !(s.batch.Some? && k in s.batch.value.ids) {
        var i :| 0 <= i < |s.lateBatches| && k in s.lateBatches[i].key.ids;
        assert s'.lateBatches[if i < n then i else i - 1] == s.lateBatches[i];
      }
    }
  }

  lemma BatchesKeep(w: World, e: Event)
    requires Inv(w) && BatchesOk(w) && May(w, e)
    ensures BatchesOk(After(w, e))
  {
    if e.Drop? {
      DropKeepsBatches(w);
    } else if e.AnswerRestored? {
      if w.s.batch.Some? && e.id in w.s.batch.value.ids {
        PromptKeepsBatches(w, e.id, e.error);
      } else {
        LateKeepsBatches(w, e.id, e.error);
      }
    } else if StartsBatch(w, e) {
      assert w.s.batch == None;
      CtrlZKeepsBatches(w, e);
    } else {
      NewKinds(w, e);
      Untouched(w.s, e);
      OthersKeepBatches(w, e);
    }
  }

  lemma NewKinds(w: World, e: Event)
    requires Inv(w) && May(w, e) && !e.AnswerRestored? && !e.Drop? && !StartsBatch(w, e)
    ensures StateAfter(w.s, e).batch == w.s.batch
    ensures forall id | w.s.nextId <= id < After(w, e).s.nextId && id in After(w, e).asked ::
      After(w, e).asked[id].kind != KRestore
  {
    Books(w, e);
    hide After, LinksOk, RecordsOk, NothingForgotten, Stack.Valid;
  }

  lemma {:induction false} RunKeepsBatches(hist: seq<World>, n: nat)
    requires IsRun(hist) && n < |hist|
    ensures Inv(hist[n]) && BatchesOk(hist[n])
  {
    hide Inv, BatchesOk, May, Strands, After;
    RunKeeps(hist, n);
    if n == 0 {
      NoBatchYet();
    } else {
      RunKeeps(hist, n - 1);
      RunKeepsBatches(hist, n - 1);
      assert Steps(hist[n - 1], hist[n - 1 + 1]);
      var e :| May(hist[n - 1], e) && !Strands(hist[n - 1], e) && hist[n - 1 + 1] == After(hist[n - 1], e);
      BatchesKeep(hist[n - 1], e);
    }
  }

  lemma NoBatchYet()
    ensures BatchesOk(START)
  {
  }

  /******* When a trash entry is spent *******/

  /** With this answer every restore that went out with `id` has been answered. */
  ghost predicate IsLast(w: World, id: ReqId, error: bool) {
    id in w.together && forall k | k in w.together[id] :: k !in After(w, AnswerRestored(id, error)).open
  }

  /** And at least one of them brought its file back. */
  ghost predicate SomethingCame(w: World, id: ReqId, error: bool) {
    id in w.together && exists k :: k in w.together[id] && k in After(w, AnswerRestored(id, error)).came
  }

  /** A trash entry is spent at the last answer to its batch, and then if and only if
      something came back; prompt and late alike. */
  lemma RestoredExactly(w: World, id: ReqId, error: bool)
    requires Inv(w) && BatchesOk(w) && May(w, AnswerRestored(id, error)) && w.OriginOf(id).Undoing?
    ensures var t, t' := w.s.stack, StateAfter(w.s, AnswerRestored(id, error)).stack;
      && t'.made == t.made
      && t'.entries == if IsLast(w, id, error) && SomethingCame(w, id, error)
                       then Without(t.entries, w.OriginOf(id).entry)
                       else t.entries
  {
    var s := w.s;
    var b := BatchOf(w, id);
    var answered := After(w, AnswerRestored(id, error));
    Counts(w, id, error, b);
    AmongNone(b.ids, answered.came);
    assert Told(w, b) && w.together[id] == b.ids && b.total <= b.asked;
    assert IsLast(w, id, error) <==> b.Counting(error).replies >= b.total;
    assert SomethingCame(w, id, error) <==> b.Counting(error).back > 0;
    hide Inv, BatchesOk, May, After, Cut, Stack.Valid, Told, IsLast, SomethingCame;
    SpentByCount(s, id, error, b, w.OriginOf(id).entry);
  }

  /** The batch that `id` belongs to, and the entry that it would put back. */
  lemma BatchOf(w: World, id: ReqId) returns (b: Batch)
    requires Inv(w) && BatchesOk(w) && id in w.open && id in w.asked && w.asked[id].kind == KRestore
    requires w.OriginOf(id).Undoing?
    ensures Told(w, b) && id in b.ids && id !in w.came && w.together[id] == b.ids
    ensures HoldsFor(w.s, id, b, w.OriginOf(id).entry)
  {
    var s := w.s;
    var n := FirstBatch(s.lateBatches, id);
    assert InBatch(s, id);
    if s.batch.Some? && id in s.batch.value.ids {
      b := s.batch.value;
      assert For(w.asked, id, {KRestore}, s.stack.inFlight);
    } else {
      b := s.lateBatches[n].key;
      assert s.lateBatches[n] in s.lateBatches;
      assert For(w.asked, id, {KRestore}, s.lateBatches[n].entry);
    }
  }

  predicate HoldsFor(s: State, id: ReqId, b: Batch, e: Entry) {
    if s.batch.Some? && id in s.batch.value.ids then b == s.batch.value && s.stack.inFlight == Some(e)
    else var n := FirstBatch(s.lateBatches, id); n < |s.lateBatches| && s.lateBatches[n] == Late(b, Some(e))
  }

  lemma SpentByCount(s: State, id: ReqId, error: bool, b: Batch, e: Entry)
    requires HoldsFor(s, id, b, e) && 0 < b.total <= b.asked
    ensures var t, t' := s.stack, s.Restored(id, error).stack;
      && t'.made == t.made
      && t'.entries == if b.Counting(error).replies >= b.total && b.Counting(error).back > 0 then Without(t.entries, e)
                       else t.entries
  {
  }
}
