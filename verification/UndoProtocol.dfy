/**
 The undo protocol of the window: which answer from the daemon spends which entry.

 An undo is carried out by the same requests as the user's own work, so its answers
 must be recognised: by request id, then by Job id, and, once the window has given
 up waiting, by the records it keeps of what it gave up on.
 */
module UndoProtocol {
  import opened Wrappers
  import opened Paths
  import opened UndoStack
  import Trash

  type ReqId = nat

  type JobId = nat

  /******* The window's state *******/

  /** The restores that put one trash entry back. */
  datatype Batch = Batch(asked: nat, total: nat, replies: nat, back: nat, ids: seq<ReqId>) {
    function Counting(error: bool): Batch {
      this.(replies := replies + 1, back := if error then back else back + 1)
    }
  }

  /** What a request asks of the daemon. */
  datatype Request =
    | AskRename(path: Bytes, name: Bytes)
    | AskRestore(trashedAs: Bytes, info: Bytes)
    | AskConflicts(sources: seq<Bytes>, dest: Bytes)
    | AskTransfer(isMove: bool, sources: seq<Bytes>, dest: Bytes, policy: Policy)

  /** A transfer waiting on a conflict answer. */
  datatype Pending = Pending(requestId: ReqId, sources: seq<Bytes>, dest: Bytes, isMove: bool, isUndo: bool) {
    function Question(): Request { AskConflicts(sources, dest) }

    function Transfer(policy: Policy): Request { AskTransfer(isMove, sources, dest, policy) }
  }

  function Restores(items: seq<Item>): seq<Request> {
    seq(|items|, i requires 0 <= i < |items| => AskRestore(items[i].trashedAs, items[i].info))
  }

  /** The requests the socket took, of those it was given. */
  function Taken(rs: seq<Request>, went: seq<bool>): seq<Request>
    requires |went| == |rs|
  {
    if rs == [] then []
    else
      var n := |rs| - 1;
      Taken(rs[..n], went[..n]) + if went[n] then [rs[n]] else []
  }

  lemma NothingTaken(items: seq<Item>)
    ensures |Restores(items)| == |items| && Restores(items)[..0] == [] && Taken([], []) == []
    ensures Restores(items)[..|items|] == Restores(items)
  {
  }

  lemma OneMoreTaken(items: seq<Item>, i: nat, went: seq<bool>, ok: bool)
    requires i < |items| && |went| == i
    ensures |Restores(items)| == |items|
    ensures var rs, r := Restores(items), AskRestore(items[i].trashedAs, items[i].info);
      && rs[..i + 1] == rs[..i] + [r]
      && Taken(rs[..i + 1], went + [ok]) == Taken(rs[..i], went) + if ok then [r] else []
  {
    var rs := Restores(items);
    assert rs[..i + 1][..i] == rs[..i] && (went + [ok])[..i] == went;
  }

  /** What an answer given up on will arrive under, and the entry it belongs to. */
  datatype Late<K> = Late(key: K, entry: Option<Entry>)

  datatype Outcome = DidMove | DidCopy | DidSkip

  /** A finished Job as the daemon describes it. */
  datatype Done = Done(job: JobId, outcome: Outcome, filesTotal: nat, filesSkippedExisting: nat,
                       source: Bytes, destination: Bytes, landedAs: seq<Bytes>) {
    /** Only a whole, single-file move under a known name is recorded. */
    function Deed(): Option<Deed> {
      if outcome.DidMove? && filesTotal == 1 && filesSkippedExisting == 0 && |landedAs| == 1 && landedAs[0] != []
      then Some(WasMoved(source, Trash.Join(destination, landedAs[0])))
      else None
    }
  }

  function BaseName(path: Bytes): Bytes { if Trash.SLASH in path then Trash.FileName(path) else path }

  function DirName(path: Bytes): Bytes { if Trash.SLASH in path then Trash.Parent(path) else path }

  function FirstLate<K(==)>(ls: seq<Late<K>>, key: K): (n: nat)
    ensures n <= |ls| && (n < |ls| ==> ls[n].key == key) && forall i | 0 <= i < n :: ls[i].key != key
  {
    if ls == [] || ls[0].key == key then 0 else 1 + FirstLate(ls[1..], key)
  }

  function FirstBatch(ls: seq<Late<Batch>>, id: ReqId): (n: nat)
    ensures n <= |ls| && (n < |ls| ==> id in ls[n].key.ids) && forall i | 0 <= i < n :: id !in ls[i].key.ids
  {
    if ls == [] || id in ls[0].key.ids then 0 else 1 + FirstBatch(ls[1..], id)
  }

  function Cut<T>(ls: seq<T>, n: nat): seq<T>
    requires n < |ls|
  {
    ls[..n] + ls[n + 1..]
  }

  datatype State = State(stack: Stack, requestId: Option<ReqId>, jobId: Option<JobId>, pending: Option<Pending>,
                         batch: Option<Batch>, lateRequests: seq<Late<ReqId>>, lateJobs: seq<Late<JobId>>,
                         lateBatches: seq<Late<Batch>>, nextId: ReqId) {
    /******* Asking *******/

    function Ids(n: nat): seq<ReqId> { seq(n, i => nextId + i) }

    predicate Ready(alive: bool) { !stack.busy && stack.entries != [] && alive }

    function Top(): Entry
      requires stack.entries != []
    {
      stack.entries[|stack.entries| - 1]
    }

    /** The first `sent` requests of the undo reach the socket; the rest are refused. */
    function UndoLast(alive: bool, sent: nat): State {
      if !Ready(alive) then this
      else match Top().deed
        case WasTrashed(items) =>
          if sent == 0 then this.(batch := None)
          else this.(batch := Some(Batch(|items|, sent, 0, 0, Ids(sent))), nextId := nextId + sent,
                     stack := stack.Begin())
        case WasRenamed(_, _) =>
          if sent == 0 then this else this.(requestId := Some(nextId), nextId := nextId + 1, stack := stack.Begin())
        case WasMoved(source, destination) =>
          var asking := BeginTransfer(alive, sent > 0, [destination], DirName(source), true, true);
          if asking == this then this else asking.(stack := stack.Begin())
    }

    /** What the undo of the top entry asks the daemon, in this order. */
    function UndoRequests(alive: bool): seq<Request> {
      if !Ready(alive) then []
      else match Top().deed
        case WasTrashed(items) => Restores(items)
        case WasRenamed(path, originalName) => [AskRename(path, originalName)]
        case WasMoved(_, _) => if pending.Some? then [] else [UndoLast(alive, 1).pending.value.Question()]
    }

    function BeginTransfer(alive: bool, sent: bool, sources: seq<Bytes>, dest: Bytes, isMove: bool,
                           isUndo: bool): State {
      if sources == [] || !alive || pending.Some? || !sent then this
      else this.(pending := Some(Pending(nextId, sources, dest, isMove, isUndo)), nextId := nextId + 1)
    }

    function ReleasedIf(isUndo: bool): State { if isUndo then this.(stack := stack.Release()) else this }

    function SendPending(sent: bool): State {
      if pending.None? then this
      else if !sent then this.(pending := None).ReleasedIf(pending.value.isUndo)
      else
        var next := this.(pending := None, nextId := nextId + 1);
        if pending.value.isUndo then next.(requestId := Some(nextId), jobId := None) else next
    }

    /** The question timed out, or was cancelled. */
    function GiveUpAsking(): State {
      if pending.None? then this else this.(pending := None).ReleasedIf(pending.value.isUndo)
    }

    /******* Answers *******/

    function ConflictsFound(id: ReqId, collisions: bool, sent: bool): State {
      if pending.None? || pending.value.requestId != id || collisions then this else SendPending(sent)
    }

    /** What an answer to a conflict question sends: nothing that was not found clear
        may be written over. */
    function AnswerRequests(id: ReqId, collisions: bool): seq<Request> {
      if pending.None? || pending.value.requestId != id || collisions then [] else [pending.value.Transfer(Skip)]
    }

    function Acknowledged(id: ReqId, job: Option<JobId>, error: bool): State {
      if requestId != Some(id) then
        var n := FirstLate(lateRequests, id);
        if n == |lateRequests| then this
        else
          var taken := this.(lateRequests := Cut(lateRequests, n));
          if job.None? then taken else taken.(lateJobs := lateJobs + [Late(job.value, lateRequests[n].entry)])
      else if error then this.(requestId := None, stack := stack.Release())
      else if job.Some? then this.(jobId := job)
      else this
    }

    function Renamed(id: ReqId, from: Bytes, to: Bytes, error: bool): State {
      if requestId == Some(id) then
        this.(requestId := None, stack := if error then stack.Release() else stack.Commit())
      else
        var n := FirstLate(lateRequests, id);
        if n < |lateRequests| then
          this.(lateRequests := Cut(lateRequests, n),
                stack := if error then stack else stack.Retire(lateRequests[n].entry))
        else if error then this
        else this.(stack := stack.Push(WasRenamed(to, BaseName(from))))
    }

    function Restored(id: ReqId, error: bool): State {
      if batch.None? || id !in batch.value.ids then RestoredLate(id, error)
      else
        var b := batch.value.Counting(error);
        if b.replies < b.total then this.(batch := Some(b))
        else this.(batch := None, stack := if b.back == 0 && b.back != b.asked then stack.Release() else stack.Commit())
    }

    function RestoredLate(id: ReqId, error: bool): State {
      var n := FirstBatch(lateBatches, id);
      if n == |lateBatches| then this
      else
        var b := lateBatches[n].key.Counting(error);
        if b.replies < b.total then this.(lateBatches := lateBatches[n := lateBatches[n].(key := b)])
        else this.(lateBatches := Cut(lateBatches, n),
                   stack := if b.back == 0 && b.back != b.asked then stack else stack.Retire(lateBatches[n].entry))
    }

    function Finished(d: Done): State {
      if jobId == Some(d.job) then
        this.(jobId := None, requestId := None, stack := if d.outcome.DidSkip? then stack.Release() else stack.Commit())
      else
        var n := FirstLate(lateJobs, d.job);
        if n < |lateJobs| then
          this.(lateJobs := Cut(lateJobs, n),
                stack := if d.outcome.DidSkip? then stack else stack.Retire(lateJobs[n].entry))
        else if d.Deed().Some? then this.(stack := stack.Push(d.Deed().value))
        else this
    }

    function Failed(job: JobId): State {
      if jobId == Some(job) then this.(jobId := None, requestId := None, stack := stack.Release())
      else
        var n := FirstLate(lateJobs, job);
        if n < |lateJobs| then this.(lateJobs := Cut(lateJobs, n)) else this
    }

    /** The daemon has gone quiet. */
    function Dropped(): State {
      if !stack.busy then this
      else State(stack.Release(), None, None, pending, None,
                 if requestId.Some? then lateRequests + [Late(requestId.value, stack.inFlight)] else lateRequests,
                 if jobId.Some? then lateJobs + [Late(jobId.value, stack.inFlight)] else lateJobs,
                 if batch.Some? then lateBatches + [Late(batch.value, stack.inFlight)] else lateBatches, nextId)
    }
  }

  const OPENING := State(Stack([], None, false, 0), None, None, None, None, [], [], [], 1)

  /******* The window, its connection, and who asked for what *******/

  datatype Kind = KConflicts | KTransfer | KRename | KRestore | KOther

  /** On whose behalf: for one undo of that entry, or not for an undo. */
  datatype Origin = Undoing(entry: Entry) | Ordinary

  datatype Asked = Asked(kind: Kind, origin: Origin)

  /** `open` are the requests not yet answered, `jobs` the Jobs acknowledged to this
      window, `ended` those heard to have ended; `together` says which restores went out
      for one Ctrl+Z, and `came` which restores brought their file back. */
  datatype World = World(s: State, asked: map<ReqId, Asked>, open: set<ReqId>, jobs: map<JobId, Origin>,
                         ended: set<JobId>,
                         together: map<ReqId, seq<ReqId>>, came: set<ReqId>) {
    function OriginOf(id: ReqId): Origin { if id in asked then asked[id].origin else Ordinary }

    function JobOrigin(j: JobId): Origin { if j in jobs then jobs[j] else Ordinary }

    /** The ids of the next `n` requests. */
    function NewIds(n: nat): set<ReqId> { set id | id in s.Ids(n) }
  }

  datatype Event =
    | TrashConfirmed(items: seq<Item>)
    | AskOther(kind: Kind)
    | CtrlZ(alive: bool, sends: nat)
    | Transfer(alive: bool, sent: bool, sources: seq<Bytes>, dest: Bytes, isMove: bool)
    | Choose(sent: bool)
    | GiveUp
    | AnswerConflicts(id: ReqId, collisions: bool, sent: bool)
    | AnswerAck(id: ReqId, taken: Option<JobId>)
    | AnswerRenamed(id: ReqId, from: Bytes, to: Bytes, error: bool)
    | AnswerRestored(id: ReqId, error: bool)
    | JobFinished(d: Done)
    | JobFailed(job: JobId)
    | Drop

  function KindFor(d: Deed): Kind {
    match d
    case WasMoved(_, _) => KConflicts
    case WasTrashed(_) => KRestore
    case WasRenamed(_, _) => KRename
  }

  function Needs(d: Deed): nat { if d.WasTrashed? then |d.items| else 1 }

  function StateAfter(s: State, e: Event): State {
    match e
    case TrashConfirmed(items) => s.(stack := s.stack.Push(WasTrashed(items)))
    case AskOther(_) => s.(nextId := s.nextId + 1)
    case CtrlZ(alive, sends) => s.UndoLast(alive, sends)
    case Transfer(alive, sent, sources, dest, isMove) => s.BeginTransfer(alive, sent, sources, dest, isMove, false)
    case Choose(sent) => s.SendPending(sent)
    case GiveUp => s.GiveUpAsking()
    case AnswerConflicts(id, collisions, sent) => s.ConflictsFound(id, collisions, sent)
    case AnswerAck(id, taken) => s.Acknowledged(id, taken, taken.None?)
    case AnswerRenamed(id, from, to, error) => s.Renamed(id, from, to, error)
    case AnswerRestored(id, error) => s.Restored(id, error)
    case JobFinished(d) => s.Finished(d)
    case JobFailed(j) => s.Failed(j)
    case Drop => s.Dropped()
  }

  /** A pending transfer goes out on behalf of whoever asked its question. */
  function PendingOrigin(w: World): Origin {
    if w.s.pending.Some? then w.OriginOf(w.s.pending.value.requestId) else Ordinary
  }

  /** What an event sends, and on whose behalf. */
  function Sends(w: World, e: Event): (r: (nat, Asked))
    ensures StateAfter(w.s, e).nextId == w.s.nextId + r.0
  {
    var s := w.s;
    var n := StateAfter(s, e).nextId - s.nextId;
    (n, match e
        case AskOther(kind) => Asked(kind, Ordinary)
        case CtrlZ(alive, _) => if s.Ready(alive) then Asked(KindFor(s.Top().deed), Undoing(s.Top()))
          else Asked(KOther, Ordinary)
        case Transfer(_, _, _, _, _) => Asked(KConflicts, Ordinary)
        case _ => Asked(KTransfer, PendingOrigin(w)))
  }

  function AnsweredBy(e: Event): set<ReqId> {
    match e
    case AnswerConflicts(id, _, _) => {id}
    case AnswerAck(id, _) => {id}
    case AnswerRenamed(id, _, _, _) => {id}
    case AnswerRestored(id, _) => {id}
    case _ => {}
  }

  function EndedBy(e: Event): set<JobId> {
    match e
    case JobFinished(d) => {d.job}
    case JobFailed(j) => {j}
    case _ => {}
  }

  /** The connection delays but loses nothing: a request is answered once, by an
      answer of its kind; a Job is acknowledged before it ends, under an id no other
      Job has, and ends once. Jobs of other windows are heard of as well. */
  predicate May(w: World, e: Event) {
    match e
    case TrashConfirmed(items) => items != []
    case AskOther(kind) => kind in {KRename, KOther}
    case CtrlZ(alive, sends) => w.s.Ready(alive) ==> sends <= Needs(w.s.Top().deed)
    case AnswerConflicts(id, _, _) => Answers(w, id, {KConflicts})
    case AnswerAck(id, taken) =>
      && Answers(w, id, {KTransfer, KOther})
      && (taken.Some? ==> w.asked[id].kind == KTransfer && taken.value !in w.jobs && taken.value !in w.ended)
    case AnswerRenamed(id, _, _, _) => Answers(w, id, {KRename})
    case AnswerRestored(id, _) => Answers(w, id, {KRestore})
    case JobFinished(d) => d.job !in w.ended
    case JobFailed(j) => j !in w.ended
    case _ => true
  }

  function After(w: World, e: Event): World {
    var (n, a) := Sends(w, e);
    World(StateAfter(w.s, e),
          map id | id in w.asked.Keys + w.NewIds(n) :: if id in w.asked then w.asked[id] else a,
          w.open + w.NewIds(n) - AnsweredBy(e),
          if e.AnswerAck? && e.taken.Some? then w.jobs[e.taken.value := w.OriginOf(e.id)] else w.jobs,
          w.ended + EndedBy(e),
          map id | id in w.together.Keys + (if e.CtrlZ? then w.NewIds(n) else {}) ::
            if e.CtrlZ? && id in w.NewIds(n) then w.s.Ids(n) else w.together[id],
          if e.AnswerRestored? && !e.error then w.came + {e.id} else w.came)
  }

  predicate Answers(w: World, id: ReqId, kinds: set<Kind>) {
    id in w.open && id in w.asked && w.asked[id].kind in kinds
  }

  const START := World(OPENING, map[], {}, map[], {}, map[], {})

  /** The exception: the daemon goes quiet while the conflict question of an undo is
      still out. The question is not withdrawn, and its entry is let go. */
  predicate Strands(w: World, e: Event) { e.Drop? && Asking(w.s) }

  /** A run in which that does not happen. */
  ghost predicate IsRun(hist: seq<World>) {
    && |hist| > 0 && hist[0] == START
    && forall n | 0 <= n < |hist| - 1 :: Steps(hist[n], hist[n + 1])
  }

  ghost predicate Steps(w: World, w': World) { exists e :: May(w, e) && !Strands(w, e) && w' == After(w, e) }

  /******* The invariant *******/

  /** The question of an undo is out. */
  predicate Asking(s: State) { s.pending.Some? && s.pending.value.isUndo }

  type Asks = map<ReqId, Asked>

  type Jobs = map<JobId, Origin>

  /** Request `id` was made for the undo of `e`. */
  predicate For(asked: Asks, id: ReqId, kinds: set<Kind>, e: Option<Entry>) {
    e.Some? && id in asked && asked[id].kind in kinds && asked[id].origin == Undoing(e.value)
  }

  predicate JobFor(jobs: Jobs, j: JobId, e: Option<Entry>) { e.Some? && j in jobs && jobs[j] == Undoing(e.value) }

  predicate BatchFor(asked: Asks, b: Batch, e: Option<Entry>) {
    forall id | id in b.ids :: For(asked, id, {KRestore}, e)
  }

  predicate PendingFor(asked: Asks, p: Pending, e: Option<Entry>) {
    if p.isUndo then For(asked, p.requestId, {KConflicts}, e)
    else p.requestId in asked && asked[p.requestId] == Asked(KConflicts, Ordinary)
  }

  /** While an entry is in flight exactly one handle is in use. */
  predicate Phase(s: State) {
    && (s.requestId.Some? || s.batch.Some? || Asking(s) <==> s.stack.busy)
    && (s.jobId.Some? ==> s.requestId.Some?)
    && !(s.requestId.Some? && s.batch.Some?) && !(s.requestId.Some? && Asking(s)) && !(s.batch.Some? && Asking(s))
  }

  ghost predicate PhaseOk(s: State) { s.stack.Valid() && Phase(s) }

  /** A handle in use belongs to the entry in flight. */
  ghost predicate LinksOk(w: World) {
    var s := w.s;
    var e := s.stack.inFlight;
    && (s.requestId.Some? ==> For(w.asked, s.requestId.value, {KTransfer, KRename}, e))
    && (s.jobId.Some? ==> JobFor(w.jobs, s.jobId.value, e))
    && (s.jobId.Some? && s.requestId.Some? ==>
        w.asked[s.requestId.value].kind == KTransfer && s.requestId.value !in w.open)
    && (s.pending.Some? ==> PendingFor(w.asked, s.pending.value, e))
    && (s.batch.Some? ==> BatchFor(w.asked, s.batch.value, e))
  }

  /** A record of something given up on belongs to the entry it names. */
  ghost predicate RecordsOk(w: World) {
    && (forall l | l in w.s.lateRequests :: For(w.asked, l.key, {KTransfer, KRename}, l.entry))
    && (forall l | l in w.s.lateJobs :: JobFor(w.jobs, l.key, l.entry))
    && (forall l | l in w.s.lateBatches :: BatchFor(w.asked, l.key, l.entry))
  }

  predicate Late?<K(==)>(ls: seq<Late<K>>, key: K) { exists l :: l in ls && l.key == key }

  /** Whatever an undo is still owed would be recognised. */
  ghost predicate NothingForgotten(w: World) {
    var s := w.s;
    && (forall id | id in w.open :: id in w.asked && Recognised(w, id))
    && (forall j | j in w.jobs && j !in w.ended && w.jobs[j].Undoing? :: s.jobId == Some(j) || Late?(s.lateJobs, j))
  }

  ghost predicate Recognised(w: World, id: ReqId)
    requires id in w.asked
  {
    w.asked[id].kind in {KTransfer, KRename} && w.asked[id].origin.Undoing? ==>
      w.s.requestId == Some(id) || Late?(w.s.lateRequests, id)
  }

  /** Names are not reused: request ids, and the identities of entries. */
  ghost predicate Fresh(w: World) {
    && (forall id | id in w.asked :: id < w.s.nextId && Made(w, w.asked[id].origin))
    && (forall j | j in w.jobs :: Made(w, w.jobs[j]))
  }

  predicate Made(w: World, o: Origin) { o.Undoing? ==> o.entry.tag < w.s.stack.made }

  ghost predicate Inv(w: World) { PhaseOk(w.s) && LinksOk(w) && RecordsOk(w) && NothingForgotten(w) && Fresh(w) }

  /******* Every event keeps it *******/

  lemma CutKeepsOthers<T>(ls: seq<T>, n: nat)
    requires n < |ls|
    ensures forall l | l in Cut(ls, n) :: l in ls
    ensures forall l | l in ls && l != ls[n] :: l in Cut(ls, n)
  {
    forall l | l in ls && l != ls[n] ensures l in Cut(ls, n) {
      var i :| 0 <= i < |ls| && ls[i] == l;
      assert l == Cut(ls, n)[if i < n then i else i - 1];
    }
  }

  lemma TakenFrom<K>(ls: seq<Late<K>>, key: K)
    ensures var n := FirstLate(ls, key); n < |ls| <==> Late?(ls, key)
    ensures var n := FirstLate(ls, key); n < |ls| ==>
      ls[n] in ls && (forall l :: l in Cut(ls, n) ==> l in ls)
        && (forall k | k != key && Late?(ls, k) :: Late?(Cut(ls, n), k))
  {
    var n := FirstLate(ls, key);
    if n < |ls| {
      CutKeepsOthers(ls, n);
      hide Cut;
      forall k | k != key && Late?(ls, k) ensures Late?(Cut(ls, n), k) {
        var l :| l in ls && l.key == k;
        assert l in Cut(ls, n);
      }
    }
  }

  /** All that an event may do to the stack. */
  ghost predicate OneMove(t: Stack, t': Stack) {
    || t' == t || t' == t.Begin() || t' == t.Release() || t' == t.Commit()
    || (exists deed :: t' == t.Push(deed)) || (exists e :: t' == t.Retire(e))
  }

  lemma StackMoves(s: State, e: Event)
    ensures OneMove(s.stack, StateAfter(s, e).stack)
  {
    hide Stack.Begin, Stack.Release, Stack.Commit, Stack.Push, Stack.Retire;
  }

  lemma RetireKeeps(t: Stack, e: Option<Entry>)
    requires t.Valid()
    ensures t.Retire(e).Valid() && t.Retire(e).made == t.made
  {
    if e.Some? { WithoutTakesOne(t.entries, e.value); }
  }

  lemma CommitKeeps(t: Stack)
    requires t.Valid()
    ensures t.Commit().Valid() && t.Commit().made == t.made
  {
    if t.inFlight.Some? { WithoutTakesOne(t.entries, t.inFlight.value); }
  }

  lemma PushingKeeps(t: Stack, deed: Deed)
    requires t.Valid()
    ensures t.Push(deed).Valid() && t.Push(deed).made == t.made + 1
  {
  }

  lemma MoveKeeps(t: Stack, t': Stack)
    requires t.Valid() && OneMove(t, t')
    ensures t'.Valid() && t.made <= t'.made <= t.made + 1
  {
    CommitKeeps(t);
    if deed :| t' == t.Push(deed) {
      PushingKeeps(t, deed);
    } else if e :| t' == t.Retire(e) {
      RetireKeeps(t, e);
    }
    hide Stack.Push, Stack.Retire, Stack.Commit;
  }

  predicate Grows<K(==), V(==)>(m: map<K, V>, m': map<K, V>) { forall k | k in m :: k in m' && m'[k] == m[k] }

  lemma NewIdsAre(w: World, n: nat)
    ensures forall id :: id in w.NewIds(n) <==> w.s.nextId <= id < w.s.nextId + n
  {
    forall id | w.s.nextId <= id < w.s.nextId + n ensures id in w.s.Ids(n) {
      assert w.s.Ids(n)[id - w.s.nextId] == id;
    }
  }

  /** How an event changes the books, apart from what it does to the window. */
  lemma Books(w: World, e: Event)
    ensures var (n, a) := Sends(w, e);
      var w' := After(w, e);
      && w'.s == StateAfter(w.s, e) && Grows(w.asked, w'.asked) && w'.ended == w.ended + EndedBy(e)
      && (forall id | w.s.nextId <= id < w.s.nextId + n && id !in w.asked :: id in w'.asked && w'.asked[id] == a)
      && (forall id | id in w'.asked :: id in w.asked || w.s.nextId <= id < w.s.nextId + n)
      && (forall id | id in w'.open :: id !in AnsweredBy(e) && (id in w.open || w.s.nextId <= id < w.s.nextId + n))
      && w'.jobs == if e.AnswerAck? && e.taken.Some? then w.jobs[e.taken.value := w.OriginOf(e.id)] else w.jobs
  {
    var (n, a) := Sends(w, e);
    NewIdsAre(w, n);
    hide StateAfter, Sends, World.NewIds;
  }

  lemma OriginIsMade(w: World, e: Event)
    requires w.s.stack.Valid() && Fresh(w)
    ensures Made(w, Sends(w, e).1.origin)
  {
    hide StateAfter;
  }

  lemma FreshKeeps(w: World, e: Event)
    requires w.s.stack.Valid() && Fresh(w) && May(w, e)
    ensures Fresh(After(w, e))
  {
    Books(w, e);
    StackMoves(w.s, e);
    MoveKeeps(w.s.stack, StateAfter(w.s, e).stack);
    OriginIsMade(w, e);
    hide StateAfter, After, Sends, Stack.Valid, OneMove;
  }

  /******* The records *******/

  /** Where a new record comes from. */
  lemma NewRecords(s: State, e: Event)
    ensures var s' := StateAfter(s, e);
      && (forall l | l in s'.lateRequests ::
          l in s.lateRequests || (e.Drop? && s.requestId == Some(l.key) && l.entry == s.stack.inFlight))
      && (forall l | l in s'.lateJobs ::
          l in s.lateJobs || (e.Drop? && s.jobId == Some(l.key) && l.entry == s.stack.inFlight)
            || (e.AnswerAck? && e.taken == Some(l.key) && Late(e.id, l.entry) in s.lateRequests))
      && (forall l | l in s'.lateBatches ::
          l in s.lateBatches || (e.Drop? && s.batch == Some(l.key) && l.entry == s.stack.inFlight)
            || Counted(s.lateBatches, l))
  {
    match e
    case AnswerAck(id, taken) => NewFollowed(s, id, taken);
    case AnswerRenamed(id, _, _, _) => TakenFrom(s.lateRequests, id);
    case AnswerRestored(id, error) => NewBatches(s, id, error);
    case JobFinished(d) => TakenFrom(s.lateJobs, d.job);
    case JobFailed(j) => TakenFrom(s.lateJobs, j);
    case Drop => DropAdds(s);
    case _ =>
    hide State.Acknowledged, State.Restored, State.Dropped, Cut, Counted, FirstLate;
  }

  lemma DropAdds(s: State)
    ensures var s' := s.Dropped();
      && (forall l | l in s'.lateRequests ::
          l in s.lateRequests || (s.requestId == Some(l.key) && l.entry == s.stack.inFlight))
      && (forall l | l in s'.lateJobs :: l in s.lateJobs || (s.jobId == Some(l.key) && l.entry == s.stack.inFlight))
      && (forall l | l in s'.lateBatches ::
          l in s.lateBatches || (s.batch == Some(l.key) && l.entry == s.stack.inFlight))
  {
  }

  lemma NewFollowed(s: State, id: ReqId, taken: Option<JobId>)
    ensures var s' := s.Acknowledged(id, taken, taken.None?);
      && (forall l | l in s'.lateRequests :: l in s.lateRequests)
      && (forall l | l in s'.lateJobs ::
          l in s.lateJobs || (taken == Some(l.key) && Late(id, l.entry) in s.lateRequests))
  {
    TakenFrom(s.lateRequests, id);
    var n := FirstLate(s.lateRequests, id);
    if n < |s.lateRequests| { assert s.lateRequests[n] == Late(id, s.lateRequests[n].entry); }
  }

  /** `l` is one of `ls` but for its count. */
  predicate Counted(ls: seq<Late<Batch>>, l: Late<Batch>) {
    exists k :: k in ls && k.entry == l.entry && k.key.ids == l.key.ids
  }

  lemma NewBatches(s: State, id: ReqId, error: bool)
    ensures var s' := s.Restored(id, error);
      && s'.lateRequests == s.lateRequests && s'.lateJobs == s.lateJobs
      && forall l | l in s'.lateBatches :: l in s.lateBatches || Counted(s.lateBatches, l)
  {
    var s' := s.Restored(id, error);
    var n := FirstBatch(s.lateBatches, id);
    forall l | l in s'.lateBatches && l !in s.lateBatches ensures Counted(s.lateBatches, l) {
      assert s.lateBatches[n] in s.lateBatches;
    }
  }

  lemma RecordsKeep(w: World, e: Event)
    requires LinksOk(w) && RecordsOk(w) && May(w, e)
    requires forall id | id in w.asked :: id < w.s.nextId
    ensures RecordsOk(After(w, e))
  {
    Books(w, e);
    NewRecords(w.s, e);
    hide StateAfter, After, Sends;
    var w' := After(w, e);
    forall l | l in w'.s.lateJobs ensures JobFor(w'.jobs, l.key, l.entry) {
      if l in w.s.lateJobs { assert JobFor(w.jobs, l.key, l.entry); }
    }
    forall l | l in w'.s.lateBatches ensures BatchFor(w'.asked, l.key, l.entry) {
      if !(e.Drop? && w.s.batch == Some(l.key) && l.entry == w.s.stack.inFlight) {
        var k :| k in w.s.lateBatches && k.entry == l.entry && k.key.ids == l.key.ids;
        assert BatchFor(w.asked, k.key, k.entry);
      }
    }
  }

  /** A record is kept until its answer comes. */
  lemma KeptRecords(s: State, e: Event)
    ensures var s' := StateAfter(s, e);
      && (forall k | Late?(s.lateRequests, k) && k !in AnsweredBy(e) :: Late?(s'.lateRequests, k))
      && (forall j | Late?(s.lateJobs, j) && j !in EndedBy(e) :: Late?(s'.lateJobs, j))
  {
    match e
    case AnswerAck(id, taken) => AckRecords(s, id, taken);
    case AnswerRenamed(id, _, _, _) => TakenFrom(s.lateRequests, id);
    case JobFinished(d) => TakenFrom(s.lateJobs, d.job);
    case JobFailed(j) => TakenFrom(s.lateJobs, j);
    case Drop => if s.stack.busy { DropRecords(s); }
    case _ =>
  }

  lemma AckRecords(s: State, id: ReqId, taken: Option<JobId>)
    ensures var s' := s.Acknowledged(id, taken, taken.None?);
      && (forall k | Late?(s.lateRequests, k) && k != id :: Late?(s'.lateRequests, k))
      && (forall j | Late?(s.lateJobs, j) :: Late?(s'.lateJobs, j))
  {
    TakenFrom(s.lateRequests, id);
    var s' := s.Acknowledged(id, taken, taken.None?);
    forall j | Late?(s.lateJobs, j) ensures Late?(s'.lateJobs, j) {
      var l :| l in s.lateJobs && l.key == j;
      assert l in s'.lateJobs;
    }
  }

  /** A handle still owed an answer stays in use, or becomes a record. */
  lemma KeptHandles(s: State, e: Event)
    requires PhaseOk(s) && (s.jobId.Some? && (e.AnswerAck? || e.AnswerRenamed?) ==> s.requestId != Some(e.id))
    ensures var s' := StateAfter(s, e);
      && (s.requestId.Some? && s.requestId.value !in AnsweredBy(e) && s.jobId.None? ==>
            s'.requestId == s.requestId || Late?(s'.lateRequests, s.requestId.value))
      && (s.jobId.Some? && s.jobId.value !in EndedBy(e) ==> s'.jobId == s.jobId || Late?(s'.lateJobs, s.jobId.value))
  {
    if e.Drop? && s.stack.busy { DropRecords(s); }
  }

  lemma DropRecords(s: State)
    requires s.stack.busy
    ensures var s' := s.Dropped();
      && (forall k | Late?(s.lateRequests, k) :: Late?(s'.lateRequests, k))
      && (forall j | Late?(s.lateJobs, j) :: Late?(s'.lateJobs, j))
      && (s.requestId.Some? ==> Late?(s'.lateRequests, s.requestId.value))
      && (s.jobId.Some? ==> Late?(s'.lateJobs, s.jobId.value))
  {
    var s' := s.Dropped();
    forall k | Late?(s.lateRequests, k) ensures Late?(s'.lateRequests, k) {
      var l :| l in s.lateRequests && l.key == k;
      assert l in s'.lateRequests;
    }
    forall j | Late?(s.lateJobs, j) ensures Late?(s'.lateJobs, j) {
      var l :| l in s.lateJobs && l.key == j;
      assert l in s'.lateJobs;
    }
    if s.requestId.Some? { assert s'.lateRequests[|s.lateRequests|].key == s.requestId.value; }
    if s.jobId.Some? { assert s'.lateJobs[|s.lateJobs|].key == s.jobId.value; }
  }

  /** The Job of an undo is followed from the acknowledgement on. */
  lemma JobIsFollowed(s: State, id: ReqId, j: JobId)
    requires s.requestId == Some(id) || Late?(s.lateRequests, id)
    ensures var s' := s.Acknowledged(id, Some(j), false); s'.jobId == Some(j) || Late?(s'.lateJobs, j)
  {
    TakenFrom(s.lateRequests, id);
    var s' := s.Acknowledged(id, Some(j), false);
    if s.requestId != Some(id) { assert s'.lateJobs[|s.lateJobs|].key == j; }
  }

  /** A request that carries out an undo is remembered when it goes out. */
  lemma SentIsRemembered(w: World, e: Event)
    requires PhaseOk(w.s) && LinksOk(w)
    ensures var (n, a) := Sends(w, e);
      n > 0 && a.kind in {KTransfer, KRename} && a.origin.Undoing? ==>
        n == 1 && StateAfter(w.s, e).requestId == Some(w.s.nextId)
  {
  }

  lemma ForgottenKeeps(w: World, e: Event)
    requires PhaseOk(w.s) && LinksOk(w) && NothingForgotten(w) && Fresh(w) && May(w, e)
    ensures NothingForgotten(After(w, e))
  {
    var w' := After(w, e);
    Books(w, e);
    KeptRecords(w.s, e);
    KeptHandles(w.s, e);
    SentIsRemembered(w, e);
    if e.AnswerAck? && e.taken.Some? && w.OriginOf(e.id).Undoing? { JobIsFollowed(w.s, e.id, e.taken.value); }
    assert e.AnswerAck? && e.taken.Some? ==> w'.s == w.s.Acknowledged(e.id, e.taken, false);
    hide StateAfter, After, Sends, PhaseOk;
    forall id | id in w'.open ensures id in w'.asked && Recognised(w', id) {
      if id in w.open { assert Recognised(w, id); }
    }
  }

  /******* The handles *******/

  /** Only acknowledgements and renames come back under the request's own id, and an
      undo whose Job is known has had its acknowledgement. */
  predicate Consistent(s: State, e: Event) {
    s.jobId.Some? && (e.AnswerAck? || e.AnswerRenamed?) ==> s.requestId != Some(e.id)
  }

  lemma PhaseKeeps(s: State, e: Event)
    requires PhaseOk(s) && Consistent(s, e) && !(e.Drop? && Asking(s))
    ensures PhaseOk(StateAfter(s, e))
  {
    StackMoves(s, e);
    MoveKeeps(s.stack, StateAfter(s, e).stack);
    if e.CtrlZ? { CtrlZPhase(s, e); } else if TakesUp(s, e) { AskPhase(s, e); } else { AnswerPhase(s, e); }
    hide StateAfter;
  }

  lemma CtrlZPhase(s: State, e: Event)
    requires Phase(s) && e.CtrlZ?
    ensures Phase(StateAfter(s, e))
  {
    BusyAfter(s);
    hide Stack.Begin;
  }

  lemma AskPhase(s: State, e: Event)
    requires Phase(s) && TakesUp(s, e) && !e.CtrlZ?
    ensures Phase(StateAfter(s, e))
  {
    BusyAfter(s);
    hide Stack.Release;
  }

  lemma AnswerPhase(s: State, e: Event)
    requires Phase(s) && !TakesUp(s, e) && Consistent(s, e) && !(e.Drop? && Asking(s))
    ensures Phase(StateAfter(s, e))
  {
    BusyAfter(s);
    hide Stack.Begin, Stack.Release, Stack.Commit, Stack.Push, Stack.Retire;
  }

  lemma BusyAfter(s: State)
    ensures s.stack.entries != [] ==> s.stack.Begin().busy && s.stack.Begin().inFlight == Some(s.Top())
    ensures !s.stack.Release().busy && s.stack.Release().inFlight == None
    ensures !s.stack.Commit().busy && s.stack.Commit().inFlight == None
    ensures forall d :: s.stack.Push(d).busy == s.stack.busy && s.stack.Push(d).inFlight == s.stack.inFlight
    ensures forall e :: s.stack.Retire(e).busy == s.stack.busy && s.stack.Retire(e).inFlight == s.stack.inFlight
  {
  }

  /** Handles only dropped, or kept with the entry in flight. */
  predicate HandlesStand(s: State, s': State) {
    && (s'.requestId == s.requestId || (s'.requestId == None && s'.jobId == None))
    && (s'.jobId == s.jobId || s'.jobId == None)
    && (s'.pending == s.pending || s'.pending == None)
    && (s'.batch == None || (s.batch.Some? && s'.batch.value.ids == s.batch.value.ids))
    && (s'.stack.inFlight == s.stack.inFlight || (s'.requestId == None && s'.batch == None && !Asking(s')))
  }

  /** The events that take up a handle. */
  predicate TakesUp(s: State, e: Event) {
    || e.CtrlZ? || e.Transfer? || e.Choose? || e.AnswerConflicts?
    || (e.AnswerAck? && s.requestId == Some(e.id) && e.taken.Some?)
  }

  lemma HandlesAfter(s: State, e: Event)
    requires PhaseOk(s) && Consistent(s, e) && !(e.Drop? && Asking(s)) && !TakesUp(s, e)
    ensures HandlesStand(s, StateAfter(s, e))
  {
    BusyAfter(s);
    hide Stack.Valid, Stack.Begin, Stack.Release, Stack.Commit, Stack.Push, Stack.Retire;
  }

  lemma LinksStand(w: World, w': World)
    requires PhaseOk(w.s) && PhaseOk(w'.s) && LinksOk(w) && HandlesStand(w.s, w'.s)
    requires Grows(w.asked, w'.asked) && Grows(w.jobs, w'.jobs)
    requires forall id | id in w'.open :: id in w.open || id !in w.asked
    ensures LinksOk(w')
  {
    hide Stack.Valid;
    var s, s' := w.s, w'.s;
    if s'.batch.Some? {
      forall id | id in s'.batch.value.ids ensures For(w'.asked, id, {KRestore}, s'.stack.inFlight) {
        assert For(w.asked, id, {KRestore}, s.stack.inFlight);
      }
    }
  }

  lemma LinksKeep(w: World, e: Event)
    requires PhaseOk(w.s) && LinksOk(w) && Fresh(w) && May(w, e) && Consistent(w.s, e) && !Strands(w, e)
    requires forall id | id in w.open :: id in w.asked
    ensures LinksOk(After(w, e))
  {
    Books(w, e);
    PhaseKeeps(w.s, e);
    if !TakesUp(w.s, e) {
      HandlesAfter(w.s, e);
      hide StateAfter, After, Sends;
      LinksStand(w, After(w, e));
    } else if e.CtrlZ? {
      CtrlZLinks(w, e);
    } else {
      AskLinks(w, e);
    }
  }

  lemma CtrlZLinks(w: World, e: Event)
    requires PhaseOk(w.s) && LinksOk(w) && Fresh(w) && e.CtrlZ? && May(w, e)
    requires forall id | id in w.open :: id in w.asked
    ensures LinksOk(After(w, e))
  {
    var w' := After(w, e);
    Books(w, e);
    BusyAfter(w.s);
    hide After, Stack.Begin, Stack.Valid;
    if w.s.Ready(e.alive) && w.s.Top().deed.WasTrashed? && e.sends > 0 {
      forall id | id in w'.s.batch.value.ids ensures For(w'.asked, id, {KRestore}, w'.s.stack.inFlight) {}
    } else if !w.s.Ready(e.alive) || Sends(w, e).0 == 0 {
      LinksStand(w, w');
    }
  }

  lemma AskLinks(w: World, e: Event)
    requires PhaseOk(w.s) && LinksOk(w) && Fresh(w) && TakesUp(w.s, e) && !e.CtrlZ? && May(w, e) && Consistent(w.s, e)
    requires forall id | id in w.open :: id in w.asked
    ensures LinksOk(After(w, e))
  {
    var w' := After(w, e);
    Books(w, e);
    PhaseKeeps(w.s, e);
    hide After, Stack.Begin, Stack.Release, Stack.Valid;
    if e.AnswerAck? {
      hide Sends;
      LinksStand(w, w'.(s := w.s));
    } else {
      SendLinks(w, e);
    }
  }

  lemma SendLinks(w: World, e: Event)
    requires PhaseOk(w.s) && LinksOk(w) && Fresh(w) && (e.Transfer? || e.Choose? || e.AnswerConflicts?) && May(w, e)
    requires PhaseOk(After(w, e).s) && forall id | id in w.open :: id in w.asked
    ensures LinksOk(After(w, e))
  {
    Books(w, e);
    BusyAfter(w.s);
    hide After, Stack.Begin, Stack.Release, Stack.Valid;
    if w.s.batch.Some? {
      assert BatchFor(w.asked, w.s.batch.value, w.s.stack.inFlight);
    }
  }

  /******* The promises *******/

  lemma MayIsConsistent(w: World, e: Event)
    requires LinksOk(w) && PhaseOk(w.s) && May(w, e)
    ensures Consistent(w.s, e)
  {
  }

  /** Every event keeps the invariant, but for one: the daemon's going quiet while
      the conflict question of an undo is out breaks it, always. */
  lemma EventKeepsIff(w: World, e: Event)
    requires Inv(w) && May(w, e)
    ensures Inv(After(w, e)) <==> !Strands(w, e)
  {
    MayIsConsistent(w, e);
    if Strands(w, e) {
      assert Asking(After(w, e).s) && !After(w, e).s.stack.busy;
    } else {
      Books(w, e);
      hide StateAfter, After, LinksOk, RecordsOk, NothingForgotten, Fresh, Phase;
      PhaseKeeps(w.s, e);
      Keeps(w, e);
    }
  }

  lemma Keeps(w: World, e: Event)
    requires Inv(w) && May(w, e) && Consistent(w.s, e) && !Strands(w, e)
    ensures LinksOk(After(w, e)) && RecordsOk(After(w, e)) && NothingForgotten(After(w, e)) && Fresh(After(w, e))
  {
    assert (forall id | id in w.open :: id in w.asked) && forall id | id in w.asked :: id < w.s.nextId;
    hide After, LinksOk, RecordsOk, NothingForgotten, Fresh, Phase;
    LinksKeep(w, e);
    RecordsKeep(w, e);
    ForgottenKeeps(w, e);
    FreshKeeps(w, e);
  }

  lemma {:induction false} RunKeeps(hist: seq<World>, n: nat)
    requires IsRun(hist) && n < |hist|
    ensures Inv(hist[n])
  {
    hide Inv, May, Strands, After;
    if n == 0 {
      StartOk();
    } else {
      RunKeeps(hist, n - 1);
      assert Steps(hist[n - 1], hist[n - 1 + 1]);
      var e :| May(hist[n - 1], e) && !Strands(hist[n - 1], e) && hist[n - 1 + 1] == After(hist[n - 1], e);
      EventKeepsIff(hist[n - 1], e);
    }
  }

  lemma StartOk()
    ensures Inv(START)
  {
  }
}
