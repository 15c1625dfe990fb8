/**
 The window as it is written: handlers that reassign its fields. Each is proved to
 take the state where `UndoProtocol` says, so what is proved there holds of it.
 */
module UndoWindow {
  import opened Wrappers
  import opened Paths
  import opened UndoStack
  import opened UndoProtocol
  import Trash

  class Window {
    const undoStack: SessionStack
    var undoRequestId: Option<ReqId>
    var undoJobId: Option<JobId>
    var pendingTransfer: Option<Pending>
    var restoreBatch: Option<Batch>
    var abandonedUndos: seq<Late<ReqId>>
    var abandonedUndoJobs: seq<Late<JobId>>
    var abandonedRestores: seq<Late<Batch>>
    var nextId: ReqId
    /** Everything handed to the socket, and what of it the socket has taken. */
    ghost var handed: seq<Request>
    ghost var wire: seq<Request>

    ghost function Value(): State
      reads this, undoStack
    {
      State(undoStack.Value(), undoRequestId, undoJobId, pendingTransfer, restoreBatch,
            abandonedUndos, abandonedUndoJobs, abandonedRestores, nextId)
    }

    constructor ()
      ensures fresh(undoStack) && Value() == OPENING && handed == wire == []
    {
      undoStack := new SessionStack();
      undoRequestId, undoJobId, pendingTransfer, restoreBatch := None, None, None, None;
      abandonedUndos, abandonedUndoJobs, abandonedRestores, nextId := [], [], [], 1;
      handed, wire := [], [];
    }

    /** A request's id, or nothing if the socket refused it. */
    method Send(r: Request) returns (id: Option<ReqId>)
      modifies this`nextId, this`handed, this`wire
      ensures id == None || id == Some(old(nextId))
      ensures nextId == if id.Some? then old(nextId) + 1 else old(nextId)
      ensures handed == old(handed) + [r] && wire == if id.Some? then old(wire) + [r] else old(wire)
    {
      var connected: bool := *;
      id, handed := None, handed + [r];
      if connected {
        id := Some(nextId);
        nextId, wire := nextId + 1, wire + [r];
      }
    }

    method TakeAbandonedRequest(id: ReqId) returns (rec: Option<Late<ReqId>>)
      modifies this`abandonedUndos
      ensures var n := FirstLate(old(abandonedUndos), id);
        if n == |old(abandonedUndos)| then rec == None && abandonedUndos == old(abandonedUndos)
        else rec == Some(old(abandonedUndos)[n]) && abandonedUndos == Cut(old(abandonedUndos), n)
    {
      for i := 0 to |abandonedUndos|
        invariant abandonedUndos == old(abandonedUndos) && i <= FirstLate(abandonedUndos, id)
      {
        if abandonedUndos[i].key != id { continue; }
        rec := Some(abandonedUndos[i]);
        abandonedUndos := abandonedUndos[..i] + abandonedUndos[i + 1..];
        return;
      }
      return None;
    }

    method TakeAbandonedJob(job: JobId) returns (rec: Option<Late<JobId>>)
      modifies this`abandonedUndoJobs
      ensures var n := FirstLate(old(abandonedUndoJobs), job);
        if n == |old(abandonedUndoJobs)| then rec == None && abandonedUndoJobs == old(abandonedUndoJobs)
        else rec == Some(old(abandonedUndoJobs)[n]) && abandonedUndoJobs == Cut(old(abandonedUndoJobs), n)
    {
      for i := 0 to |abandonedUndoJobs|
        invariant abandonedUndoJobs == old(abandonedUndoJobs) && i <= FirstLate(abandonedUndoJobs, job)
      {
        if abandonedUndoJobs[i].key != job { continue; }
        rec := Some(abandonedUndoJobs[i]);
        abandonedUndoJobs := abandonedUndoJobs[..i] + abandonedUndoJobs[i + 1..];
        return;
      }
      return None;
    }

    /******* Asking *******/

    method BeginTransfer(alive: bool, sources: seq<Bytes>, dest: Bytes, isMove: bool, isUndo: bool)
      returns (asked: bool, ghost sent: bool)
      modifies this
      ensures Value() == old(Value()).BeginTransfer(alive, sent, sources, dest, isMove, isUndo)
      ensures asked <==> Value() != old(Value())
      ensures asked <==> sent && |sources| > 0 && alive && old(pendingTransfer).None?
      ensures wire == old(wire) + if asked then [AskConflicts(sources, dest)] else []
      ensures handed == old(handed) +
        if |sources| > 0 && alive && old(pendingTransfer).None? then [AskConflicts(sources, dest)] else []
    {
      sent := false;
      if |sources| == 0 || !alive || pendingTransfer.Some? { return false, false; }
      var id := Send(AskConflicts(sources, dest));
      if id == None { return false, false; }
      pendingTransfer := Some(Pending(id.value, sources, dest, isMove, isUndo));
      return true, true;
    }

    method UndoLast(alive: bool) returns (ghost went: seq<bool>)
      modifies this, undoStack
      ensures var asks := old(Value()).UndoRequests(alive);
        && |went| == |asks|
        && Value() == old(Value()).UndoLast(alive, |Taken(asks, went)|)
        && handed == old(handed) + asks && wire == old(wire) + Taken(asks, went)
      ensures !alive || old(undoStack.busy) || old(undoStack.entries) == [] ==>
        Value() == old(Value()) && handed == old(handed)
    {
      went := [];
      if undoStack.busy || |undoStack.entries| == 0 || !alive { return; }
      var e := undoStack.entries[|undoStack.entries| - 1];
      match e.deed
      case WasTrashed(items) =>
        went := RestoreAll(items);
      case WasRenamed(path, originalName) =>
        var id := Send(AskRename(path, originalName));
        went := [id.Some?];
        if id == None { return; }
        undoRequestId := id;
        undoStack.Begin();
      case WasMoved(source, destination) =>
        var asked, sent := BeginTransfer(alive, [destination], DirName(source), true, true);
        went := if old(pendingTransfer).Some? then [] else [sent];
        if asked { undoStack.Begin(); }
    }

    method RestoreAll(items: seq<Item>) returns (ghost went: seq<bool>)
      modifies this, undoStack
      ensures |went| == |items| && handed == old(handed) + Restores(items)
        && wire == old(wire) + Taken(Restores(items), went)
      ensures var was, sends := old(Value()), |Taken(Restores(items), went)|;
        Value() == if sends == 0 then was.(batch := None)
                   else was.(batch := Some(Batch(|items|, sends, 0, 0, was.Ids(sends))),
                             nextId := was.nextId + sends, stack := was.stack.Begin())
    {
      hide Taken, Restores, Stack.Begin;
      var total: nat, ids: seq<ReqId> := 0, [];
      went := [];
      NothingTaken(items);
      for i := 0 to |items|
        invariant |went| == i && total == |Taken(Restores(items)[..i], went)| && ids == old(Value()).Ids(total)
        invariant handed == old(handed) + Restores(items)[..i]
        invariant wire == old(wire) + Taken(Restores(items)[..i], went)
        invariant Value() == old(Value()).(nextId := old(nextId) + total)
      {
        var rid := Send(AskRestore(items[i].trashedAs, items[i].info));
        OneMoreTaken(items, i, went, rid.Some?);
        went := went + [rid.Some?];
        if rid.Some? {
          total, ids := total + 1, ids + [rid.value];
        }
      }
      if total == 0 {
        restoreBatch := None;
        return;
      }
      restoreBatch := Some(Batch(|items|, total, 0, 0, ids));
      undoStack.Begin();
    }

    /** The question timed out or was cancelled. */
    method GiveUpAsking()
      modifies this, undoStack
      ensures Value() == old(Value()).GiveUpAsking() && handed == old(handed) && wire == old(wire)
    {
      var p := pendingTransfer;
      if p == None { return; }
      pendingTransfer := None;
      if p.value.isUndo { undoStack.Release(); }
    }

    method SendPendingTransfer(policy: Policy) returns (ghost sent: bool)
      modifies this, undoStack
      ensures Value() == old(Value()).SendPending(sent)
      ensures sent ==> old(pendingTransfer).Some?
      ensures wire == old(wire) + if sent then [old(pendingTransfer).value.Transfer(policy)] else []
      ensures handed == old(handed) +
        if old(pendingTransfer).Some? then [old(pendingTransfer).value.Transfer(policy)] else []
    {
      sent := false;
      var p := pendingTransfer;
      pendingTransfer := None;
      if p == None { return; }
      var id := Send(if p.value.isMove then AskTransfer(true, p.value.sources, p.value.dest, policy)
                     else AskTransfer(false, p.value.sources, p.value.dest, policy));
      if id == None {
        if p.value.isUndo { undoStack.Release(); }
        return;
      }
      sent := true;
      if p.value.isUndo { undoRequestId, undoJobId := id, None; }
    }

    /******* Answers *******/

    method OnConflictsFound(id: ReqId, collisions: bool) returns (ghost sent: bool)
      modifies this, undoStack
      ensures Value() == old(Value()).ConflictsFound(id, collisions, sent)
      ensures wire == old(wire) + if sent then old(Value()).AnswerRequests(id, collisions) else []
      ensures handed == old(handed) + old(Value()).AnswerRequests(id, collisions)
      ensures sent ==> !collisions && old(pendingTransfer).Some? && old(pendingTransfer).value.requestId == id
      ensures sent ==> var p := old(pendingTransfer).value;
        wire == old(wire) + [AskTransfer(p.isMove, p.sources, p.dest, Skip)]
    {
      sent := false;
      var p := pendingTransfer;
      if p == None || id != p.value.requestId { return; }
      if !collisions { sent := SendPendingTransfer(Skip); }
    }

    method OnAcknowledged(id: ReqId, job: Option<JobId>, error: bool)
      modifies this, undoStack
      ensures Value() == old(Value()).Acknowledged(id, job, error) && handed == old(handed) && wire == old(wire)
    {
      if undoRequestId != Some(id) {
        var rec := TakeAbandonedRequest(id);
        if rec.Some? && job.Some? {
          abandonedUndoJobs := abandonedUndoJobs + [Late(job.value, rec.value.entry)];
        }
        return;
      }
      if error {
        undoRequestId := None;
        undoStack.Release();
        return;
      }
      if job.Some? { undoJobId := job; }
    }

    method OnRenamed(id: ReqId, from: Bytes, to: Bytes, error: bool)
      modifies this, undoStack
      ensures Value() == old(Value()).Renamed(id, from, to, error) && handed == old(handed) && wire == old(wire)
    {
      var wasUndo := undoRequestId == Some(id);
      if wasUndo {
        undoRequestId := None;
      } else {
        var late := TakeAbandonedRequest(id);
        if late.Some? {
          if !error { var _ := undoStack.Retire(late.value.entry); }
          return;
        }
      }
      if error {
        if wasUndo { undoStack.Release(); }
        return;
      }
      if wasUndo { var _ := undoStack.Commit(); } else { undoStack.Push(WasRenamed(to, BaseName(from))); }
    }

    method NoteRestored(id: ReqId, error: bool)
      modifies this, undoStack
      ensures Value() == old(Value()).Restored(id, error) && handed == old(handed) && wire == old(wire)
    {
      if restoreBatch == None || id !in restoreBatch.value.ids {
        NoteLateRestored(id, error);
        return;
      }
      var b := restoreBatch.value.Counting(error);
      restoreBatch := Some(b);
      if b.replies < b.total { return; }
      restoreBatch := None;
      if b.back == b.asked {
        var _ := undoStack.Commit();
      } else if b.back == 0 {
        undoStack.Release();
      } else {
        var _ := undoStack.Commit();
      }
    }

    method NoteLateRestored(id: ReqId, error: bool)
      modifies this, undoStack
      ensures Value() == old(Value()).RestoredLate(id, error) && handed == old(handed) && wire == old(wire)
    {
      for i := 0 to |abandonedRestores|
        invariant Value() == old(Value()) && handed == old(handed) && wire == old(wire)
        invariant i <= FirstBatch(abandonedRestores, id)
      {
        var rec := abandonedRestores[i];
        if id !in rec.key.ids { continue; }
        var b := rec.key.Counting(error);
        if b.replies < b.total {
          abandonedRestores := abandonedRestores[i := rec.(key := b)];
          return;
        }
        abandonedRestores := abandonedRestores[..i] + abandonedRestores[i + 1..];
        if b.back == b.asked || b.back > 0 { var _ := undoStack.Retire(rec.entry); }
        return;
      }
    }

    method OnJobFinished(d: Done)
      modifies this, undoStack
      ensures Value() == old(Value()).Finished(d) && handed == old(handed) && wire == old(wire)
    {
      if undoJobId == Some(d.job) {
        undoJobId, undoRequestId := None, None;
        if d.outcome.DidSkip? { undoStack.Release(); } else { var _ := undoStack.Commit(); }
        return;
      }
      var late := TakeAbandonedJob(d.job);
      if late.Some? {
        if !d.outcome.DidSkip? { var _ := undoStack.Retire(late.value.entry); }
        return;
      }
      if d.Deed().Some? { undoStack.Push(d.Deed().value); }
    }

    method NoteJobFailed(job: JobId)
      modifies this, undoStack
      ensures Value() == old(Value()).Failed(job) && handed == old(handed) && wire == old(wire)
    {
      if undoJobId == Some(job) {
        undoJobId, undoRequestId := None, None;
        undoStack.Release();
      } else {
        var _ := TakeAbandonedJob(job);
      }
    }

    /** `canTransfer` has become false. */
    method OnDropped()
      modifies this, undoStack
      ensures Value() == old(Value()).Dropped() && handed == old(handed) && wire == old(wire)
    {
      if !undoStack.busy { return; }
      var entry := undoStack.inFlight;
      if undoRequestId.Some? { abandonedUndos := abandonedUndos + [Late(undoRequestId.value, entry)]; }
      if undoJobId.Some? { abandonedUndoJobs := abandonedUndoJobs + [Late(undoJobId.value, entry)]; }
      if restoreBatch.Some? { abandonedRestores := abandonedRestores + [Late(restoreBatch.value, entry)]; }
      undoRequestId, undoJobId, restoreBatch := None, None, None;
      undoStack.Release();
    }
  }
}
