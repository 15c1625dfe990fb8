/**
 Undoing is the inverse of doing: the filesystem under what is recorded, and under
 what the daemon does when it is asked to take that back.
 */
module UndoInverse {
  import opened Wrappers
  import opened Paths
  import opened TrashRecord
  import opened Trash
  import opened UndoStack
  import opened UndoProtocol

  /******* Renaming *******/

  predicate UsableName(name: Bytes) {
    name != [] && SLASH !in name && 0 !in name && name != [DOT] && name != [DOT, DOT]
  }

  function Sibling(path: Bytes, name: Bytes): Bytes
    requires SLASH in path
  {
    Join(Parent(path), name)
  }

  function Relocated(t: Tree, from: Bytes, to: Bytes): Tree
    requires from in t
  {
    (t - {from})[to := t[from]]
  }

  /** What renaming may do: nothing, or move one file to a free name beside it. */
  function RenameInPlace(t: Tree, path: Bytes, name: Bytes): Option<Tree>
    requires SLASH in path
  {
    if !UsableName(name) || path !in t then None
    else if Sibling(path, name) == path then Some(t)
    else if Sibling(path, name) in t then None
    else Some(Relocated(t, path, Sibling(path, name)))
  }

  class Disk {
    var tree: Tree

    /** The answer is the one `RenameInPlace` gives, unless the system refuses the
        call, which is `works`. */
    method Rename(path: Bytes, name: Bytes, works: bool) returns (to: Option<Bytes>)
      requires SLASH in path
      modifies this
      ensures to == if RenameInPlace(old(tree), path, name).Some? && (works || Sibling(path, name) == path)
                    then Some(Sibling(path, name)) else None
      ensures tree == if to.Some? then RenameInPlace(old(tree), path, name).value else old(tree)
      ensures forall p | p in old(tree) && p != path :: p in tree && tree[p] == old(tree)[p]
      ensures name in {[], Ascii("."), Ascii("..")} || SLASH in name || 0 in name || path !in old(tree) ==> to == None
    {
      to := None;
      if |name| == 0 { return; }
      if SLASH in name || 0 in name { return; }
      if name == [DOT] || name == [DOT, DOT] { return; }
      if path !in tree { return; }
      var target := Sibling(path, name);
      if target == path { return Some(target); }
      if target in tree { return; }
      if !works { return; }
      tree := (tree - {path})[target := tree[path]];
      return Some(target);
    }
  }

  /******* Moving *******/

  /** A path under a directory as the daemon joins the two: nothing before a name
      makes it a relative one. */
  function Under(dir: Bytes, name: Bytes): Bytes {
    if dir == [] then name else if dir[|dir| - 1] == SLASH then dir + name else Join(dir, name)
  }

  /** The file a path leads to: slashes in a row are one. Trees name files this way. */
  function Resolved(p: Bytes): Bytes {
    if p == [] then []
    else if |p| > 1 && p[0] == SLASH && p[1] == SLASH then Resolved(p[1..])
    else [p[0]] + Resolved(p[1..])
  }

  /** A path with no slashes in a row. */
  ghost predicate Clean(p: Bytes) {
    SLASH in p && forall i | 0 <= i < |p| - 1 :: p[i] == SLASH ==> p[i + 1] != SLASH
  }

  /** The file a transfer of `source` into `dir` asks to make. */
  function Target(source: Bytes, dir: Bytes): Bytes { Resolved(Under(dir, BaseName(source))) }

  /** One file of a transfer. Where a name is in use and both are to be kept, the
      engine chooses: that is not answered here. */
  function Transferred(t: Tree, isMove: bool, source: Bytes, dir: Bytes, policy: Policy): Option<Tree> {
    var from, to := Resolved(source), Target(source, dir);
    if from !in t || (to in t && policy.KeepBoth?) then None
    else if to in t && policy.Skip? then Some(t)
    else Some(if isMove then Relocated(t, from, to) else t[to := t[from]])
  }

  function TransferredAll(t: Tree, isMove: bool, sources: seq<Bytes>, dir: Bytes, policy: Policy): Option<Tree>
    decreases sources
  {
    if sources == [] then Some(t)
    else match Transferred(t, isMove, sources[0], dir, policy)
      case None => None
      case Some(t') => TransferredAll(t', isMove, sources[1..], dir, policy)
  }

  lemma {:induction false} CleanIsResolved(p: Bytes)
    requires forall i | 0 <= i < |p| - 1 :: p[i] == SLASH ==> p[i + 1] != SLASH
    ensures Resolved(p) == p
  {
    if p != [] {
      var rest := p[1..];
      forall i | 0 <= i < |rest| - 1 ensures rest[i] == SLASH ==> rest[i + 1] != SLASH {
        assert rest[i] == p[i + 1] && rest[i + 1] == p[i + 2];
      }
      CleanIsResolved(rest);
    }
  }

  /** A doubled slash before a name counts once. */
  lemma {:induction false} DoubledIsOne(a: Bytes, rest: Bytes)
    ensures Resolved(a + ([SLASH, SLASH] + rest)) == Resolved(a + ([SLASH] + rest))
  {
    var p, q := a + ([SLASH] + rest), a + ([SLASH, SLASH] + rest);
    if a == [] {
      assert q[1..] == p;
    } else {
      assert p[1..] == a[1..] + ([SLASH] + rest) && q[1..] == a[1..] + ([SLASH, SLASH] + rest);
      DoubledIsOne(a[1..], rest);
      assert p[0] == q[0] && p[1] == q[1];
    }
  }

  /** The window's join and the daemon's lead to the same file. */
  lemma JoinsAgree(dir: Bytes, name: Bytes)
    requires Clean(dir) && name != [] && SLASH !in name
    ensures Resolved(Under(dir, name)) == Under(dir, name) == Resolved(Join(dir, name))
  {
    hide Resolved;
    var p := Under(dir, name);
    assert forall i | 0 <= i < |p| :: p[i] == if i < |dir| then dir[i]
      else if i == |dir| && dir[|dir| - 1] != SLASH then SLASH else name[|name| - |p| + i];
    CleanIsResolved(p);
    if dir[|dir| - 1] == SLASH {
      var a := dir[..|dir| - 1];
      DoubledIsOne(a, name);
      assert Join(dir, name) == a + ([SLASH, SLASH] + name) && p == a + ([SLASH] + name);
    }
  }

  /** The way back of a move that landed as `landed` leads to where the file came
      from exactly when it had kept its name and did not start in the root directory,
      of which the window keeps the empty string. */
  lemma WayBackIff(source: Bytes, dir: Bytes, landed: Bytes)
    requires SLASH in source && SLASH !in landed
    ensures Under(DirName(source), BaseName(Join(dir, landed))) == source
      <==> landed == FileName(source) && Parent(source) != [] && Parent(source)[|Parent(source)| - 1] != SLASH
  {
    hide LastSlash;
    PathParts(source);
    JoinParts(dir, landed);
    var parent := Parent(source);
    if parent != [] && parent[|parent| - 1] != SLASH {
      JoinParts(parent, landed);
    } else {
      ShortWay(parent, landed, FileName(source));
    }
  }

  /** Without a slash of its own the way back is another path. */
  lemma ShortWay(parent: Bytes, landed: Bytes, name: Bytes)
    requires SLASH !in landed && SLASH !in name && (parent == [] || parent[|parent| - 1] == SLASH)
    ensures parent + landed != Join(parent, name)
  {
    assert Join(parent, name)[|parent|] == SLASH;
    assert landed != [] ==> (parent + landed)[|parent|] == landed[0] != SLASH;
  }

  /******* Trashing *******/

  /** One file of a confirmed delete, the name it got, and its record. */
  datatype Trashing = Trashing(path: Bytes, name: Bytes, text: Bytes)

  ghost predicate CanTrash(t: Tree, c: Can, x: Trashing) {
    x.path in t && c.Outside(x.path) && Free(t, c, x.name) && Original(x.text) == Some(x.path)
  }

  function DoTrash(t: Tree, c: Can, x: Trashing): Tree
    requires x.path in t
  {
    AfterTrash(t, c, x.path, x.name, x.text)
  }

  function ItemOf(c: Can, x: Trashing): Item { Item(x.path, c.Held(x.name), c.RecordOf(x.name)) }

  ghost predicate CanTrashAll(t: Tree, c: Can, xs: seq<Trashing>)
    decreases xs
  {
    xs == [] || (CanTrash(t, c, xs[0]) && CanTrashAll(DoTrash(t, c, xs[0]), c, xs[1..]))
  }

  function DoTrashAll(t: Tree, c: Can, xs: seq<Trashing>): Tree
    requires CanTrashAll(t, c, xs)
    decreases xs
  {
    if xs == [] then t else DoTrashAll(DoTrash(t, c, xs[0]), c, xs[1..])
  }

  /** Where a record says its file came from, if it can be put back. */
  function Restored(t: Tree, trashedAs: Bytes, info: Bytes): Option<Tree> {
    if info !in t || trashedAs !in t then None
    else match Original(t[info])
      case None => None
      case Some(original) => Some(AfterRestore(t, trashedAs, info, original))
  }

  /******* What the daemon makes of a request *******/

  /** Nothing comes of one it refuses; a question changes nothing. */
  function Performed(t: Tree, r: Request): Option<Tree> {
    match r
    case AskRename(path, name) => if SLASH in path then RenameInPlace(t, path, name) else None
    case AskRestore(trashedAs, info) => Restored(t, trashedAs, info)
    case AskConflicts(_, _) => Some(t)
    case AskTransfer(isMove, sources, dest, policy) => TransferredAll(t, isMove, sources, dest, policy)
  }

  /** One after the other. */
  function PerformedAll(t: Tree, rs: seq<Request>): Option<Tree>
    decreases rs
  {
    if rs == [] then Some(t)
    else match Performed(t, rs[0])
      case None => None
      case Some(t') => PerformedAll(t', rs[1..])
  }

  /** The daemon's answer to a conflict question. */
  predicate Collides(t: Tree, r: Request) {
    r.AskConflicts? && exists source | source in r.sources :: Target(source, r.dest) in t
  }

  lemma RestoreUndoesTrash(t: Tree, c: Can, x: Trashing)
    requires c.Apart() && CanTrash(t, c, x)
    ensures Restored(DoTrash(t, c, x), c.Held(x.name), c.RecordOf(x.name)) == Some(t)
  {
    RestoreInvertsTrash(t, c, x.path, x.name, x.text);
    assert c.Held(x.name) != c.RecordOf(x.name);
  }

  /** Trashing one file and trashing another can change places. */
  lemma TrashingsCommute(t: Tree, c: Can, a: Trashing, b: Trashing)
    requires c.Apart() && CanTrash(t, c, a) && CanTrash(DoTrash(t, c, a), c, b)
    ensures CanTrash(t, c, b) && CanTrash(DoTrash(t, c, b), c, a)
    ensures DoTrash(DoTrash(t, c, a), c, b) == DoTrash(DoTrash(t, c, b), c, a)
  {
    var t1 := DoTrash(t, c, a);
    Elsewhere(c, a.path, a.name, b.name);
    Elsewhere(c, b.path, b.name, a.name);
    Elsewhere(c, a.path, b.name, b.name);
    Elsewhere(c, b.path, a.name, a.name);
    NamesAreInjective(c, a.name, b.name);
    hide Can.Held, Can.RecordOf, Can.Apart, Can.Outside, Original;
    assert c.Held(a.name) in t1 && c.RecordOf(a.name) in t1;
    assert a.name != b.name;
    assert b.path in t && b.path != a.path;
    var ab, ba := DoTrash(t1, c, b), DoTrash(DoTrash(t, c, b), c, a);
    assert forall p :: p in ab <==> p in ba;
  }

  lemma {:induction false} TrashLast(t: Tree, c: Can, a: Trashing, xs: seq<Trashing>)
    requires c.Apart() && CanTrash(t, c, a) && CanTrashAll(DoTrash(t, c, a), c, xs)
    ensures CanTrashAll(t, c, xs) && CanTrash(DoTrashAll(t, c, xs), c, a)
    ensures DoTrashAll(DoTrash(t, c, a), c, xs) == DoTrash(DoTrashAll(t, c, xs), c, a)
    decreases xs
  {
    if xs != [] {
      TrashingsCommute(t, c, a, xs[0]);
      assert xs[0].path in t;
      hide Can.Apart, CanTrash, DoTrash;
      TrashLast(DoTrash(t, c, xs[0]), c, a, xs[1..]);
    }
  }

  function ItemsOf(c: Can, xs: seq<Trashing>): seq<Item> {
    seq(|xs|, i requires 0 <= i < |xs| => ItemOf(c, xs[i]))
  }

  /** A batch comes back in the order it went. */
  lemma {:induction false} RestoreUndoesBatch(t: Tree, c: Can, xs: seq<Trashing>)
    requires c.Apart() && CanTrashAll(t, c, xs)
    ensures PerformedAll(DoTrashAll(t, c, xs), Restores(ItemsOf(c, xs))) == Some(t)
    decreases xs
  {
    hide Can.Apart, CanTrash, DoTrash, Restored;
    if xs != [] {
      var rest := xs[1..];
      TrashLast(t, c, xs[0], rest);
      RestoreUndoesTrash(DoTrashAll(t, c, rest), c, xs[0]);
      RestoreUndoesBatch(t, c, rest);
      assert Restores(ItemsOf(c, xs))[1..] == Restores(ItemsOf(c, rest));
    }
  }

  /******* A session *******/

  datatype Act = Rename(from: Bytes, name: Bytes) | Move(source: Bytes, dir: Bytes) | Delete(xs: seq<Trashing>)

  /** What is recorded and nothing is in the way of: a move keeps the file's name,
      does not start in the root directory and replaces nothing. */
  ghost predicate CanDo(t: Tree, c: Can, a: Act) {
    match a
    case Rename(from, name) => SLASH in from && UsableName(FileName(from)) && RenameInPlace(t, from, name).Some?
    case Move(source, dir) =>
      && Clean(source) && Clean(dir) && Parent(source) != [] && FileName(source) != []
      && source in t && Under(dir, FileName(source)) !in t
    case Delete(xs) => xs != [] && CanTrashAll(t, c, xs)
  }

  function Do(t: Tree, c: Can, a: Act): Tree
    requires CanDo(t, c, a)
  {
    match a
    case Rename(from, name) => RenameInPlace(t, from, name).value
    case Move(source, dir) => Relocated(t, source, Under(dir, FileName(source)))
    case Delete(xs) => DoTrashAll(t, c, xs)
  }

  function DeedOf(c: Can, a: Act): Deed {
    match a
    case Rename(from, name) =>
      WasRenamed(if SLASH in from then Sibling(from, name) else from, BaseName(from))
    case Move(source, dir) => WasMoved(source, Join(dir, BaseName(source)))
    case Delete(xs) => WasTrashed(seq(|xs|, i requires 0 <= i < |xs| => ItemOf(c, xs[i])))
  }

  /** What becomes of the tree when Ctrl+Z is pressed in state `s` and every request
      the window then makes is taken and carried out: those it makes at once, and
      what it sends when its question, if that was one, has been answered. */
  function Undone(t: Tree, s: State): Option<Tree> {
    var asks := s.UndoRequests(true);
    match PerformedAll(t, asks)
    case None => None
    case Some(t') =>
      var collisions := asks != [] && Collides(t', asks[0]);
      PerformedAll(t', s.UndoLast(true, |asks|).AnswerRequests(s.nextId, collisions))
  }

  /** A state in which Ctrl+Z takes up the deed. */
  predicate WouldUndo(s: State, d: Deed) {
    && s.Ready(true) && s.Top().deed == d
    && (s.pending.Some? ==> !d.WasMoved? && s.pending.value.requestId < s.nextId)
  }

  /** What the window asks for, whatever else it is waiting on, undoes what was done. */
  lemma UndoneIsInverse(t: Tree, c: Can, a: Act, s: State)
    requires c.Apart() && CanDo(t, c, a) && WouldUndo(s, DeedOf(c, a))
    ensures Undone(Do(t, c, a), s) == Some(t)
  {
    hide Undone, PerformedAll, Can.Apart;
    match a
    case Rename(from, name) =>
      RenameBack(t, from, name);
      UndoneAtOnce(Do(t, c, a), s);
      OneRequest(Do(t, c, a), AskRename(Sibling(from, name), BaseName(from)));
    case Move(source, dir) =>
      MoveBack(t, source, dir);
      MoveUndone(Do(t, c, a), s);
    case Delete(xs) =>
      RestoreUndoesBatch(t, c, xs);
      UndoneAtOnce(Do(t, c, a), s);
  }

  lemma OneRequest(t: Tree, r: Request)
    ensures PerformedAll(t, [r]) == Performed(t, r)
  {
    hide Performed;
    assert forall t' :: PerformedAll(t', [r][1..]) == Some(t');
  }

  /** Renames and restores are asked for outright. */
  lemma UndoneAtOnce(t: Tree, s: State)
    requires s.stack.entries != [] && !s.Top().deed.WasMoved? && WouldUndo(s, s.Top().deed)
    ensures Undone(t, s) == PerformedAll(t, s.UndoRequests(true))
  {
    hide PerformedAll;
    assert forall t' :: PerformedAll(t', []) == Some(t') by { EmptyIsNothing(); }
    assert s.UndoLast(true, |s.UndoRequests(true)|).pending == s.pending;
  }

  lemma EmptyIsNothing()
    ensures forall t: Tree :: PerformedAll(t, []) == Some(t)
  {
  }

  /** A move is asked about first, and taken back if nothing is in its way. */
  lemma MoveUndone(t: Tree, s: State)
    requires s.stack.entries != [] && s.Top().deed.WasMoved? && WouldUndo(s, s.Top().deed)
    ensures var here, back := s.Top().deed.destination, DirName(s.Top().deed.source);
      Undone(t, s) == if Target(here, back) in t then Some(t) else Transferred(t, true, here, back, Skip)
  {
    hide Transferred, Target;
    var here, back := s.Top().deed.destination, DirName(s.Top().deed.source);
    assert s.UndoRequests(true) == [AskConflicts([here], back)];
    OneRequest(t, AskConflicts([here], back));
    OneRequest(t, AskTransfer(true, [here], back, Skip));
    OneSource(t, here, back, Skip);
    EmptyIsNothing();
    assert Collides(t, AskConflicts([here], back)) <==> Target(here, back) in t by {
      assert here in [here];
    }
    hide PerformedAll, TransferredAll;
  }

  lemma OneSource(t: Tree, source: Bytes, dir: Bytes, policy: Policy)
    ensures TransferredAll(t, true, [source], dir, policy) == Transferred(t, true, source, dir, policy)
  {
    hide Transferred;
    assert forall t' :: TransferredAll(t', true, [source][1..], dir, policy) == Some(t');
  }

  /** Undoing a move never touches a file that is in its way. */
  lemma UndoSparesTheOccupant(t: Tree, s: State)
    requires s.stack.entries != [] && s.Top().deed.WasMoved? && WouldUndo(s, s.Top().deed)
    requires Target(s.Top().deed.destination, DirName(s.Top().deed.source)) in t
    ensures Undone(t, s) == Some(t)
  {
    hide Undone, Transferred, Target;
    MoveUndone(t, s);
  }

  /** Some file still holds what `p` held. */
  ghost predicate Survives(t: Tree, t': Tree, p: Bytes)
    requires p in t
  {
    exists q :: q in t' && t'[q] == t[p]
  }

  predicate Named(sources: seq<Bytes>, p: Bytes) { exists x | x in sources :: Resolved(x) == p }

  /** What goes out without the user having been asked loses nothing, whatever has
      appeared since the daemon looked, and touches no file but those to be moved. */
  lemma UnaskedLosesNothing(t: Tree, s: State, id: ReqId, collisions: bool)
    requires PerformedAll(t, s.AnswerRequests(id, collisions)).Some?
    ensures var t' := PerformedAll(t, s.AnswerRequests(id, collisions)).value;
      && (forall p | p in t :: Survives(t, t', p))
      && (forall p | p in t && !(s.pending.Some? && s.pending.value.isMove && Named(s.pending.value.sources, p)) ::
            p in t' && t'[p] == t[p])
  {
    hide Named, Transferred;
    if s.AnswerRequests(id, collisions) == [] {
      EmptyIsNothing();
    } else {
      var p := s.pending.value;
      OneRequest(t, p.Transfer(Skip));
      SkippingLosesNothing(t, p.isMove, p.sources, p.dest);
    }
    hide PerformedAll, TransferredAll;
  }

  lemma {:induction false} SkippingLosesNothing(t: Tree, isMove: bool, sources: seq<Bytes>, dir: Bytes)
    requires TransferredAll(t, isMove, sources, dir, Skip).Some?
    ensures var t' := TransferredAll(t, isMove, sources, dir, Skip).value;
      && (forall p | p in t :: Survives(t, t', p))
      && (forall p | p in t && !(isMove && Named(sources, p)) :: p in t' && t'[p] == t[p])
    decreases sources
  {
    hide Resolved, Target;
    if sources != [] {
      var t1 := Transferred(t, isMove, sources[0], dir, Skip).value;
      SkippingLosesNothing(t1, isMove, sources[1..], dir);
      var t' := TransferredAll(t, isMove, sources, dir, Skip).value;
      OneLosesNothing(t, isMove, sources[0], dir);
      forall p | p in t ensures Survives(t, t', p) {
        assert Survives(t, t1, p);
        var q :| q in t1 && t1[q] == t[p];
        assert Survives(t1, t', q);
      }
      assert forall p | p in t && !(isMove && Named(sources, p)) :: p in t1 && t1[p] == t[p] by {
        assert sources[0] in sources;
      }
      assert forall p | Named(sources[1..], p) :: Named(sources, p);
    }
  }

  lemma OneLosesNothing(t: Tree, isMove: bool, source: Bytes, dir: Bytes)
    requires Transferred(t, isMove, source, dir, Skip).Some?
    ensures var t' := Transferred(t, isMove, source, dir, Skip).value;
      && (forall p | p in t :: Survives(t, t', p))
      && (forall p | p in t && (!isMove || Resolved(source) != p) :: p in t' && t'[p] == t[p])
  {
    hide Resolved, Target;
    var t' := Transferred(t, isMove, source, dir, Skip).value;
    forall p | p in t ensures Survives(t, t', p) {
      if p !in t' { assert t'[Target(source, dir)] == t[p]; }
    }
  }

  lemma RenameBack(t: Tree, from: Bytes, name: Bytes)
    requires SLASH in from && UsableName(FileName(from)) && RenameInPlace(t, from, name).Some?
    ensures var to := Sibling(from, name);
      SLASH in to && RenameInPlace(RenameInPlace(t, from, name).value, to, FileName(from)) == Some(t)
  {
    var to := Sibling(from, name);
    PathParts(from);
    JoinParts(Parent(from), name);
    hide Join, LastSlash;
    assert Sibling(to, FileName(from)) == from;
    if to != from {
      assert Relocated(Relocated(t, from, to), to, from) == t;
    }
  }

  lemma MoveBack(t: Tree, source: Bytes, dir: Bytes)
    requires Clean(source) && Clean(dir) && Parent(source) != [] && FileName(source) != []
    requires source in t && Under(dir, FileName(source)) !in t
    ensures var moved, recorded := Relocated(t, source, Under(dir, FileName(source))), Join(dir, FileName(source));
      && Target(recorded, DirName(source)) !in moved
      && Transferred(moved, true, recorded, DirName(source), Skip) == Some(t)
  {
    PathsBack(source, dir);
    hide Transferred, Resolved, Under, LastSlash;
    ThereAndBack(t, source, Under(dir, FileName(source)), Join(dir, FileName(source)), DirName(source));
  }

  lemma ThereAndBack(t: Tree, source: Bytes, to: Bytes, recorded: Bytes, dir: Bytes)
    requires source in t && to !in t && Resolved(recorded) == to && Target(recorded, dir) == source
    ensures Target(recorded, dir) !in Relocated(t, source, to)
    ensures Transferred(Relocated(t, source, to), true, recorded, dir, Skip) == Some(t)
  {
    hide Resolved, Under, BaseName;
    assert Relocated(Relocated(t, source, to), to, source) == t;
  }

  /** The recorded destination leads to where the move landed, and the way back to
      where it started. */
  lemma PathsBack(source: Bytes, dir: Bytes)
    requires Clean(source) && Clean(dir) && Parent(source) != [] && FileName(source) != []
    ensures var recorded := Join(dir, FileName(source));
      && Resolved(recorded) == Under(dir, FileName(source))
      && Target(recorded, DirName(source)) == source
  {
    PathParts(source);
    NoDoubledSlash(source);
    CleanIsResolved(source);
    hide Clean, Resolved, LastSlash, Join;
    JoinsAgree(dir, FileName(source));
    WayBackIff(source, dir, FileName(source));
  }

  lemma NoDoubledSlash(p: Bytes)
    requires Clean(p) && Parent(p) != []
    ensures Parent(p)[|Parent(p)| - 1] != SLASH
  {
    PathParts(p);
    var i := |Parent(p)| - 1;
    assert p[i] == Parent(p)[i] && p[i + 1] == SLASH;
  }

  ghost predicate CanDoAll(t: Tree, c: Can, acts: seq<Act>)
    decreases acts
  {
    acts == [] || (CanDo(t, c, acts[0]) && CanDoAll(Do(t, c, acts[0]), c, acts[1..]))
  }

  /** What the window hears of it: an answer to no undo. */
  function Report(c: Can, a: Act): Event {
    match a
    case Rename(from, name) => AnswerRenamed(0, from, if SLASH in from then Sibling(from, name) else from, false)
    case Move(source, dir) => JobFinished(Done(0, DidMove, 1, 0, source, dir, [BaseName(source)]))
    case Delete(xs) => TrashConfirmed(ItemsOf(c, xs))
  }

  /** The window with nothing out. */
  function Idle(s: Stack): State { OPENING.(stack := s) }

  /** A session: what is done, and what the window makes of the news. */
  function DoAll(t: Tree, s: Stack, c: Can, acts: seq<Act>): (Tree, Stack)
    requires CanDoAll(t, c, acts)
    decreases acts
  {
    if acts == [] then (t, s)
    else DoAll(Do(t, c, acts[0]), StateAfter(Idle(s), Report(c, acts[0])).stack, c, acts[1..])
  }

  /** The news of an act is recorded as the deed. */
  lemma Recorded(t: Tree, s: Stack, c: Can, a: Act)
    requires CanDo(t, c, a)
    ensures StateAfter(Idle(s), Report(c, a)).stack == s.Push(DeedOf(c, a))
  {
    if a.Move? { PathParts(a.source); }
  }

  /** Ctrl+Z, `n` times, each answered before the next. */
  function UndoTimes(t: Tree, s: Stack, n: nat): Option<(Tree, Stack)>
    decreases n
  {
    if n == 0 then Some((t, s))
    else if s.entries == [] then None
    else match Undone(t, Idle(s))
      case None => None
      case Some(t') => UndoTimes(t', s.Begin().Commit(), n - 1)
  }

  lemma {:induction false} UndoTimesSplits(t: Tree, s: Stack, n: nat, m: nat)
    ensures UndoTimes(t, s, n + m) ==
      match UndoTimes(t, s, n) case None => None case Some(p) => UndoTimes(p.0, p.1, m)
    decreases n
  {
    hide Undone, Stack.Begin, Stack.Commit;
    if n > 0 && s.entries != [] && Undone(t, Idle(s)).Some? {
      UndoTimesSplits(Undone(t, Idle(s)).value, s.Begin().Commit(), n - 1, m);
    }
  }

  /** Undoing everything puts everything back: for any session the stack has room
      for, undone to the beginning, the filesystem and the stack are as they were. */
  lemma {:induction false} UndoingAllRestoresAll(t: Tree, s: Stack, c: Can, acts: seq<Act>)
    requires c.Apart() && s.Valid() && !s.busy && CanDoAll(t, c, acts) && |s.entries| + |acts| <= DEPTH
    ensures var (t', s') := DoAll(t, s, c, acts);
      UndoTimes(t', s', |acts|) == Some((t, s.(made := s'.made)))
    decreases acts
  {
    hide CanDo, Do, DeedOf, Undone, Can.Apart, StateAfter, Report;
    if acts != [] {
      var d := DeedOf(c, acts[0]);
      Recorded(t, s, c, acts[0]);
      var t1, s1 := Do(t, c, acts[0]), s.Push(d);
      var (t', s') := DoAll(t, s, c, acts);
      UndoingAllRestoresAll(t1, s1, c, acts[1..]);
      UndoTimesSplits(t', s', |acts| - 1, 1);
      DoingRecords(t, s, c, acts);
      UndoneIsInverse(t, c, acts[0], Idle(s1.(made := s'.made)));
      LastUndo(t, t1, s, d, s'.made);
    }
  }

  lemma LastUndo(t: Tree, t1: Tree, s: Stack, d: Deed, made: nat)
    requires s.Valid() && !s.busy && |s.entries| < DEPTH && made > s.made
    requires Undone(t1, Idle(s.Push(d).(made := made))) == Some(t)
    ensures UndoTimes(t1, s.Push(d).(made := made), 1) == Some((t, s.(made := made)))
  {
    hide Undone;
    var last := s.Push(d).(made := made);
    CommitIsPop(last);
    assert last.entries[..|s.entries|] == s.entries;
    assert UndoTimes(t, last.Begin().Commit(), 0) == Some((t, last.Begin().Commit()));
  }

  lemma {:induction false} DoingRecords(t: Tree, s: Stack, c: Can, acts: seq<Act>)
    requires CanDoAll(t, c, acts)
    ensures DoAll(t, s, c, acts).1.made == s.made + |acts|
    decreases acts
  {
    hide CanDo, Do, StateAfter, Report, DeedOf;
    if acts != [] {
      Recorded(t, s, c, acts[0]);
      DoingRecords(Do(t, c, acts[0]), s.Push(DeedOf(c, acts[0])), c, acts[1..]);
    }
  }
}
