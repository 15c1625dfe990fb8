/**
 Moving files to the trash and back. Paths here are the bytes the system calls
 get; the filesystem is a map from paths to contents.

 A trashed file is two files, and the order of the steps keeps them honest: the
 record is whole before the file arrives, and goes only after the file has left.
 */
module Trash {
  import opened Wrappers
  import opened Paths
  import opened TrashRecord
  import opened Calendar
  import opened TrashDate

  type Tree = map<Bytes, Bytes>

  const SLASH: byte := 47
  const DOT: byte := 46

  /******* Names *******/

  function Join(dir: Bytes, name: Bytes): Bytes { dir + [SLASH] + name }

  /** The last slash of an absolute path. */
  function LastSlash(p: Bytes): (n: nat)
    requires SLASH in p
    ensures n < |p| && p[n] == SLASH && SLASH !in p[n + 1..]
  {
    if p[|p| - 1] == SLASH then |p| - 1
    else
      var n := LastSlash(p[..|p| - 1]);
      assert p[n + 1..] == p[..|p| - 1][n + 1..] + [p[|p| - 1]];
      n
  }

  function FileName(p: Bytes): Bytes
    requires SLASH in p
  {
    p[LastSlash(p) + 1..]
  }

  function Parent(p: Bytes): Bytes
    requires SLASH in p
  {
    p[..LastSlash(p)]
  }

  lemma PathParts(p: Bytes)
    requires SLASH in p
    ensures Join(Parent(p), FileName(p)) == p && SLASH !in FileName(p)
  {
  }

  lemma {:induction false} SlashAt(p: Bytes, n: nat)
    requires n < |p| && p[n] == SLASH && forall k | n < k < |p| :: p[k] != SLASH
    ensures LastSlash(p) == n
  {
    if n < |p| - 1 { SlashAt(p[..|p| - 1], n); }
  }

  lemma JoinParts(dir: Bytes, name: Bytes)
    requires SLASH !in name
    ensures SLASH in Join(dir, name) && Parent(Join(dir, name)) == dir && FileName(Join(dir, name)) == name
  {
    SlashAt(Join(dir, name), |dir|);
  }

  /** `.trashinfo` */
  const INFO_SUFFIX: Bytes := [46, 116, 114, 97, 115, 104, 105, 110, 102, 111]

  /** The two directories of a trash. */
  datatype Can = Can(files: Bytes, info: Bytes) {
    function Held(name: Bytes): Bytes { Join(files, name) }

    function RecordOf(name: Bytes): Bytes { Join(info, name + INFO_SUFFIX) }

    /** Neither directory is inside the other. */
    ghost predicate Apart() { forall a, b :: Join(files, a) != Join(info, b) }

    /** Not in the trash. */
    ghost predicate Outside(p: Bytes) {
      SLASH in p && forall a :: p != Join(files, a) && p != Join(info, a)
    }
  }

  /** `files` and `info` under a trash's root. */
  function CanOf(root: Bytes): Can {
    Can(Join(root, [102, 105, 108, 101, 115]), Join(root, [105, 110, 102, 111]))
  }

  /** The names in a trash, in words. */
  lemma TrashWords(root: Bytes, name: Bytes)
    ensures CanOf(root).Held(name) == root + Ascii("/files/") + name
    ensures CanOf(root).RecordOf(name) == root + Ascii("/info/") + name + Ascii(".trashinfo")
  {
  }

  lemma CanIsApart(root: Bytes)
    ensures CanOf(root).Apart()
  {
    var c := CanOf(root);
    forall a, b ensures Join(c.files, a) != Join(c.info, b) {
      assert Join(c.files, a)[|root| + 1] == 102 && Join(c.info, b)[|root| + 1] == 105;
    }
  }

  lemma NamesAreInjective(c: Can, a: Bytes, b: Bytes)
    ensures c.Held(a) == c.Held(b) ==> a == b
    ensures c.RecordOf(a) == c.RecordOf(b) ==> a == b
  {
    assert c.Held(a)[|c.files| + 1..] == a && c.Held(b)[|c.files| + 1..] == b;
    assert c.RecordOf(a)[|c.info| + 1..][..|a|] == a && |c.RecordOf(a)| == |c.info| + 1 + |a| + |INFO_SUFFIX|;
    assert c.RecordOf(b)[|c.info| + 1..][..|b|] == b && |c.RecordOf(b)| == |c.info| + 1 + |b| + |INFO_SUFFIX|;
  }

  /** The `n`-th name tried for a file called `stem`. */
  function TrashName(stem: Bytes, n: nat): Bytes {
    if n == 0 then stem else stem + [DOT] + Digits(n)
  }

  /** The file's own name, or that with a dot and the number `n`. */
  predicate Numbered(stem: Bytes, n: nat, name: Bytes) {
    if n == 0 then name == stem
    else
      && |name| > |stem| + 1 && name[..|stem|] == stem && name[|stem|] as char == '.'
      && IsNumber(name[|stem| + 1..]) && NumberOf(name[|stem| + 1..]) == n && name[|stem| + 1] as char != '0'
  }

  lemma NameIsNumbered(stem: Bytes, n: nat)
    ensures Numbered(stem, n, TrashName(stem, n))
  {
    DigitsRead(n);
    hide Digits, NumberOf, IsNumber;
    if n > 0 { assert TrashName(stem, n)[|stem| + 1..] == Digits(n); }
  }

  const LIMIT := 10_000

  predicate Free(t: Tree, c: Can, name: Bytes) { c.Held(name) !in t && c.RecordOf(name) !in t }

  /******* What must hold whenever the daemon might crash *******/

  /** `origin` is what this code put in `files/` and where from: each such file
      has a record, and the record says where it came from. */
  ghost predicate Covered(t: Tree, c: Can, origin: map<Bytes, Bytes>) {
    forall name | name in origin && c.Held(name) in t ::
      c.RecordOf(name) in t && Original(t[c.RecordOf(name)]) == Some(origin[name])
  }

  datatype Moment = Moment(tree: Tree, origin: map<Bytes, Bytes>)

  function AfterTrash(t: Tree, c: Can, path: Bytes, name: Bytes, text: Bytes): Tree
    requires path in t
  {
    (t[c.RecordOf(name) := text] - {path})[c.Held(name) := t[path]]
  }

  function AfterMove(t: Tree, file: Bytes, original: Bytes): Tree
    requires file in t
  {
    (t - {file})[original := t[file]]
  }

  function AfterRestore(t: Tree, file: Bytes, info: Bytes, original: Bytes): Tree
    requires file in t
  {
    AfterMove(t, file, original) - {info}
  }

  /** Restoring what was just trashed puts everything back. */
  lemma RestoreInvertsTrash(t: Tree, c: Can, path: Bytes, name: Bytes, text: Bytes)
    requires path in t && c.Outside(path) && c.Apart() && Free(t, c, name)
    ensures var t' := AfterTrash(t, c, path, name, text);
            c.Held(name) in t' && AfterRestore(t', c.Held(name), c.RecordOf(name), path) == t
  {
    var t' := AfterTrash(t, c, path, name, text);
    assert path != c.Held(name) && path != c.RecordOf(name) && c.Held(name) != c.RecordOf(name);
    var back := AfterRestore(t', c.Held(name), c.RecordOf(name), path);
    assert forall p :: p in back <==> p in t;
  }

  /** Whether there is anything at `p` after a restore, and what. */
  predicate IsThere(t: Tree, file: Bytes, info: Bytes, original: Bytes, removed: bool, p: Bytes) {
    (p == original || (p in t && p != file)) && !(removed && p == info)
  }

  function WhatIsThere(t: Tree, file: Bytes, original: Bytes, p: Bytes): Bytes
    requires file in t && (p == original || p in t)
  {
    if p == original then t[file] else t[p]
  }

  /** Whatever paths a restore is given: each file that will then be in the trash will
      have its record, and it will say where the file came from. */
  ghost predicate Leaves(t: Tree, c: Can, origin: map<Bytes, Bytes>,
                         file: Bytes, info: Bytes, original: Bytes, removed: bool)
    requires file in t
  {
    forall name | name in origin && IsThere(t, file, info, original, removed, c.Held(name)) ::
      && IsThere(t, file, info, original, removed, c.RecordOf(name))
      && Original(WhatIsThere(t, file, original, c.RecordOf(name))) == Some(origin[name])
  }

  lemma RestoreLeavesIff(t: Tree, c: Can, origin: map<Bytes, Bytes>,
                         file: Bytes, info: Bytes, original: Bytes, removed: bool)
    requires file in t
    ensures var moved := AfterMove(t, file, original);
      Covered(if removed then moved - {info} else moved, c, origin)
      <==> Leaves(t, c, origin, file, info, original, removed)
  {
    hide Original, Can.Held, Can.RecordOf;
  }

  /** What a restore does to a name and its record, wherever the record it was given
      sends the file. */
  lemma AfterwardsAt(t: Tree, c: Can, held: Bytes, record: Bytes, original: Bytes, removed: bool, name: Bytes)
    requires c.Apart() && c.Held(held) in t
    ensures var moved := AfterMove(t, c.Held(held), original);
      var t' := if removed then moved - {c.RecordOf(record)} else moved;
      && (c.Held(name) in t' <==> (name != held && c.Held(name) in t) || original == c.Held(name))
      && (c.RecordOf(name) in t' <==>
          (c.RecordOf(name) in t || original == c.RecordOf(name)) && !(removed && name == record))
      && (c.RecordOf(name) in t' ==>
          t'[c.RecordOf(name)] == if original == c.RecordOf(name) then t[c.Held(held)] else t[c.RecordOf(name)])
  {
    assert c.Held(name) != c.RecordOf(record) && c.Held(held) != c.RecordOf(name);
    NamesAreInjective(c, name, held);
    NamesAreInjective(c, name, record);
  }

  /** Every file that will be in the trash after the restore has a record of its own
      that is not taken away, and that says what it should: before the restore, or
      by the restored file landing on it. */
  ghost predicate Spares(t: Tree, c: Can, origin: map<Bytes, Bytes>,
                         held: Bytes, record: Bytes, original: Bytes, removed: bool)
    requires c.Held(held) in t
  {
    forall name | name in origin && ((name != held && c.Held(name) in t) || original == c.Held(name)) ::
      && !(removed && name == record)
      && if original == c.RecordOf(name) then Original(t[c.Held(held)]) == Some(origin[name])
         else c.RecordOf(name) in t && Original(t[c.RecordOf(name)]) == Some(origin[name])
  }

  lemma RestoreSparesIff(t: Tree, c: Can, origin: map<Bytes, Bytes>,
                         held: Bytes, record: Bytes, original: Bytes, removed: bool)
    requires c.Apart() && c.Held(held) in t
    ensures var moved := AfterMove(t, c.Held(held), original);
      Covered(if removed then moved - {c.RecordOf(record)} else moved, c, origin)
      <==> Spares(t, c, origin, held, record, original, removed)
  {
    hide Original, Can.Apart;
    forall name { AfterwardsAt(t, c, held, record, original, removed, name); }
  }

  /** For a record that sends the file out of the trash: the restore takes that
      record away with the file, and the other trashed files stay covered if and
      only if it was not one of theirs. */
  lemma RecordGoesSafelyIff(t: Tree, c: Can, origin: map<Bytes, Bytes>, held: Bytes, record: Bytes, original: Bytes)
    requires c.Apart() && c.Held(held) in t && Covered(t, c, origin)
    requires c.RecordOf(record) in t && Original(t[c.RecordOf(record)]) == Some(original) && c.Outside(original)
    ensures Covered(AfterMove(t, c.Held(held), original), c, origin)
    ensures Covered(AfterRestore(t, c.Held(held), c.RecordOf(record), original), c, origin)
      <==> record == held || record !in origin || c.Held(record) !in t
  {
    hide Original, Can.Apart, Can.Outside;
    RestoreSparesIff(t, c, origin, held, record, original, true);
    RestoreSparesIff(t, c, origin, held, record, original, false);
    forall name { Elsewhere(c, original, name, name); }
  }

  /** Two files of a trash, restored the one by the other's record: the other is left
      without one. */
  lemma AnothersRecordUncovers(root: Bytes, x: Bytes, y: Bytes, date: Bytes)
    requires OneLine(date)
    ensures var c, a, b := CanOf(root), [97], [98];
      var t := map[c.Held(a) := x, c.RecordOf(a) := Render([SLASH] + a, date),
                   c.Held(b) := y, c.RecordOf(b) := Render([SLASH] + b, date)];
      var origin := map[a := [SLASH] + a, b := [SLASH] + b];
      && c.Apart() && Covered(t, c, origin) && Original(t[c.RecordOf(b)]) == Some([SLASH] + b)
      && c.Held(b) in t && !Covered(AfterRestore(t, c.Held(a), c.RecordOf(b), [SLASH] + b), c, origin)
  {
    hide Original, Render, CanOf, Can.Apart, Can.Held, Can.RecordOf;
    var c, a, b := CanOf(root), [97], [98];
    CanIsApart(root);
    NamesAreInjective(c, a, b);
    ApartNames(c, a, b);
    RecordRoundTrips([SLASH] + a, date);
    RecordRoundTrips([SLASH] + b, date);
    assert a[0] != b[0];
    var t := map[c.Held(a) := x, c.RecordOf(a) := Render([SLASH] + a, date),
                 c.Held(b) := y, c.RecordOf(b) := Render([SLASH] + b, date)];
    var origin := map[a := [SLASH] + a, b := [SLASH] + b];
    RestoreSparesIff(t, c, origin, a, b, [SLASH] + b, true);
  }

  lemma ApartNames(c: Can, a: Bytes, b: Bytes)
    requires c.Apart()
    ensures c.Held(a) != c.RecordOf(a) && c.Held(a) != c.RecordOf(b)
    ensures c.Held(b) != c.RecordOf(a) && c.Held(b) != c.RecordOf(b)
  {
  }

  lemma Elsewhere(c: Can, original: Bytes, a: Bytes, b: Bytes)
    requires c.Apart() && c.Outside(original)
    ensures c.Held(a) != c.RecordOf(b) && original != c.Held(a) && original != c.RecordOf(a)
      && original != c.RecordOf(b)
  {
  }

  /** The least of the names tried that neither directory uses. */
  ghost predicate NextFree(t: Tree, c: Can, stem: Bytes, name: Bytes) {
    && Free(t, c, name)
    && exists n: nat ::
      && n < LIMIT && name == TrashName(stem, n) && Numbered(stem, n, name)
      && forall m: nat | m < n :: !Free(t, c, TrashName(stem, m))
  }

  /** The record at `info` says that its file was deleted at `now`. */
  ghost predicate DatedAt(t: Tree, info: Bytes, now: int) {
    && info in t
    && (0 <= CivilFromUnix(now).date.year <= 9999 ==>
        Dated(t[info]).Some? && ValidCivil(Dated(t[info]).value) && Unix(Dated(t[info]).value) == now)
  }

  /** All a failed trashing leaves: perhaps a record under a name that was free. */
  ghost predicate Residue(t: Tree, c: Can, path: Bytes, t': Tree)
    requires SLASH in path
  {
    t' == t || exists name :: NextFree(t, c, FileName(path), name) && Scribbled(t, c.RecordOf(name), t')
  }

  /** The same but for what `p` holds. */
  predicate Scribbled(t: Tree, p: Bytes, t': Tree) { t' == t || (p in t' && t' == t[p := t'[p]]) }

  datatype Disposal = Permanent | Trashed(file: Bytes, info: Bytes)
  datatype Outcome<T> = Ok(value: T) | Err

  /** The trash and the disk it is on; `moments` are all the states a crash could
      have left behind, and `faults` counts the calls that failed. */
  class Bin {
    const can: Can
    var tree: Tree
    ghost var origin: map<Bytes, Bytes>
    ghost var moments: seq<Moment>
    ghost var faults: nat

    ghost predicate Valid()
      reads this
    {
      && can.Apart() && Covered(tree, can, origin)
      && forall m | m in moments :: Covered(m.tree, can, m.origin)
    }

    /** A trash under `root`, in which nothing is held to have come from anywhere yet. */
    constructor (root: Bytes, tree: Tree)
      ensures Valid() && can == CanOf(root) && this.tree == tree && origin == map[]
    {
      CanIsApart(root);
      can, this.tree, origin, moments, faults := CanOf(root), tree, map[], [], 0;
    }

    /** A crash may strike here. */
    method Boundary()
      modifies this`moments
      ensures moments == old(moments) + [Moment(tree, origin)]
    {
      moments := moments + [Moment(tree, origin)];
    }

    method Rename(a: Bytes, b: Bytes) returns (ok: bool)
      modifies this`tree, this`faults
      ensures ok ==> a in old(tree) && tree == (old(tree) - {a})[b := old(tree)[a]] && faults == old(faults)
      ensures !ok ==> tree == old(tree) && faults >= old(faults) && (a in tree ==> faults > old(faults))
    {
      if a !in tree { return false; }
      ok := Works();
      if ok { tree := (tree - {a})[b := tree[a]]; }
    }

    /** Whether the system lets a call succeed. */
    method Works() returns (ok: bool)
      modifies this`faults
      ensures faults == if ok then old(faults) else old(faults) + 1
    {
      ok := *;
      faults := if ok then faults else faults + 1;
    }

    method RemoveFile(p: Bytes) returns (ok: bool)
      modifies this`tree, this`faults
      ensures tree == (if ok then old(tree) - {p} else old(tree)) && (ok ==> p in old(tree) && faults == old(faults))
      ensures !ok ==> faults > old(faults) || (p !in tree && faults == old(faults))
    {
      if p !in tree { return false; }
      ok := Works();
      if ok { tree := tree - {p}; }
    }

    /** Not atomic: a crash or an error may leave any prefix. */
    method Write(p: Bytes, text: Bytes) returns (ok: bool)
      requires Valid() && forall name :: p != can.Held(name)
      requires forall name | name in origin && can.Held(name) in tree :: p != can.RecordOf(name)
      modifies this`tree, this`moments, this`faults
      ensures Valid() && old(moments) <= moments
      ensures if ok then tree == old(tree)[p := text] && faults == old(faults) else faults > old(faults)
      ensures Scribbled(old(tree), p, tree)
    {
      ok := Works();
      if !ok { return; }
      tree := tree[p := []];
      var done := 0;
      while done < |text|
        invariant Valid() && old(moments) <= moments && faults == old(faults)
        invariant done <= |text| && tree == old(tree)[p := text[..done]]
      {
        Boundary();
        var n: nat :| true;
        ok := Works();
        if !ok { return; }
        done := if n == 0 || done + n > |text| then |text| else done + n;
        tree := tree[p := text[..done]];
      }
      assert text[..done] == text;
      return true;
    }

    method UniqueName(stem: Bytes) returns (r: Option<Bytes>)
      ensures match r
              case Some(name) => NextFree(tree, can, stem, name)
              case None => forall m: nat | m < 10_000 :: !Free(tree, can, TrashName(stem, m))
      ensures Free(tree, can, stem) ==> r == Some(stem)
    {
      hide Numbered;
      assert TrashName(stem, 0) == stem;
      for n: nat := 0 to LIMIT
        invariant forall m: nat | m < n :: !Free(tree, can, TrashName(stem, m))
      {
        var candidate := TrashName(stem, n);
        NameIsNumbered(stem, n);
        if can.Held(candidate) !in tree && can.RecordOf(candidate) !in tree { return Some(candidate); }
      }
      return None;
    }

    /** `trash_in`, for a file anywhere, the trash included: it either does the whole
        move or leaves every file but the record's own name as it was, and every moment
        of it is covered, unless what it takes away is the record of a file in the trash. */
    method TrashFile(path: Bytes, sameDevice: bool, now: int) returns (r: Outcome<Disposal>)
      requires Valid() && SLASH in path
      modifies this
      ensures old(moments) <= moments
      ensures Valid() <==> r.Err? || r.value.Permanent? || NobodysRecord(old(tree), can, old(origin), path)
      ensures (r == Ok(Permanent) <==> !sameDevice) && (r == Ok(Permanent) ==> tree == old(tree))
      ensures match r
        case Ok(Trashed(file, info)) => exists name ::
          && file == can.Held(name) && info == can.RecordOf(name) && NextFree(old(tree), can, FileName(path), name)
          && path in old(tree) && tree == AfterTrash(old(tree), can, path, name, Render(path, Iso(CivilFromUnix(now))))
          && origin == old(origin)[name := path] && DatedAt(tree, info, now)
        case _ => origin == old(origin) && Residue(old(tree), can, path, tree)
      ensures r == Err && faults == old(faults) ==>
        && tree == old(tree)
        && (path !in tree || forall m: nat | m < LIMIT :: !Free(tree, can, TrashName(FileName(path), m)))
    {
      hide Covered, NextFree, Render, Original, Iso, CivilFromUnix, ValidCivil, Unix, Dated, Can.Apart;
      if !sameDevice { return Ok(Permanent); }
      var unique := UniqueName(FileName(path));
      if unique == None { return Err; }
      var name := unique.value;
      var file, info := can.Held(name), can.RecordOf(name);
      ghost var before := tree;
      IsFree(tree, can, origin, FileName(path), name);
      NotItsOwn(tree, can, path, name);
      var date := Iso(CivilFromUnix(now));
      var text := RecordText(path, date);
      var ok := Write(info, text);
      LeavesResidue(before, can, path, name, tree);
      if !ok { return Err; }
      Boundary();
      IsoIsOneLine(CivilFromUnix(now));
      RecordRoundTrips(path, date);
      ok := MoveIn(path, name, before);
      LeavesResidue(before, can, path, name, tree);
      if 0 <= CivilFromUnix(now).date.year <= 9999 { RecordTellsTheTime(path, now); }
      return if ok then Ok(Trashed(file, info)) else Err;
    }

    /** The record is written; the file follows, or the record goes again. */
    method MoveIn(path: Bytes, name: Bytes, ghost before: Tree) returns (ok: bool)
      requires Valid() && can.Held(name) !in before && can.RecordOf(name) !in before && path != can.RecordOf(name)
      requires can.RecordOf(name) in tree && tree == before[can.RecordOf(name) := tree[can.RecordOf(name)]]
      requires Original(tree[can.RecordOf(name)]) == Some(path) && can.Held(name) != can.RecordOf(name)
      requires Covered(before, can, origin)
      modifies this
      ensures old(moments) <= moments
      ensures ok ==> path in before && origin == old(origin)[name := path]
                     && tree == AfterTrash(before, can, path, name, old(tree)[can.RecordOf(name)])
                     && (Valid() <==> NobodysRecord(before, can, old(origin), path))
      ensures !ok ==> Valid() && origin == old(origin) && faults >= old(faults)
                      && Scribbled(before, can.RecordOf(name), tree)
                      && (faults == old(faults) ==> tree == before && path !in before)
    {
      hide Covered, Original, Can.Apart, Can.Held, Can.RecordOf;
      ghost var written := tree;
      ok := Rename(path, can.Held(name));
      if ok {
        origin := origin[name := path];
        ArrivesIff(written, can, old(origin), path, name, tree);
        SameRecords(before, can, old(origin), path, name, written);
        Boundary();
        return;
      }
      var gone := RemoveFile(can.RecordOf(name));
      assert gone ==> tree == before;
      Boundary();
    }

    /** `restore`, for any two paths: the file goes where the record says, the record
        goes if the call works, and every trashed file is still covered, during and
        after, if and only if `Leaves` says so. */
    method Restore(file: Bytes, info: Bytes) returns (r: Outcome<Bytes>, ghost removed: bool)
      requires Valid()
      modifies this
      ensures old(moments) <= moments && origin == old(origin)
      ensures match r
        case Ok(original) =>
          && file in old(tree) && info in old(tree) && Original(old(tree)[info]) == Some(original)
          && (Valid() <==> Leaves(old(tree), can, origin, file, info, original, false)
                           && Leaves(old(tree), can, origin, file, info, original, removed))
          && if removed then tree == AfterRestore(old(tree), file, info, original)
             else tree == AfterMove(old(tree), file, original) && (faults > old(faults) || info !in tree)
        case Err =>
          && Valid() && tree == old(tree)
          && (faults > old(faults) || file !in tree || info !in tree || Original(tree[info]) == None)
    {
      hide Original, Can.Apart, Covered;
      removed := false;
      if info !in tree { return Err, false; }
      r := Err;
      var readable := Works();
      if !readable { return; }
      var named := ReadOriginal(tree[info]);
      if named == None { return; }
      var original := named.value;
      var parentMade := Works();
      if !parentMade { return; }
      ghost var before := tree;
      var ok := Rename(file, original);
      if !ok { return; }
      RestoreLeavesIff(before, can, origin, file, info, original, false);
      Boundary();
      ok := RemoveFile(info);
      RestoreLeavesIff(before, can, origin, file, info, original, ok);
      Boundary();
      return Ok(original), ok;
    }
  }

  lemma IsFree(t: Tree, c: Can, origin: map<Bytes, Bytes>, stem: Bytes, name: Bytes)
    requires c.Apart() && Covered(t, c, origin) && NextFree(t, c, stem, name)
    ensures Free(t, c, name) && forall a :: c.RecordOf(name) != c.Held(a)
    ensures forall other | other in origin && c.Held(other) in t :: c.RecordOf(name) != c.RecordOf(other)
  {
  }

  /** `path` is not the record of a file in the trash, other than itself. */
  ghost predicate NobodysRecord(t: Tree, c: Can, origin: map<Bytes, Bytes>, path: Bytes) {
    forall other | other in origin && c.Held(other) in t && c.Held(other) != path :: c.RecordOf(other) != path
  }

  lemma SameRecords(t: Tree, c: Can, origin: map<Bytes, Bytes>, path: Bytes, name: Bytes, t': Tree)
    requires c.Apart() && c.RecordOf(name) in t' && t' == t[c.RecordOf(name) := t'[c.RecordOf(name)]]
    ensures NobodysRecord(t', c, origin, path) <==> NobodysRecord(t, c, origin, path)
  {
    assert forall other :: c.Held(other) != c.RecordOf(name);
  }

  lemma LeavesResidue(t: Tree, c: Can, path: Bytes, name: Bytes, t': Tree)
    requires SLASH in path && NextFree(t, c, FileName(path), name)
    ensures Scribbled(t, c.RecordOf(name), t') ==> Residue(t, c, path, t')
  {
  }

  /** The name a file gets in the trash is longer than its own. */
  lemma NotItsOwn(t: Tree, c: Can, path: Bytes, name: Bytes)
    requires SLASH in path && NextFree(t, c, FileName(path), name)
    ensures path != c.RecordOf(name)
  {
    var n: nat :| n < LIMIT && name == TrashName(FileName(path), n);
    DigitsAreDigits(n);
    assert SLASH !in name;
    JoinParts(c.info, name + INFO_SUFFIX);
    assert |FileName(c.RecordOf(name))| > |FileName(path)|;
  }

  lemma ArrivesIff(t: Tree, c: Can, origin: map<Bytes, Bytes>, path: Bytes, name: Bytes, t': Tree)
    requires c.Apart() && Covered(t, c, origin) && path in t && c.Held(name) !in t && path != c.RecordOf(name)
    requires c.RecordOf(name) in t && Original(t[c.RecordOf(name)]) == Some(path)
    requires t' == (t - {path})[c.Held(name) := t[path]]
    ensures Covered(t', c, origin[name := path]) <==> NobodysRecord(t, c, origin, path)
  {
    hide Original;
    forall other
      ensures c.Held(other) in t' <==> other == name || (c.Held(other) in t && c.Held(other) != path)
      ensures c.RecordOf(other) in t' <==> c.RecordOf(other) in t && c.RecordOf(other) != path
      ensures c.RecordOf(other) in t' ==> t'[c.RecordOf(other)] == t[c.RecordOf(other)] {
      NamesAreInjective(c, name, other);
    }
  }
}
