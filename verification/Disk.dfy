/**
 A filesystem with inodes, unsynced data and a directory tree nobody fsyncs.

 The second half is the discipline the engine lives by, stated of every tree
 that the medium might show after a power loss.
 */
module Disk {
  import opened Paths

  /** An inode belongs to a device for ever. */
  datatype Ino = Ino(dev: int, num: nat)

  /** What an inode holds, and whether it has reached the medium. */
  datatype Data = Data(bytes: Bytes, synced: bool)

  type Dir = map<Path, Ino>

  /** `names` is the directory tree every process sees. No directory is ever
      fsynced, so the medium may still show any earlier tree: `past` holds every
      tree since the last boot. */
  datatype Fs = Fs(names: Dir, past: set<Dir>, data: map<Ino, Data>)

  function Snaps(fs: Fs): set<Dir> { fs.past + {fs.names} }

  function Retree(fs: Fs, names': Dir): Fs {
    fs.(names := names', past := Snaps(fs))
  }

  /** The data behind a name, if there is any. */
  predicate Present(fs: Fs, p: Path) { p in fs.names && fs.names[p] in fs.data }

  function Read(fs: Fs, p: Path): Data
    requires Present(fs, p)
  {
    fs.data[fs.names[p]]
  }

  predicate Unlinks(fs: Fs, p: Path, ok: bool, fs': Fs) {
    if ok then p in fs.names && fs' == Retree(fs, fs.names - {p}) else fs' == fs
  }

  predicate Renames(fs: Fs, a: Path, b: Path, ok: bool, fs': Fs) {
    if ok then a in fs.names && fs' == Retree(fs, (fs.names - {a})[b := fs.names[a]]) else fs' == fs
  }

  /** `open(O_CREAT | O_TRUNC)`: an existing inode is emptied, a missing one made. */
  predicate OpensTruncated(dev: string -> int, fs: Fs, p: Path, h: Ino, fs': Fs) {
    if p in fs.names then
      h == fs.names[p] && fs' == fs.(data := fs.data[h := Data([], false)])
    else
      && h !in fs.data && h.dev == dev(p.dir)
      && fs' == Retree(fs, fs.names[p := h]).(data := fs.data[h := Data([], false)])
  }

  /** Overwrite from `at` on; what lies beyond the written stretch stays. */
  function WriteAt(was: Bytes, at: nat, w: Bytes): Bytes
    requires at <= |was|
  {
    was[..at] + w + (if at + |w| <= |was| then was[at + |w|..] else [])
  }

  predicate Writes(fs: Fs, h: Ino, at: nat, w: Bytes, fs': Fs) {
    && h in fs.data && at <= |fs.data[h].bytes|
    && fs' == fs.(data := fs.data[h := Data(WriteAt(fs.data[h].bytes, at, w), false)])
  }

  predicate Syncs(fs: Fs, h: Ino, ok: bool, fs': Fs) {
    if ok then h in fs.data && fs' == fs.(data := fs.data[h := Data(fs.data[h].bytes, true)]) else fs' == fs
  }

  /** A clone shares the source's extents: the handle now holds the source's bytes. */
  predicate Clones(fs: Fs, src: Path, h: Ino, ok: bool, fs': Fs) {
    if ok then
      h in fs.data && Present(fs, src) && fs' == fs.(data := fs.data[h := Data(Read(fs, src).bytes, false)])
    else fs' == fs
  }

  /** A device comes back showing one of the trees it has had. */
  ghost predicate FromMedium(dev: string -> int, fs: Fs, names': Dir, v: int) {
    exists d :: d in Snaps(fs) && Agree(dev, names', d, v)
  }

  ghost predicate Agree(dev: string -> int, a: Dir, b: Dir, v: int) {
    forall p: Path | dev(p.dir) == v :: (p in a <==> p in b) && (p in a ==> a[p] == b[p])
  }

  /** Synced data survives; the rest may hold anything. */
  ghost predicate Survives(fs: Fs, data': map<Ino, Data>) {
    && data'.Keys == fs.data.Keys
    && forall i | i in fs.data :: data'[i].synced && (fs.data[i].synced ==> data'[i] == fs.data[i])
  }

  ghost predicate LosesPower(dev: string -> int, fs: Fs, fs': Fs) {
    fs'.past == {} && Survives(fs, fs'.data) && forall v :: FromMedium(dev, fs, fs'.names, v)
  }

  /******* The discipline *******/

  /** A moved file is at `src`, or it is one of `landings`. */
  datatype Promise = Promise(src: Path, landings: iset<(Path, Bytes)>)

  /** `temps` may hold anything; any other name holds content from `allowed`;
      the names in `kept` never disappear. */
  datatype Rules = Rules(dev: string -> int, temps: iset<Path>, allowed: iset<(Path, Bytes)>, kept: iset<Path>,
                         promises: iset<Promise>)

  ghost predicate Sound(u: Rules) {
    && (forall m | m in u.promises :: m.src !in u.temps && forall x | x in m.landings :: x.0 !in u.temps)
    && (forall p | p in u.kept :: p !in u.temps)
  }

  /** No other name of the tree leads to the inode. */
  ghost predicate Alone(d: Dir, t: Path, h: Ino) {
    forall p | p in d && p != t :: d[p] != h
  }

  /** Inodes are known and stay on their device. */
  ghost predicate TreeOk(u: Rules, fs: Fs, d: Dir) {
    forall p: Path | p in d :: d[p] in fs.data && d[p].dev == u.dev(p.dir)
  }

  /** A temp name shares its inode with nothing, in its own tree or an earlier one. */
  ghost predicate TempsAlone(u: Rules, fs: Fs, d: Dir) {
    && (forall t | t in u.temps && t in d :: Alone(d, t, d[t]))
    && (forall t | t in u.temps && t in fs.names :: Alone(d, t, fs.names[t]))
  }

  /** Every final name holds durable content of an allowed kind. */
  ghost predicate FilesWhole(u: Rules, fs: Fs, d: Dir) {
    forall p | p in d && d[p] in fs.data && p !in u.temps ::
      fs.data[d[p]].synced && (p, fs.data[d[p]].bytes) in u.allowed
  }

  ghost predicate Kept(u: Rules, d: Dir) {
    forall p {:trigger p in u.kept} | p in u.kept :: p in d
  }

  ghost predicate Holds(m: Promise, fs: Fs, d: Dir) {
    m.src in d || exists p :: p in d && d[p] in fs.data && (p, fs.data[d[p]].bytes) in m.landings
  }

  /** All of this, of one tree. */
  ghost predicate SnapOk(u: Rules, fs: Fs, d: Dir) {
    && TreeOk(u, fs, d) && TempsAlone(u, fs, d) && FilesWhole(u, fs, d) && Kept(u, d)
    && forall m | m in u.promises :: Holds(m, fs, d)
  }

  /** And of every tree the medium might show. */
  ghost predicate FsOk(u: Rules, fs: Fs) {
    forall d | d in Snaps(fs) :: SnapOk(u, fs, d)
  }

  /** What one name shows is the same in both. */
  ghost predicate SameAt(fs: Fs, fs': Fs, p: Path) {
    && (p in fs.names <==> p in fs'.names)
    && (Present(fs, p) ==> Present(fs', p) && fs'.names[p] == fs.names[p] && Read(fs', p) == Read(fs, p))
  }

  /******* Effects *******/

  /** Changing an inode that no final name of the tree leads to. */
  lemma Unseen(u: Rules, fs: Fs, d: Dir, h: Ino, x: Data)
    requires Sound(u) && SnapOk(u, fs, d)
    requires forall p | p in d && p !in u.temps :: d[p] != h
    ensures SnapOk(u, fs.(data := fs.data[h := x]), d)
  {
    var fs' := fs.(data := fs.data[h := x]);
    forall m | m in u.promises ensures Holds(m, fs', d) {
      assert Holds(m, fs, d);
      if m.src !in d {
        var p :| p in d && d[p] in fs.data && (p, fs.data[d[p]].bytes) in m.landings;
        assert p !in u.temps;
        assert p in d && d[p] in fs'.data && (p, fs'.data[d[p]].bytes) in m.landings;
      }
    }
  }

  lemma TempIsAlone(u: Rules, fs: Fs, d: Dir, t: Path)
    requires FsOk(u, fs) && d in Snaps(fs) && t in u.temps && t in fs.names
    ensures SnapOk(u, fs, d) && Alone(d, t, fs.names[t])
  {
  }

  /** Changing the inode behind a temp name changes nothing anyone else can see. */
  lemma TouchTemp(u: Rules, fs: Fs, t: Path, x: Data)
    requires Sound(u) && FsOk(u, fs) && t in u.temps && t in fs.names
    ensures var fs' := fs.(data := fs.data[fs.names[t] := x]);
            FsOk(u, fs') && (forall p | p != t :: SameAt(fs, fs', p))
  {
    var h := fs.names[t];
    var fs' := fs.(data := fs.data[h := x]);
    assert Snaps(fs') == Snaps(fs);
    forall d | d in Snaps(fs') ensures SnapOk(u, fs', d) {
      TempIsAlone(u, fs, d, t);
      Unseen(u, fs, d, h, x);
    }
    TempIsAlone(u, fs, fs.names, t);
  }

  /** An inode nothing leads to yet. */
  lemma FreshInode(u: Rules, fs: Fs, h: Ino, x: Data)
    requires Sound(u) && FsOk(u, fs) && h !in fs.data
    ensures var fs' := fs.(data := fs.data[h := x]);
            FsOk(u, fs') && Snaps(fs') == Snaps(fs) && forall p :: SameAt(fs, fs', p)
    ensures forall d, p | d in Snaps(fs) && p in d :: d[p] != h
  {
    var fs' := fs.(data := fs.data[h := x]);
    assert Snaps(fs') == Snaps(fs) && fs.names in Snaps(fs);
    forall d | d in Snaps(fs') ensures SnapOk(u, fs', d) {
      assert SnapOk(u, fs, d);
      Unseen(u, fs, d, h, x);
    }
  }

  /** A tree that is fine by itself can become the current one. */
  lemma NewTree(u: Rules, fs: Fs, names': Dir)
    requires FsOk(u, fs) && SnapOk(u, Retree(fs, names'), names')
    requires forall d, t | d in Snaps(fs) && t in u.temps && t in names' :: Alone(d, t, names'[t])
    ensures FsOk(u, Retree(fs, names'))
  {
    var fs' := Retree(fs, names');
    assert Snaps(fs') == Snaps(fs) + {names'};
    forall d | d in Snaps(fs) ensures SnapOk(u, fs', d) {
      assert SnapOk(u, fs, d);
      forall m | m in u.promises ensures Holds(m, fs', d) { assert Holds(m, fs, d); }
    }
  }

  /** The current tree, as the starting point of a new one. */
  lemma Current(u: Rules, fs: Fs)
    requires FsOk(u, fs)
    ensures SnapOk(u, fs, fs.names)
    ensures forall d, t | d in Snaps(fs) && t in u.temps && t in fs.names :: Alone(d, t, fs.names[t])
  {
    assert fs.names in Snaps(fs);
    forall d, t | d in Snaps(fs) && t in u.temps && t in fs.names ensures Alone(d, t, fs.names[t]) {
      assert SnapOk(u, fs, d);
    }
  }

  /** A promise survives changes to names that are not its own. */
  lemma StillHolds(m: Promise, fs: Fs, fs': Fs, names': Dir)
    requires Holds(m, fs, fs.names) && fs'.data == fs.data
    requires m.src in fs.names ==> m.src in names'
    requires forall p | p in fs.names && fs.names[p] in fs.data && (p, fs.data[fs.names[p]].bytes) in m.landings ::
      p in names' && names'[p] == fs.names[p]
    ensures Holds(m, fs', names')
  {
    if m.src !in fs.names {
      var p :| p in fs.names && fs.names[p] in fs.data && (p, fs.data[fs.names[p]].bytes) in m.landings;
      assert p in names' && names'[p] in fs'.data && (p, fs'.data[names'[p]].bytes) in m.landings;
    }
  }

  lemma DropTemp(u: Rules, fs: Fs, t: Path)
    requires Sound(u) && FsOk(u, fs) && t in u.temps && t in fs.names
    ensures var fs' := Retree(fs, fs.names - {t});
            FsOk(u, fs') && (forall p | p != t :: SameAt(fs, fs', p))
  {
    var names' := fs.names - {t};
    var fs' := Retree(fs, names');
    Current(u, fs);
    forall m | m in u.promises ensures Holds(m, fs', names') { StillHolds(m, fs, fs', names'); }
    NewTree(u, fs, names');
  }

  /** A new name for a durable inode nothing leads to. */
  lemma AddName(u: Rules, fs: Fs, p: Path, h: Ino)
    requires Sound(u) && FsOk(u, fs) && p !in fs.names && h in fs.data && h.dev == u.dev(p.dir)
    requires forall d, q | d in Snaps(fs) && q in d :: d[q] != h
    requires p in u.temps || (fs.data[h].synced && (p, fs.data[h].bytes) in u.allowed)
    ensures var fs' := Retree(fs, fs.names[p := h]);
            FsOk(u, fs') && (forall q | q != p :: SameAt(fs, fs', q))
  {
    var names' := fs.names[p := h];
    var fs' := Retree(fs, names');
    Current(u, fs);
    forall m | m in u.promises ensures Holds(m, fs', names') { StillHolds(m, fs, fs', names'); }
    assert fs.names in Snaps(fs);
    NewTree(u, fs, names');
  }

  /** Opening a temp for a fresh start. */
  lemma OpenTemp(u: Rules, fs: Fs, t: Path, h: Ino, fs': Fs)
    requires Sound(u) && FsOk(u, fs) && t in u.temps && OpensTruncated(u.dev, fs, t, h, fs')
    ensures FsOk(u, fs') && Present(fs', t) && fs'.names[t] == h && Read(fs', t) == Data([], false)
    ensures forall p | p != t :: SameAt(fs, fs', p)
  {
    if t in fs.names {
      TouchTemp(u, fs, t, Data([], false));
    } else {
      FreshInode(u, fs, h, Data([], false));
      var mid := fs.(data := fs.data[h := Data([], false)]);
      assert fs' == Retree(mid, mid.names[t := h]);
      AddName(u, mid, t, h);
      hide FsOk, Present;
      forall p | p != t ensures SameAt(fs, fs', p) { assert SameAt(fs, mid, p) && SameAt(mid, fs', p); }
    }
  }

  /** The commit: a durable temp takes a final name, whatever was there. */
  lemma CommitTemp(u: Rules, fs: Fs, t: Path, p: Path)
    requires Sound(u) && FsOk(u, fs) && t in u.temps && Present(fs, t) && p !in u.temps
    requires u.dev(t.dir) == u.dev(p.dir)
    requires Read(fs, t).synced && (p, Read(fs, t).bytes) in u.allowed
    requires p in fs.names ==>
      forall m, b | m in u.promises && (p, b) in m.landings :: (p, Read(fs, t).bytes) in m.landings
    ensures var fs' := Retree(fs, (fs.names - {t})[p := fs.names[t]]);
            FsOk(u, fs') && (forall q | q != t && q != p :: SameAt(fs, fs', q))
  {
    var h := fs.names[t];
    var names' := (fs.names - {t})[p := h];
    var fs' := Retree(fs, names');
    Current(u, fs);
    forall m | m in u.promises ensures Holds(m, fs', names') {
      if p !in fs.names || forall b :: (p, b) !in m.landings {
        StillHolds(m, fs, fs', names');
      } else {
        assert p in names' && names'[p] in fs'.data && (p, fs'.data[names'[p]].bytes) in m.landings;
      }
    }
    NewTree(u, fs, names');
  }

  /** A same-device move: the source's inode takes a final name. */
  lemma MoveName(u: Rules, fs: Fs, src: Path, p: Path)
    requires Sound(u) && FsOk(u, fs) && Present(fs, src)
    requires src !in u.temps && p !in u.temps && src !in u.kept && src != p && u.dev(src.dir) == u.dev(p.dir)
    requires (p, Read(fs, src).bytes) in u.allowed
    requires p in fs.names ==>
      forall m, b | m in u.promises && (p, b) in m.landings :: (p, Read(fs, src).bytes) in m.landings
    requires forall m | m in u.promises && m.src == src :: (p, Read(fs, src).bytes) in m.landings
    requires forall m, x | m in u.promises && x in m.landings :: x.0 != src
    ensures var fs' := Retree(fs, (fs.names - {src})[p := fs.names[src]]);
            FsOk(u, fs') && (forall q | q != src && q != p :: SameAt(fs, fs', q))
  {
    var names' := (fs.names - {src})[p := fs.names[src]];
    var fs' := Retree(fs, names');
    Current(u, fs);
    forall m | m in u.promises ensures Holds(m, fs', names') {
      if m.src != src && (p !in fs.names || forall b :: (p, b) !in m.landings) {
        StillHolds(m, fs, fs', names');
      } else {
        assert p in names' && names'[p] in fs'.data && (p, fs'.data[names'[p]].bytes) in m.landings;
      }
    }
    NewTree(u, fs, names');
  }

  /** The end of a move across devices: the source goes once a landing is there. */
  lemma DropSource(u: Rules, fs: Fs, src: Path, p: Path)
    requires Sound(u) && FsOk(u, fs) && src in fs.names && Present(fs, p)
    requires src !in u.temps && src !in u.kept && src != p
    requires forall m | m in u.promises && m.src == src :: (p, Read(fs, p).bytes) in m.landings
    requires forall m, x | m in u.promises && x in m.landings :: x.0 != src
    ensures var fs' := Retree(fs, fs.names - {src});
            FsOk(u, fs') && (forall q | q != src :: SameAt(fs, fs', q))
  {
    var names' := fs.names - {src};
    var fs' := Retree(fs, names');
    Current(u, fs);
    forall m | m in u.promises ensures Holds(m, fs', names') {
      if m.src != src {
        StillHolds(m, fs, fs', names');
      } else {
        assert p in names' && names'[p] in fs'.data && (p, fs'.data[names'[p]].bytes) in m.landings;
      }
    }
    NewTree(u, fs, names');
  }

  lemma Widen(u: Rules, u': Rules, fs: Fs)
    requires FsOk(u, fs) && u' == u.(allowed := u'.allowed) && u.allowed <= u'.allowed
    ensures FsOk(u', fs)
  {
    forall d | d in Snaps(fs) ensures SnapOk(u', fs, d) { assert SnapOk(u, fs, d); }
  }

  /** Power may go at any time, as far as promises on one device are concerned. */
  lemma LosePower(u: Rules, fs: Fs, fs': Fs)
    requires Sound(u) && FsOk(u, fs) && LosesPower(u.dev, fs, fs')
    requires forall m, x | m in u.promises && x in m.landings :: u.dev(x.0.dir) == u.dev(m.src.dir)
    ensures FsOk(u, fs')
  {
    var names' := fs'.names;
    assert Snaps(fs') == {names'};
    forall p: Path | p in names'
      ensures names'[p] in fs'.data && names'[p].dev == u.dev(p.dir)
      ensures p !in u.temps ==> fs'.data[names'[p]].synced && (p, fs'.data[names'[p]].bytes) in u.allowed
    {
      var d := TreeOf(u, fs, fs', p);
    }
    forall p | p in u.kept ensures p in names' { var d := TreeOf(u, fs, fs', p); }
    forall t | t in u.temps && t in names' ensures Alone(names', t, names'[t]) {
      var d := TreeOf(u, fs, fs', t);
      assert Alone(d, t, d[t]);
      forall p | p in names' && p != t ensures names'[p] != names'[t] {
        if u.dev(p.dir) == u.dev(t.dir) { assert d[p] == names'[p]; }
      }
    }
    forall m | m in u.promises ensures Holds(m, fs', names') {
      var d := TreeOf(u, fs, fs', m.src);
      assert Holds(m, fs, d);
      if m.src !in d {
        var p :| p in d && d[p] in fs.data && (p, fs.data[d[p]].bytes) in m.landings;
        assert p !in u.temps && names'[p] == d[p] && fs'.data[names'[p]] == fs.data[d[p]];
      }
    }
    assert SnapOk(u, fs', names');
  }

  /** The tree the medium chose for a name's device. */
  lemma TreeOf(u: Rules, fs: Fs, fs': Fs, p: Path) returns (d: Dir)
    requires FsOk(u, fs) && LosesPower(u.dev, fs, fs')
    ensures d in Snaps(fs) && Agree(u.dev, fs'.names, d, u.dev(p.dir)) && SnapOk(u, fs, d)
  {
    assert FromMedium(u.dev, fs, fs'.names, u.dev(p.dir));
    d :| d in Snaps(fs) && Agree(u.dev, fs'.names, d, u.dev(p.dir));
  }
}
