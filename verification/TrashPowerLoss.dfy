/**
 Trashing on a medium that may lose power. The order of the two files protects
 against a crash of the daemon only: nothing is fsynced, so the record that a
 power loss leaves beside a trashed file may hold anything.
 */
module TrashPowerLoss {
  import opened Paths
  import opened Disk

  /** The calls that put `path` into the trash as `held` with its record at `info`:
      create the record, write it, `fsync` it or not, rename the file. */
  ghost predicate Trashes(dev: string -> int, fs: Fs, path: Path, held: Path, info: Path, text: Bytes,
                          fsynced: bool, fs': Fs)
  {
    exists h: Ino, fs1: Fs, fs2: Fs, fs3: Fs ::
      && info !in fs.names && OpensTruncated(dev, fs, info, h, fs1)
      && Writes(fs1, h, 0, text, fs2)
      && (if fsynced then Syncs(fs2, h, true, fs3) else fs3 == fs2)
      && Renames(fs3, path, held, true, fs')
  }

  /** What a power loss may leave: the file in the trash, its record holding `found`. */
  ghost predicate MayFind(dev: string -> int, fs: Fs, held: Path, info: Path, found: Bytes) {
    exists fs': Fs :: LosesPower(dev, fs, fs') && held in fs'.names && Present(fs', info)
      && Read(fs', info).bytes == found
  }

  /** In every tree the power might bring back in which the file is in the trash, its
      record is there, and whole. */
  ghost predicate RecordSurvives(dev: string -> int, fs: Fs, held: Path, info: Path, text: Bytes) {
    forall fs': Fs | LosesPower(dev, fs, fs') && held in fs'.names ::
      Present(fs', info) && Read(fs', info).bytes == text
  }

  /** Once the file has been renamed into a trash that had not used the name since
      the last boot, its record survives a power loss if and only if it was fsynced
      before the rename; otherwise it may be found holding any bytes at all. */
  lemma RecordSurvivesIff(dev: string -> int, fs: Fs, path: Path, held: Path, info: Path, text: Bytes,
                          fsynced: bool, fs': Fs)
    requires Trashes(dev, fs, path, held, info, text, fsynced, fs')
    requires info != path && info != held && dev(held.dir) == dev(info.dir)
    requires forall d | d in Snaps(fs) :: held !in d
    ensures RecordSurvives(dev, fs', held, info, text) <==> fsynced
    ensures !fsynced ==> forall found :: MayFind(dev, fs', held, info, found)
  {
    var h: Ino, fs1: Fs, fs2: Fs, fs3: Fs :|
      && info !in fs.names && OpensTruncated(dev, fs, info, h, fs1)
      && Writes(fs1, h, 0, text, fs2)
      && (if fsynced then Syncs(fs2, h, true, fs3) else fs3 == fs2)
      && Renames(fs3, path, held, true, fs');
    assert fs'.data[h] == Data(text, fsynced);
    assert forall d | d in Snaps(fs') && held in d :: info in d && d[info] == h;
    if fsynced {
      Whole(dev, fs', held, info, h);
    } else {
      forall found ensures MayFind(dev, fs', held, info, found) { Torn(dev, fs', held, info, found); }
      assert MayFind(dev, fs', held, info, text + [0]);
      assert text + [0] != text;
    }
  }

  /** As it is written, without the fsync: the record is not sure to survive, and what
      is found beside the trashed file may be anything. */
  lemma RecordMayBeLost(dev: string -> int, fs: Fs, path: Path, held: Path, info: Path, text: Bytes, fs': Fs)
    requires Trashes(dev, fs, path, held, info, text, false, fs')
    requires info != path && info != held && dev(held.dir) == dev(info.dir)
    requires forall d | d in Snaps(fs) :: held !in d
    ensures !RecordSurvives(dev, fs', held, info, text)
    ensures forall found :: MayFind(dev, fs', held, info, found)
  {
    hide Trashes, RecordSurvives, MayFind;
    RecordSurvivesIff(dev, fs, path, held, info, text, false, fs');
  }

  lemma Whole(dev: string -> int, fs: Fs, held: Path, info: Path, h: Ino)
    requires h in fs.data && fs.data[h].synced && dev(held.dir) == dev(info.dir)
    requires forall d | d in Snaps(fs) && held in d :: info in d && d[info] == h
    ensures RecordSurvives(dev, fs, held, info, fs.data[h].bytes)
  {
    forall back: Fs | LosesPower(dev, fs, back) && held in back.names
      ensures Present(back, info) && Read(back, info).bytes == fs.data[h].bytes {
      assert FromMedium(dev, fs, back.names, dev(held.dir));
      var d :| d in Snaps(fs) && Agree(dev, back.names, d, dev(held.dir));
      assert held in d;
    }
  }

  lemma Torn(dev: string -> int, fs: Fs, held: Path, info: Path, found: Bytes)
    requires held in fs.names && Present(fs, info) && !Read(fs, info).synced
    ensures MayFind(dev, fs, held, info, found)
  {
    var h := fs.names[info];
    var data' := map i | i in fs.data :: Data(if i == h then found else fs.data[i].bytes, true);
    var back := Fs(fs.names, {}, data');
    forall v ensures FromMedium(dev, fs, back.names, v) {
      assert fs.names in Snaps(fs) && Agree(dev, back.names, fs.names, v);
    }
    assert LosesPower(dev, fs, back);
  }
}
