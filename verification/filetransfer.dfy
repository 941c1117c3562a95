/** recipe/filetransfer.php: the `sync_dirs` backups and transfers, and the
    `push:files` / `pull:files` groups that back up the destination before
    transferring. */
module FileTransfer {
  import opened Strings
  import opened Trace
  import opened Settings
  import opened Common

  /** `_<side>_upload_backup_<timestamp>.zip`. */
  function ArchiveName(side: Side, timestamp: string): string {
    "_" + SideName(side) + "_upload_backup_" + timestamp + ".zip"
  }

  /** The archive command of one directory on one side: `cd` into the
      directory, with a '/' appended unless it already ends in one, and
      `zip -r` everything into `<dump>/<archive name>`. */
  function Archive(side: Side, dump: string, dir: string, timestamp: string): Cmd {
    Zip(side, EnsureTrailingSlash(dir), dump + "/" + ArchiveName(side, timestamp))
  }

  /** The backup loop run over `entries` on one side into the dump folder
      `dump`; entry i reads clock value start + i. Each entry is zipped on
      that side from its own path, slash-terminated, into the dump folder
      under the name of its own clock reading. */
  function Backups(side: Side, dump: string, entries: seq<SyncDir>, clock: nat -> string, start: nat): (t: seq<Cmd>)
    ensures |t| == |entries|
    ensures forall i | 0 <= i < |t| ::
      (t[i].Zip? && t[i].side == side
       && t[i].dir == EnsureTrailingSlash(entries[i].On(side)) && EndsWithSlash(t[i].dir)
       && t[i].archive == dump + "/" + ArchiveName(side, clock(start + i)))
  {
    seq(|entries|, i requires 0 <= i < |entries| => Archive(side, dump, entries[i].On(side), clock(start + i)))
  }

  /** `backup:remote_files`: one archive per entry, of its server directory,
      into the server dump folder. */
  function BackupRemoteFiles(cfg: Config, w: World): (t: seq<Cmd>)
    ensures |t| == |cfg.syncDirs|
    ensures forall i | 0 <= i < |t| ::
      (t[i].Zip? && t[i].side == Remote
       && t[i].dir == EnsureTrailingSlash(cfg.syncDirs[i].server)
       && t[i].archive == RemoteDump(cfg) + "/" + ArchiveName(Remote, w.clock(i)))
  {
    Backups(Remote, RemoteDump(cfg), cfg.syncDirs, w.clock, 0)
  }

  /** `backup:local_files`: one archive per entry, of its local directory as
      configured (no cygpath conversion), into the local dump folder below
      the configured root. */
  function BackupLocalFiles(cfg: Config, w: World): (t: seq<Cmd>)
    ensures |t| == |cfg.syncDirs|
    ensures forall i | 0 <= i < |t| ::
      (t[i].Zip? && t[i].side == Local
       && t[i].dir == EnsureTrailingSlash(cfg.syncDirs[i].local)
       && t[i].archive == LocalDump(cfg) + "/" + ArchiveName(Local, w.clock(i)))
  {
    Backups(Local, LocalDump(cfg), cfg.syncDirs, w.clock, 0)
  }

  /** Which way the files go. */
  datatype Direction = Push | Pull

  /** The local path of one entry as the transfer uses it: under
      `is_windows_bash` the value of `$getUBPath`, which is the empty string
      (PHP null) for a path without a drive letter; otherwise the path as
      configured. */
  function LocalEnd(cfg: Config, w: World, localDir: string): (r: Converted)
    ensures var converted := cfg.isWindowsBash && IsDrivePath(localDir);
      && r.cmds == (if converted then [Cygpath(localDir)] else [])
      && r.path == (if !cfg.isWindowsBash then localDir else if converted then w.cygpath(localDir) else "")
  {
    if cfg.isWindowsBash then UbPath(localDir, w.cygpath) else Converted([], localDir)
  }

  /** `upload(local, server)` or `download(server, local)`. */
  function Transfer(d: Direction, localPath: string, serverPath: string): Cmd {
    match d
    case Push => Upload(localPath, serverPath)
    case Pull => Download(serverPath, localPath)
  }

  /** The transfer of one entry, between its server path and its local
      path as used. */
  function Moved(d: Direction, cfg: Config, w: World, e: SyncDir): Cmd {
    Transfer(d, LocalEnd(cfg, w, e.local).path, e.server)
  }

  /** One iteration of the transfer loop. */
  function SyncEntry(d: Direction, cfg: Config, w: World, e: SyncDir): seq<Cmd> {
    LocalEnd(cfg, w, e.local).cmds + [Moved(d, cfg, w, e)]
  }

  /** Whether c is a transfer in direction d. */
  predicate TransfersTo(d: Direction, c: Cmd) {
    match d
    case Push => c.Upload?
    case Pull => c.Download?
  }

  /** The transfer loop over `entries`: it only transfers files in its own
      direction and, under `is_windows_bash` only, converts paths. */
  function SyncAll(d: Direction, cfg: Config, w: World, entries: seq<SyncDir>): (t: seq<Cmd>)
    ensures forall c | c in t :: (c.Cygpath? && cfg.isWindowsBash) || TransfersTo(d, c)
    decreases |entries|
  {
    if entries == [] then []
    else SyncEntry(d, cfg, w, entries[0]) + SyncAll(d, cfg, w, entries[1..])
  }

  /** `push:files-no-bak`: uploads, and conversions under `is_windows_bash`;
      it never downloads, archives or removes anything. */
  function PushFilesNoBak(cfg: Config, w: World): (t: seq<Cmd>)
    ensures forall c | c in t :: c.Upload? || (c.Cygpath? && cfg.isWindowsBash)
  {
    SyncAll(Push, cfg, w, cfg.syncDirs)
  }

  /** `pull:files-no-bak`: downloads, and conversions under `is_windows_bash`;
      it never uploads, archives or removes anything. */
  function PullFilesNoBak(cfg: Config, w: World): (t: seq<Cmd>)
    ensures forall c | c in t :: c.Download? || (c.Cygpath? && cfg.isWindowsBash)
  {
    SyncAll(Pull, cfg, w, cfg.syncDirs)
  }

  /** `push:files`: `backup:remote_files`, then `push:files-no-bak`. The
      archives are exactly the first |sync_dirs| commands. */
  function PushFiles(cfg: Config, w: World): (t: seq<Cmd>)
    ensures |cfg.syncDirs| <= |t|
    ensures forall i | 0 <= i < |t| :: t[i].Zip? <==> i < |cfg.syncDirs|
  {
    ArchivesFirst(BackupRemoteFiles(cfg, w), PushFilesNoBak(cfg, w));
    BackupRemoteFiles(cfg, w) + PushFilesNoBak(cfg, w)
  }

  /** `pull:files`: `backup:local_files`, then `pull:files-no-bak`. The
      archives are exactly the first |sync_dirs| commands. */
  function PullFiles(cfg: Config, w: World): (t: seq<Cmd>)
    ensures |cfg.syncDirs| <= |t|
    ensures forall i | 0 <= i < |t| :: t[i].Zip? <==> i < |cfg.syncDirs|
  {
    ArchivesFirst(BackupLocalFiles(cfg, w), PullFilesNoBak(cfg, w));
    BackupLocalFiles(cfg, w) + PullFilesNoBak(cfg, w)
  }

  /** Archives followed by a part with none: the archives are exactly the
      leading commands. */
  lemma ArchivesFirst(backup: seq<Cmd>, sync: seq<Cmd>)
    requires forall i | 0 <= i < |backup| :: backup[i].Zip?
    requires forall c | c in sync :: !c.Zip?
    ensures forall i | 0 <= i < |backup + sync| :: (backup + sync)[i].Zip? <==> i < |backup|
  {
    forall i | |backup| <= i < |backup + sync|
      ensures !(backup + sync)[i].Zip?
    {
      assert (backup + sync)[i] == sync[i - |backup|];
      assert sync[i - |backup|] in sync;
    }
  }

  // ---------------------------------------------------------------------
  // Archive names

  /** On one side, two archive names coincide exactly when their timestamps do. */
  lemma ArchiveNameInjective(side: Side, a: string, b: string)
    ensures ArchiveName(side, a) == ArchiveName(side, b) <==> a == b
  {
    var p := "_" + SideName(side) + "_upload_backup_";
    assert ArchiveName(side, a) == p + a + ".zip";
    assert ArchiveName(side, b) == p + b + ".zip";
    if ArchiveName(side, a) == ArchiveName(side, b) {
      assert |a| == |b|;
      assert (p + a + ".zip")[|p|..|p| + |a|] == a;
      assert (p + b + ".zip")[|p|..|p| + |b|] == b;
    }
  }

  /** Archives of different sides never share a name. */
  lemma ArchiveNameSidesDiffer(a: string, b: string)
    ensures ArchiveName(Remote, a) != ArchiveName(Local, b)
  {
    assert ArchiveName(Remote, a)[1] == 'r';
    assert ArchiveName(Local, b)[1] == 'l';
  }

  /** Two entries of one backup run go into the same archive exactly when
      their clock readings coincide, that is when both fall within the same
      second; `zip -r` then adds the second directory to the first archive. */
  lemma BackupsShareArchive(side: Side, dump: string, entries: seq<SyncDir>, clock: nat -> string, start: nat, i: nat, j: nat)
    requires i < |entries| && j < |entries|
    ensures var t := Backups(side, dump, entries, clock, start);
      && t[i].Zip? && t[j].Zip?
      && (t[i].archive == t[j].archive <==> clock(start + i) == clock(start + j))
  {
    var t := Backups(side, dump, entries, clock, start);
    var p := dump + "/";
    var x := ArchiveName(side, clock(start + i));
    var y := ArchiveName(side, clock(start + j));
    if t[i].archive == t[j].archive {
      assert (p + x)[|p|..] == x;
      assert (p + y)[|p|..] == y;
    }
    ArchiveNameInjective(side, clock(start + i), clock(start + j));
  }

  /** A backup run holds archive commands only. */
  lemma BackupsPicks(side: Side, dump: string, entries: seq<SyncDir>, clock: nat -> string, start: nat, sel: Selector)
    ensures var t := Backups(side, dump, entries, clock, start);
      Filter(t, sel) == if sel == Archives then t else []
  {
    var t := Backups(side, dump, entries, clock, start);
    assert forall c | c in t :: c.Zip?;
    if sel == Archives {
      FilterAll(t, sel);
    } else {
      FilterNone(t, sel);
    }
  }

  // ---------------------------------------------------------------------
  // The transfer loop

  /** One iteration contributes its conversion, if any, and its transfer. */
  lemma SyncEntryPicks(d: Direction, cfg: Config, w: World, e: SyncDir, sel: Selector)
    ensures Filter(SyncEntry(d, cfg, w, e), sel)
         == (if sel.Conversions? then LocalEnd(cfg, w, e.local).cmds else [])
            + (if sel == Transfers then [Moved(d, cfg, w, e)] else [])
  {
  }

  /** The first iteration contributes exactly its own transfer. */
  lemma SyncAllTransfersStep(d: Direction, cfg: Config, w: World, entries: seq<SyncDir>)
    requires entries != []
    ensures Filter(SyncAll(d, cfg, w, entries), Transfers)
         == [Moved(d, cfg, w, entries[0])] + Filter(SyncAll(d, cfg, w, entries[1..]), Transfers)
  {
    FilterConcat(SyncEntry(d, cfg, w, entries[0]), SyncAll(d, cfg, w, entries[1..]), Transfers);
    SyncEntryPicks(d, cfg, w, entries[0], Transfers);
  }

  /** The transfers of the loop: exactly one per entry, in `sync_dirs` order,
      between the entry's server path and its local path as converted. */
  lemma {:induction false} SyncAllTransfers(d: Direction, cfg: Config, w: World, entries: seq<SyncDir>)
    ensures var r := Filter(SyncAll(d, cfg, w, entries), Transfers);
      && |r| == |entries|
      && forall i | 0 <= i < |r| :: r[i] == Moved(d, cfg, w, entries[i])
    decreases |entries|
  {
    if entries != [] {
      SyncAllTransfersStep(d, cfg, w, entries);
      SyncAllTransfers(d, cfg, w, entries[1..]);
      var r := Filter(SyncAll(d, cfg, w, entries), Transfers);
      forall i | 0 < i < |r|
        ensures r[i] == Moved(d, cfg, w, entries[i])
      {
        assert entries[i] == entries[1..][i - 1];
      }
    }
  }

  /** Without `is_windows_bash` the loop is nothing but the transfers of the
      configured paths, one per entry. */
  lemma {:induction false} SyncAllPlain(d: Direction, cfg: Config, w: World, entries: seq<SyncDir>)
    requires !cfg.isWindowsBash
    ensures var t := SyncAll(d, cfg, w, entries);
      && |t| == |entries|
      && forall i | 0 <= i < |t| :: t[i] == Transfer(d, entries[i].local, entries[i].server)
    decreases |entries|
  {
    if entries != [] {
      SyncAllPlain(d, cfg, w, entries[1..]);
      var t := SyncAll(d, cfg, w, entries);
      assert t == [Transfer(d, entries[0].local, entries[0].server)] + SyncAll(d, cfg, w, entries[1..]);
      forall i | 0 < i < |t|
        ensures t[i] == Transfer(d, entries[i].local, entries[i].server)
      {
        assert entries[i] == entries[1..][i - 1];
      }
    }
  }

  /** Under `is_windows_bash` an entry whose local path has no drive letter
      is transferred from or to the empty path, with no conversion. */
  lemma SyncEntryRejectedPath(d: Direction, cfg: Config, w: World, e: SyncDir)
    requires cfg.isWindowsBash && !IsDrivePath(e.local)
    ensures SyncEntry(d, cfg, w, e) == [Transfer(d, "", e.server)]
  {
  }

  // ---------------------------------------------------------------------
  // push:files and pull:files

  /** `push:files` archives every server directory into the server dump
      folder before the first transfer, and deletes nothing on either side. */
  lemma PushFilesBacksUpFirst(cfg: Config, w: World)
    ensures AllBefore(PushFiles(cfg, w), Archives, Transfers)
    ensures Filter(PushFiles(cfg, w), Archives) == BackupRemoteFiles(cfg, w)
    ensures Filter(PushFiles(cfg, w), Removals(Local)) == []
    ensures Filter(PushFiles(cfg, w), Removals(Remote)) == []
  {
    var b := BackupRemoteFiles(cfg, w);
    var t := PushFilesNoBak(cfg, w);
    assert forall c | c in b :: c.Zip?;
    GroupOrder(b, t);
    GroupPicks(b, t, Archives);
    GroupPicks(b, t, Removals(Local));
    GroupPicks(b, t, Removals(Remote));
  }

  /** `pull:files` archives every local directory into the local dump folder
      before the first transfer, and deletes nothing on either side. */
  lemma PullFilesBacksUpFirst(cfg: Config, w: World)
    ensures AllBefore(PullFiles(cfg, w), Archives, Transfers)
    ensures Filter(PullFiles(cfg, w), Archives) == BackupLocalFiles(cfg, w)
    ensures Filter(PullFiles(cfg, w), Removals(Local)) == []
    ensures Filter(PullFiles(cfg, w), Removals(Remote)) == []
  {
    var b := BackupLocalFiles(cfg, w);
    var t := PullFilesNoBak(cfg, w);
    assert forall c | c in b :: c.Zip?;
    GroupOrder(b, t);
    GroupPicks(b, t, Archives);
    GroupPicks(b, t, Removals(Local));
    GroupPicks(b, t, Removals(Remote));
  }

  /** In a backup followed by a transfer loop, every archive comes first. */
  lemma GroupOrder(backup: seq<Cmd>, sync: seq<Cmd>)
    requires forall c | c in backup :: c.Zip?
    requires forall c | c in sync :: c.Cygpath? || c.Upload? || c.Download?
    ensures AllBefore(backup + sync, Archives, Transfers)
  {
    AllBeforeConcat(backup, sync, Archives, Transfers);
  }

  /** In a backup followed by a transfer loop, the archives are the backup
      and nothing else is an archive or a removal. */
  lemma GroupPicks(backup: seq<Cmd>, sync: seq<Cmd>, sel: Selector)
    requires forall c | c in backup :: c.Zip?
    requires forall c | c in sync :: c.Cygpath? || c.Upload? || c.Download?
    requires sel.Archives? || sel.Removals?
    ensures Filter(backup + sync, sel) == if sel.Archives? then backup else []
  {
    FilterConcat(backup, sync, sel);
    FilterNone(sync, sel);
    if sel.Archives? {
      FilterAll(backup, sel);
    } else {
      FilterNone(backup, sel);
    }
  }

  /** The transfers of `push:files` are the uploads of the loop, one per
      entry, from the local path as converted to the server path. */
  lemma PushFilesTransfers(cfg: Config, w: World)
    ensures var r := Filter(PushFiles(cfg, w), Transfers);
      && |r| == |cfg.syncDirs|
      && forall i | 0 <= i < |r| ::
           r[i] == Upload(LocalEnd(cfg, w, cfg.syncDirs[i].local).path, cfg.syncDirs[i].server)
  {
    FilterConcat(BackupRemoteFiles(cfg, w), PushFilesNoBak(cfg, w), Transfers);
    BackupsPicks(Remote, RemoteDump(cfg), cfg.syncDirs, w.clock, 0, Transfers);
    assert Filter(PushFiles(cfg, w), Transfers) == Filter(PushFilesNoBak(cfg, w), Transfers);
    SyncAllTransfers(Push, cfg, w, cfg.syncDirs);
  }

  /** The transfers of `pull:files` are the downloads of the loop, one per
      entry, from the server path to the local path as converted. */
  lemma PullFilesTransfers(cfg: Config, w: World)
    ensures var r := Filter(PullFiles(cfg, w), Transfers);
      && |r| == |cfg.syncDirs|
      && forall i | 0 <= i < |r| ::
           r[i] == Download(cfg.syncDirs[i].server, LocalEnd(cfg, w, cfg.syncDirs[i].local).path)
  {
    FilterConcat(BackupLocalFiles(cfg, w), PullFilesNoBak(cfg, w), Transfers);
    BackupsPicks(Local, LocalDump(cfg), cfg.syncDirs, w.clock, 0, Transfers);
    assert Filter(PullFiles(cfg, w), Transfers) == Filter(PullFilesNoBak(cfg, w), Transfers);
    SyncAllTransfers(Pull, cfg, w, cfg.syncDirs);
  }
}
