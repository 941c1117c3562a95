/** recipe/bedrock_db.php: the `.env` lookups and the `pull:db` and
    `push:db` tasks, each as the trace of commands it issues. */
module BedrockDb {
  import opened Wrappers
  import opened Strings
  import opened Trace
  import opened Settings
  import opened Common
  import opened UrlDomain

  /** `$localUBRoot` in the db tasks: assigned from `$getUBPath` only under
      `is_windows_bash`; otherwise it is never assigned and interpolates as "". */
  function LocalUbRoot(cfg: Config, w: World): (r: Converted)
    ensures var converted := cfg.isWindowsBash && IsDrivePath(cfg.localBedrockRoot);
      && r.path == (if converted then w.cygpath(cfg.localBedrockRoot) else "")
      && r.cmds == (if converted then [Cygpath(cfg.localBedrockRoot)] else [])
  {
    if cfg.isWindowsBash then UbPath(cfg.localBedrockRoot, w.cygpath) else Converted([], "")
  }

  /** A usable WP_HOME: PHP's `!$url` rejects `false`, "" and "0". */
  predicate HasUrl(v: Option<string>) {
    v.Some? && v.value != "" && v.value != "0"
  }

  /** `$getLocalEnv`: the local WP_HOME, or nothing (PHP false). */
  function GetLocalEnv(w: World): (r: Option<string>)
    ensures r.Some? <==> HasUrl(w.localHome)
    ensures r.Some? ==> r == w.localHome
  {
    if HasUrl(w.localHome) then w.localHome else None
  }

  /** The commands a lookup issued and the URL it returned. */
  datatype Lookup = Lookup(cmds: seq<Cmd>, url: Option<string>)

  /** The temporary local copy of the server's .env file. */
  function RemoteEnvCopy(cfg: Config, w: World): string {
    LocalUbRoot(cfg, w).path + "/.env-remote"
  }

  /** The server's .env file. */
  function RemoteEnvFile(cfg: Config): string {
    cfg.deployPath + "/release/.env"
  }

  /** Download the server's .env to the temporary local copy, then remove
      the copy. */
  function FetchRemoteEnv(cfg: Config, w: World): seq<Cmd> {
    [Download(RemoteEnvFile(cfg), RemoteEnvCopy(cfg, w)), Remove(Local, RemoteEnvCopy(cfg, w))]
  }

  /** `$getRemoteEnv`: converts the local root, downloads the server's .env
      to a temporary local file, reads WP_HOME, removes the temporary file,
      and only then checks the URL. */
  function GetRemoteEnv(cfg: Config, w: World): (r: Lookup)
    ensures r.url.Some? <==> HasUrl(w.remoteHome)
    ensures r.url.Some? ==> r.url == w.remoteHome
    ensures |r.cmds| >= 2 && r.cmds[|r.cmds| - 1] == Remove(Local, RemoteEnvCopy(cfg, w))
  {
    Lookup(LocalUbRoot(cfg, w).cmds + FetchRemoteEnv(cfg, w),
           if HasUrl(w.remoteHome) then w.remoteHome else None)
  }

  /** The site URLs (local, server) when both are usable, and the commands
      spent looking them up. */
  datatype Urls = Urls(cmds: seq<Cmd>, pair: Option<(string, string)>)

  /** The lookups at the end of both db tasks: local first; the server's .env
      is fetched only when the local URL was found. */
  function LoadUrls(cfg: Config, w: World): (r: Urls)
    ensures r.pair.Some? <==> HasUrl(w.localHome) && HasUrl(w.remoteHome)
    ensures r.pair.Some? ==> r.pair.value == (w.localHome.value, w.remoteHome.value)
    ensures r.cmds == if HasUrl(w.localHome) then GetRemoteEnv(cfg, w).cmds else []
  {
    match GetLocalEnv(w)
    case None => Urls([], None)
    case Some(localUrl) =>
      var remote := GetRemoteEnv(cfg, w);
      match remote.url
      case None => Urls(remote.cmds, None)
      case Some(remoteUrl) => Urls(remote.cmds, Some((localUrl, remoteUrl)))
  }

  /** The two search-replace passes run against `wp`: the full URL of the
      side the database came from into the destination URL, then the bare
      domains; both scoped with --url to the origin's domain. */
  function RewriteUrls(wp: Wp, fromUrl: string, toUrl: string, skipThemes: bool): seq<Cmd> {
    var fromDomain := UrlToDomain(fromUrl);
    [ SearchReplace(wp, fromUrl, toUrl, fromDomain, skipThemes),
      SearchReplace(wp, fromDomain, UrlToDomain(toUrl), fromDomain, skipThemes) ]
  }

  /** `_db_<side>_<timestamp>.sql`. */
  function DbFileName(side: Side, timestamp: string): string {
    "_db_" + SideName(side) + "_" + timestamp + ".sql"
  }

  /** A file in the server dump folder. */
  function ServerDumpFile(cfg: Config, name: string): string {
    RemoteDump(cfg) + "/" + name
  }

  /** A file in the dump folder as the Vagrant machine sees it. */
  function VagrantDumpFile(cfg: Config, name: string): string {
    VagrantDump(cfg) + "/" + name
  }

  /** A file in the local dump folder, below `$localUBRoot`. */
  function LocalDumpFile(cfg: Config, w: World, name: string): string {
    LocalUbRoot(cfg, w).path + "/" + cfg.dumpFolder + "/" + name
  }

  // ---------------------------------------------------------------------
  // pull:db

  /** Export the server database into the server dump folder, download it
      into the dump folder below `$localUBRoot`, and remove it from the
      server. */
  function PullTransfer(cfg: Config, w: World): seq<Cmd> {
    var exportName := DbFileName(Remote, w.clock(0));
    [ DbExport(ServerWp(cfg), ServerDumpFile(cfg, exportName)),
      Download(ServerDumpFile(cfg, exportName), LocalDumpFile(cfg, w, exportName)),
      Remove(Remote, ServerDumpFile(cfg, exportName)) ]
  }

  /** Back up the Vagrant database, reset it, and import the file of the
      export's name from the Vagrant dump folder. That is the download only
      when `$localUBRoot` is the host folder Vagrant mounts at `vagrant_root`. */
  function PullInstall(cfg: Config, w: World): seq<Cmd> {
    [ DbExport(VagrantWp(cfg), VagrantDumpFile(cfg, DbFileName(Local, w.clock(1)))),
      DbReset(VagrantWp(cfg)),
      DbImport(VagrantWp(cfg), VagrantDumpFile(cfg, DbFileName(Remote, w.clock(0)))) ]
  }

  /** The URL rewrites of `pull:db`, issued only when both URLs were found:
      server URL into local URL, scoped to the server's domain. */
  function PullRewrite(cfg: Config, w: World): seq<Cmd> {
    match LoadUrls(cfg, w).pair
    case None => []
    case Some((localUrl, remoteUrl)) => RewriteUrls(VagrantWp(cfg), remoteUrl, localUrl, false)
  }

  /** `pull:db`: the server database replaces the Vagrant one. */
  function PullDb(cfg: Config, w: World): seq<Cmd> {
    LocalUbRoot(cfg, w).cmds + PullTransfer(cfg, w) + PullInstall(cfg, w)
    + LoadUrls(cfg, w).cmds + PullRewrite(cfg, w)
  }

  // ---------------------------------------------------------------------
  // push:db

  /** Export the Vagrant database into the Vagrant dump folder, then upload
      the file of that name from the dump folder below `$localUBRoot` into the
      server dump folder. */
  function PushTransfer(cfg: Config, w: World): seq<Cmd> {
    var exportName := DbFileName(Local, w.clock(0));
    [ DbExport(VagrantWp(cfg), VagrantDumpFile(cfg, exportName)),
      Upload(LocalDumpFile(cfg, w, exportName), ServerDumpFile(cfg, exportName)) ]
  }

  /** Back up the server database, reset it, and import the upload. */
  function PushInstall(cfg: Config, w: World): seq<Cmd> {
    [ DbExport(ServerWp(cfg), ServerDumpFile(cfg, DbFileName(Remote, w.clock(1)))),
      DbReset(ServerWp(cfg)),
      DbImport(ServerWp(cfg), ServerDumpFile(cfg, DbFileName(Local, w.clock(0)))) ]
  }

  /** The URL rewrites of `push:db`, issued only when both URLs were found:
      local URL into server URL, scoped to the local domain. */
  function PushRewrite(cfg: Config, w: World): seq<Cmd> {
    match LoadUrls(cfg, w).pair
    case None => []
    case Some((localUrl, remoteUrl)) => RewriteUrls(ServerWp(cfg), localUrl, remoteUrl, true)
  }

  /** The removal of the uploaded export, inside the same branch as the
      rewrites: an early return skips it. */
  function PushCleanup(cfg: Config, w: World): seq<Cmd> {
    match LoadUrls(cfg, w).pair
    case None => []
    case Some(_) => [Remove(Remote, ServerDumpFile(cfg, DbFileName(Local, w.clock(0))))]
  }

  /** `push:db`: the Vagrant database replaces the server one. */
  function PushDb(cfg: Config, w: World): seq<Cmd> {
    LocalUbRoot(cfg, w).cmds + PushTransfer(cfg, w) + PushInstall(cfg, w)
    + LoadUrls(cfg, w).cmds + (PushRewrite(cfg, w) + PushCleanup(cfg, w))
  }

  // ---------------------------------------------------------------------
  // Filtering the phases

  lemma FilterFive(a: seq<Cmd>, b: seq<Cmd>, c: seq<Cmd>, d: seq<Cmd>, e: seq<Cmd>, sel: Selector)
    ensures Filter(a + b + c + d + e, sel)
         == Filter(a, sel) + Filter(b, sel) + Filter(c, sel) + Filter(d, sel) + Filter(e, sel)
  {
    FilterConcat(a + b + c + d, e, sel);
    FilterConcat(a + b + c, d, sel);
    FilterConcat(a + b, c, sel);
    FilterConcat(a, b, sel);
  }

  /** Five phases of which sel picks only from the third and the fifth. */
  lemma FilterMiddleAndLast(a: seq<Cmd>, b: seq<Cmd>, c: seq<Cmd>, d: seq<Cmd>, e: seq<Cmd>, sel: Selector)
    requires Filter(a, sel) == [] && Filter(b, sel) == [] && Filter(d, sel) == []
    requires Filter(c, sel) == c
    ensures Filter(a + b + c + d + e, sel) == c + Filter(e, sel)
  {
    FilterFive(a, b, c, d, e, sel);
  }

  /** Five phases of which sel picks only from the second and the fourth. */
  lemma FilterSecondAndFourth(a: seq<Cmd>, b: seq<Cmd>, c: seq<Cmd>, d: seq<Cmd>, e: seq<Cmd>, sel: Selector)
    requires Filter(a, sel) == [] && Filter(c, sel) == [] && Filter(e, sel) == []
    ensures Filter(a + b + c + d + e, sel) == Filter(b, sel) + Filter(d, sel)
  {
    FilterFive(a, b, c, d, e, sel);
  }

  /** The cygpath call computing `$localUBRoot` is only picked as a conversion. */
  lemma FilterLocalUbRoot(cfg: Config, w: World, sel: Selector)
    ensures Filter(LocalUbRoot(cfg, w).cmds, sel) == if sel.Conversions? then LocalUbRoot(cfg, w).cmds else []
  {
  }

  lemma FetchRemoteEnvPicks(cfg: Config, w: World, sel: Selector)
    ensures Filter(FetchRemoteEnv(cfg, w), sel)
         == (if sel == Transfers then [Download(RemoteEnvFile(cfg), RemoteEnvCopy(cfg, w))] else [])
            + (if sel == Removals(Local) then [Remove(Local, RemoteEnvCopy(cfg, w))] else [])
  {
  }

  /** The lookups issue the conversion of the local root, the remote .env
      download and its cleanup, and only when the local URL was found. */
  lemma FilterLoadUrls(cfg: Config, w: World, sel: Selector)
    ensures Filter(LoadUrls(cfg, w).cmds, sel) ==
      if HasUrl(w.localHome) then
        (if sel.Conversions? then LocalUbRoot(cfg, w).cmds else [])
        + ((if sel == Transfers then [Download(RemoteEnvFile(cfg), RemoteEnvCopy(cfg, w))] else [])
           + (if sel == Removals(Local) then [Remove(Local, RemoteEnvCopy(cfg, w))] else []))
      else []
  {
    if HasUrl(w.localHome) {
      FilterConcat(LocalUbRoot(cfg, w).cmds, FetchRemoteEnv(cfg, w), sel);
      FetchRemoteEnvPicks(cfg, w, sel);
      FilterLocalUbRoot(cfg, w, sel);
    }
  }

  /** The only transfer of the lookups is the download of the server's .env. */
  lemma LoadUrlsTransfers(cfg: Config, w: World)
    ensures Filter(LoadUrls(cfg, w).cmds, Transfers)
         == if HasUrl(w.localHome) then [Download(RemoteEnvFile(cfg), RemoteEnvCopy(cfg, w))] else []
  {
    FilterLoadUrls(cfg, w, Transfers);
  }

  lemma PullTransferPicks(cfg: Config, w: World, sel: Selector)
    ensures var exportName := DbFileName(Remote, w.clock(0));
      Filter(PullTransfer(cfg, w), sel)
      == (if sel == Touching(ServerWp(cfg)) then [DbExport(ServerWp(cfg), ServerDumpFile(cfg, exportName))] else [])
         + (if sel == Transfers then [Download(ServerDumpFile(cfg, exportName), LocalDumpFile(cfg, w, exportName))] else [])
         + (if sel == Removals(Remote) then [Remove(Remote, ServerDumpFile(cfg, exportName))] else [])
  {
    FilterShort(PullTransfer(cfg, w), sel);
  }

  lemma PullInstallPicks(cfg: Config, w: World, sel: Selector)
    ensures Filter(PullInstall(cfg, w), sel)
         == if sel == Touching(VagrantWp(cfg)) then PullInstall(cfg, w) else []
  {
    FilterShort(PullInstall(cfg, w), sel);
  }

  /** The two rewrite passes are picked as rewrites and as commands on `wp`. */
  lemma RewriteUrlsPicks(wp: Wp, fromUrl: string, toUrl: string, skipThemes: bool, sel: Selector)
    ensures Filter(RewriteUrls(wp, fromUrl, toUrl, skipThemes), sel)
         == if sel == Rewrites || sel == Touching(wp) then RewriteUrls(wp, fromUrl, toUrl, skipThemes) else []
  {
    FilterShort(RewriteUrls(wp, fromUrl, toUrl, skipThemes), sel);
  }

  /** The tail of `pull:db` holds only rewrites of the Vagrant database. */
  lemma PullRewritePicks(cfg: Config, w: World, sel: Selector)
    ensures Filter(PullRewrite(cfg, w), sel)
         == if sel == Rewrites || sel == Touching(VagrantWp(cfg)) then PullRewrite(cfg, w) else []
  {
    match LoadUrls(cfg, w).pair
    case None =>
    case Some((localUrl, remoteUrl)) => RewriteUrlsPicks(VagrantWp(cfg), remoteUrl, localUrl, false, sel);
  }

  lemma PushTransferPicks(cfg: Config, w: World, sel: Selector)
    ensures var exportName := DbFileName(Local, w.clock(0));
      Filter(PushTransfer(cfg, w), sel)
      == (if sel == Touching(VagrantWp(cfg)) then [DbExport(VagrantWp(cfg), VagrantDumpFile(cfg, exportName))] else [])
         + (if sel == Transfers then [Upload(LocalDumpFile(cfg, w, exportName), ServerDumpFile(cfg, exportName))] else [])
  {
  }

  lemma PushInstallPicks(cfg: Config, w: World, sel: Selector)
    ensures Filter(PushInstall(cfg, w), sel)
         == if sel == Touching(ServerWp(cfg)) then PushInstall(cfg, w) else []
  {
    FilterShort(PushInstall(cfg, w), sel);
  }

  /** The rewrites of `push:db` are picked as rewrites and as commands on
      the server database. */
  lemma PushRewritePicks(cfg: Config, w: World, sel: Selector)
    ensures Filter(PushRewrite(cfg, w), sel)
         == if sel == Rewrites || sel == Touching(ServerWp(cfg)) then PushRewrite(cfg, w) else []
  {
    match LoadUrls(cfg, w).pair
    case None =>
    case Some((localUrl, remoteUrl)) => RewriteUrlsPicks(ServerWp(cfg), localUrl, remoteUrl, true, sel);
  }

  lemma PushCleanupPicks(cfg: Config, w: World, sel: Selector)
    ensures Filter(PushCleanup(cfg, w), sel)
         == if sel == Removals(Remote) then PushCleanup(cfg, w) else []
  {
  }

  lemma PullDbFilter(cfg: Config, w: World, sel: Selector)
    ensures Filter(PullDb(cfg, w), sel)
         == Filter(LocalUbRoot(cfg, w).cmds, sel)
            + Filter(PullTransfer(cfg, w), sel) + Filter(PullInstall(cfg, w), sel)
            + Filter(LoadUrls(cfg, w).cmds, sel) + Filter(PullRewrite(cfg, w), sel)
  {
    FilterFive(LocalUbRoot(cfg, w).cmds, PullTransfer(cfg, w), PullInstall(cfg, w),
               LoadUrls(cfg, w).cmds, PullRewrite(cfg, w), sel);
  }

  lemma PushDbFilter(cfg: Config, w: World, sel: Selector)
    ensures Filter(PushDb(cfg, w), sel)
         == Filter(LocalUbRoot(cfg, w).cmds, sel)
            + Filter(PushTransfer(cfg, w), sel) + Filter(PushInstall(cfg, w), sel)
            + Filter(LoadUrls(cfg, w).cmds, sel) + Filter(PushRewrite(cfg, w) + PushCleanup(cfg, w), sel)
  {
    FilterFive(LocalUbRoot(cfg, w).cmds, PushTransfer(cfg, w), PushInstall(cfg, w),
               LoadUrls(cfg, w).cmds, PushRewrite(cfg, w) + PushCleanup(cfg, w), sel);
    assert PushDb(cfg, w) == LocalUbRoot(cfg, w).cmds + PushTransfer(cfg, w) + PushInstall(cfg, w)
      + LoadUrls(cfg, w).cmds + (PushRewrite(cfg, w) + PushCleanup(cfg, w));
  }

  /** All five phases of `pull:db` filtered by sel. */
  lemma PullDbPieces(cfg: Config, w: World, sel: Selector)
    ensures var exportName := DbFileName(Remote, w.clock(0));
      Filter(PullDb(cfg, w), sel)
      == (if sel.Conversions? then LocalUbRoot(cfg, w).cmds else [])
         + ((if sel == Touching(ServerWp(cfg)) then [DbExport(ServerWp(cfg), ServerDumpFile(cfg, exportName))] else [])
            + (if sel == Transfers then [Download(ServerDumpFile(cfg, exportName), LocalDumpFile(cfg, w, exportName))] else [])
            + (if sel == Removals(Remote) then [Remove(Remote, ServerDumpFile(cfg, exportName))] else []))
         + (if sel == Touching(VagrantWp(cfg)) then PullInstall(cfg, w) else [])
         + Filter(LoadUrls(cfg, w).cmds, sel)
         + (if sel == Rewrites || sel == Touching(VagrantWp(cfg)) then PullRewrite(cfg, w) else [])
  {
    PullDbFilter(cfg, w, sel);
    FilterLocalUbRoot(cfg, w, sel);
    PullTransferPicks(cfg, w, sel);
    PullInstallPicks(cfg, w, sel);
    PullRewritePicks(cfg, w, sel);
  }

  /** All six phases of `push:db` filtered by sel. */
  lemma PushDbPieces(cfg: Config, w: World, sel: Selector)
    ensures var exportName := DbFileName(Local, w.clock(0));
      Filter(PushDb(cfg, w), sel)
      == (if sel.Conversions? then LocalUbRoot(cfg, w).cmds else [])
         + ((if sel == Touching(VagrantWp(cfg)) then [DbExport(VagrantWp(cfg), VagrantDumpFile(cfg, exportName))] else [])
            + (if sel == Transfers then [Upload(LocalDumpFile(cfg, w, exportName), ServerDumpFile(cfg, exportName))] else []))
         + (if sel == Touching(ServerWp(cfg)) then PushInstall(cfg, w) else [])
         + Filter(LoadUrls(cfg, w).cmds, sel)
         + ((if sel == Rewrites || sel == Touching(ServerWp(cfg)) then PushRewrite(cfg, w) else [])
            + (if sel == Removals(Remote) then PushCleanup(cfg, w) else []))
  {
    PushDbFilter(cfg, w, sel);
    FilterLocalUbRoot(cfg, w, sel);
    PushTransferPicks(cfg, w, sel);
    PushInstallPicks(cfg, w, sel);
    FilterConcat(PushRewrite(cfg, w), PushCleanup(cfg, w), sel);
    PushRewritePicks(cfg, w, sel);
    PushCleanupPicks(cfg, w, sel);
  }

  // ---------------------------------------------------------------------
  // Properties of pull:db

  /** The database `pull:db` reads from sees one command: the export named
      `_db_remote_<timestamp>.sql` in the server dump folder. */
  lemma PullDbSource(cfg: Config, w: World)
    ensures Filter(PullDb(cfg, w), Touching(ServerWp(cfg)))
         == [DbExport(ServerWp(cfg), ServerDumpFile(cfg, DbFileName(Remote, w.clock(0))))]
  {
    PullDbPieces(cfg, w, Touching(ServerWp(cfg)));
    FilterLoadUrls(cfg, w, Touching(ServerWp(cfg)));
  }

  lemma PullDbRewritesAreTail(cfg: Config, w: World)
    ensures Filter(PullDb(cfg, w), Rewrites) == PullRewrite(cfg, w)
  {
    PullDbPieces(cfg, w, Rewrites);
    FilterLoadUrls(cfg, w, Rewrites);
  }

  /** `pull:db` rewrites nothing unless both URLs are usable; then it issues
      exactly two rewrites on the Vagrant database, the full server URL into
      the local URL before the server domain into the local domain, both
      scoped to the server's domain. */
  lemma PullDbRewrites(cfg: Config, w: World)
    ensures Filter(PullDb(cfg, w), Rewrites) ==
      if HasUrl(w.localHome) && HasUrl(w.remoteHome) then
        var from := w.remoteHome.value;
        var to := w.localHome.value;
        [ SearchReplace(VagrantWp(cfg), from, to, UrlToDomain(from), false),
          SearchReplace(VagrantWp(cfg), UrlToDomain(from), UrlToDomain(to), UrlToDomain(from), false) ]
      else []
  {
    PullDbRewritesAreTail(cfg, w);
  }

  /** After its transfer phase, `pull:db` never touches the server database. */
  lemma PullDbLeavesServer(cfg: Config, w: World)
    ensures forall c | c in PullInstall(cfg, w) + LoadUrls(cfg, w).cmds + PullRewrite(cfg, w)
      :: !Selects(Touching(ServerWp(cfg)), c)
  {
    PullDbRestFiltersNothing(cfg, w);
    FilterEmpty(PullInstall(cfg, w) + LoadUrls(cfg, w).cmds + PullRewrite(cfg, w), Touching(ServerWp(cfg)));
  }

  lemma PullDbRestFiltersNothing(cfg: Config, w: World)
    ensures Filter(PullInstall(cfg, w) + LoadUrls(cfg, w).cmds + PullRewrite(cfg, w), Touching(ServerWp(cfg))) == []
  {
    var sel := Touching(ServerWp(cfg));
    FilterConcat(PullInstall(cfg, w) + LoadUrls(cfg, w).cmds, PullRewrite(cfg, w), sel);
    FilterConcat(PullInstall(cfg, w), LoadUrls(cfg, w).cmds, sel);
    PullInstallPicks(cfg, w, sel);
    FilterLoadUrls(cfg, w, sel);
    PullRewritePicks(cfg, w, sel);
  }

  /** `pull:db` cut after the server export and after the removal of the
      export. */
  lemma PullDbSplit(cfg: Config, w: World)
    ensures var t := PullDb(cfg, w);
      var a := LocalUbRoot(cfg, w).cmds;
      var b := PullTransfer(cfg, w);
      && |a| + 3 <= |t|
      && t[|a| + 1] == b[1] && t[|a| + 2] == b[2]
      && t[|a| + 1..] == b[1..] + (PullInstall(cfg, w) + LoadUrls(cfg, w).cmds + PullRewrite(cfg, w))
      && t[..|a| + 3] == a + b
  {
    CutSecond(LocalUbRoot(cfg, w).cmds, PullTransfer(cfg, w), PullInstall(cfg, w),
              LoadUrls(cfg, w).cmds, PullRewrite(cfg, w), 1);
  }

  /** Across the phases of `pull:db`: the server export comes first, then
      the download of the export and its removal from the server, and only
      then anything on the Vagrant database. */
  lemma PullDbOrder(cfg: Config, w: World)
    ensures var t := PullDb(cfg, w);
      var i := |LocalUbRoot(cfg, w).cmds| + 1;
      var exportAbs := ServerDumpFile(cfg, DbFileName(Remote, w.clock(0)));
      && i + 1 < |t|
      && t[i] == Download(exportAbs, LocalDumpFile(cfg, w, DbFileName(Remote, w.clock(0))))
      && t[i + 1] == Remove(Remote, exportAbs)
      && (forall j | 0 <= j < |t| && Selects(Touching(ServerWp(cfg)), t[j]) :: j < i)
      && (forall j | 0 <= j < |t| && Selects(Touching(VagrantWp(cfg)), t[j]) :: i + 1 < j)
  {
    PullDbSplit(cfg, w);
    PullDbServerFirst(cfg, w);
    PullDbVagrantAfter(cfg, w);
  }

  /** Nothing from the download on touches the server database. */
  lemma PullDbServerFirst(cfg: Config, w: World)
    ensures var t := PullDb(cfg, w);
      forall j | 0 <= j < |t| && Selects(Touching(ServerWp(cfg)), t[j]) :: j < |LocalUbRoot(cfg, w).cmds| + 1
  {
    var t := PullDb(cfg, w);
    var k := |LocalUbRoot(cfg, w).cmds| + 1;
    PullDbSplit(cfg, w);
    PullDbLeavesServer(cfg, w);
    assert forall c | c in t[k..] :: !Selects(Touching(ServerWp(cfg)), c);
    PickedOnlyBefore(t, Touching(ServerWp(cfg)), k);
  }

  /** Nothing up to the removal of the export touches the Vagrant database. */
  lemma PullDbVagrantAfter(cfg: Config, w: World)
    ensures var t := PullDb(cfg, w);
      forall j | 0 <= j < |t| && Selects(Touching(VagrantWp(cfg)), t[j]) :: |LocalUbRoot(cfg, w).cmds| + 3 <= j
  {
    var t := PullDb(cfg, w);
    var k := |LocalUbRoot(cfg, w).cmds| + 3;
    PullDbSplit(cfg, w);
    assert forall c | c in t[..k] :: !Selects(Touching(VagrantWp(cfg)), c);
    PickedOnlyFrom(t, Touching(VagrantWp(cfg)), k);
  }

  /** The Vagrant database `pull:db` writes to is first backed up to
      `_db_local_<timestamp>.sql`, then reset, then loaded from the Vagrant
      dump folder under the name the download used;
      the rewrites, if any, come after the import. All of this happens after
      the server export and after the download of the export. */
  lemma PullDbDestination(cfg: Config, w: World)
    ensures Filter(PullDb(cfg, w), Touching(VagrantWp(cfg)))
         == [ DbExport(VagrantWp(cfg), VagrantDumpFile(cfg, DbFileName(Local, w.clock(1)))),
              DbReset(VagrantWp(cfg)),
              DbImport(VagrantWp(cfg), VagrantDumpFile(cfg, DbFileName(Remote, w.clock(0)))) ]
            + Filter(PullDb(cfg, w), Rewrites)
    ensures PullDbInstallsAfterTransfer(cfg, w)
  {
    PullDbInstallSteps(cfg, w);
    PullDbSourceBeforeDestination(cfg, w);
  }

  /** The phases before the install phase leave the destination database alone. */
  lemma PullDbDestinationUntouched(cfg: Config, w: World)
    ensures Filter(LocalUbRoot(cfg, w).cmds, Touching(VagrantWp(cfg))) == []
    ensures Filter(PullTransfer(cfg, w), Touching(VagrantWp(cfg))) == []
    ensures Filter(LoadUrls(cfg, w).cmds, Touching(VagrantWp(cfg))) == []
  {
    FilterLocalUbRoot(cfg, w, Touching(VagrantWp(cfg)));
    PullTransferPicks(cfg, w, Touching(VagrantWp(cfg)));
    FilterLoadUrls(cfg, w, Touching(VagrantWp(cfg)));
  }

  /** The last phase touches the destination database only to rewrite it. */
  lemma PullDbDestinationTail(cfg: Config, w: World)
    ensures Filter(PullRewrite(cfg, w), Touching(VagrantWp(cfg))) == PullRewrite(cfg, w)
  {
    var sel := Touching(VagrantWp(cfg));
    PullRewritePicks(cfg, w, sel);
  }

  /** The destination database sees the install phase and the rewrites. */
  lemma PullDbTouchingDestination(cfg: Config, w: World)
    ensures Filter(PullDb(cfg, w), Touching(VagrantWp(cfg))) == PullInstall(cfg, w) + PullRewrite(cfg, w)
  {
    PullDbDestinationUntouched(cfg, w);
    PullDbDestinationTail(cfg, w);
    PullInstallPicks(cfg, w, Touching(VagrantWp(cfg)));
    FilterMiddleAndLast(LocalUbRoot(cfg, w).cmds, PullTransfer(cfg, w), PullInstall(cfg, w),
                        LoadUrls(cfg, w).cmds, PullRewrite(cfg, w), Touching(VagrantWp(cfg)));
  }

  /** The commands on the destination database, in order. */
  lemma PullDbInstallSteps(cfg: Config, w: World)
    ensures Filter(PullDb(cfg, w), Touching(VagrantWp(cfg)))
         == [ DbExport(VagrantWp(cfg), VagrantDumpFile(cfg, DbFileName(Local, w.clock(1)))),
              DbReset(VagrantWp(cfg)),
              DbImport(VagrantWp(cfg), VagrantDumpFile(cfg, DbFileName(Remote, w.clock(0)))) ]
            + Filter(PullDb(cfg, w), Rewrites)
  {
    PullDbTouchingDestination(cfg, w);
    PullDbRewritesAreTail(cfg, w);
  }

  /** Every command on the Vagrant database follows every command on the
      server database and the download of the server export. */
  predicate PullDbInstallsAfterTransfer(cfg: Config, w: World) {
    var t := PullDb(cfg, w);
    && AllBefore(t, Touching(ServerWp(cfg)), Touching(VagrantWp(cfg)))
    && exists i | 0 <= i < |t| ::
         && t[i].Download? && t[i].src == ServerDumpFile(cfg, DbFileName(Remote, w.clock(0)))
         && forall j | 0 <= j < |t| && Selects(Touching(VagrantWp(cfg)), t[j]) :: i < j
  }

  /** `pull:db` exports and downloads the server database before it backs
      up, resets, imports or rewrites the Vagrant one. */
  lemma PullDbSourceBeforeDestination(cfg: Config, w: World)
    ensures PullDbInstallsAfterTransfer(cfg, w)
  {
    PullDbOrder(cfg, w);
    var t := PullDb(cfg, w);
    var i := |LocalUbRoot(cfg, w).cmds| + 1;
    assert t[i].Download?;
  }

  /** `pull:db` transfers the export from the server dump folder to the
      local dump folder, then, only if the local URL was found, fetches the
      server's .env into a temporary local copy. */
  lemma PullDbTransfers(cfg: Config, w: World)
    ensures var exportName := DbFileName(Remote, w.clock(0));
      Filter(PullDb(cfg, w), Transfers)
      == [Download(ServerDumpFile(cfg, exportName), LocalDumpFile(cfg, w, exportName))]
         + (if HasUrl(w.localHome) then [Download(RemoteEnvFile(cfg), RemoteEnvCopy(cfg, w))] else [])
  {
    PullDbTransfersOnlyTwice(cfg, w);
    PullTransferPicks(cfg, w, Transfers);
    LoadUrlsTransfers(cfg, w);
    FilterSecondAndFourth(LocalUbRoot(cfg, w).cmds, PullTransfer(cfg, w), PullInstall(cfg, w),
                          LoadUrls(cfg, w).cmds, PullRewrite(cfg, w), Transfers);
  }

  /** Only the transfer phase and the lookups move files. */
  lemma PullDbTransfersOnlyTwice(cfg: Config, w: World)
    ensures Filter(LocalUbRoot(cfg, w).cmds, Transfers) == []
    ensures Filter(PullInstall(cfg, w), Transfers) == []
    ensures Filter(PullRewrite(cfg, w), Transfers) == []
  {
    FilterLocalUbRoot(cfg, w, Transfers);
    PullInstallPicks(cfg, w, Transfers);
    PullRewritePicks(cfg, w, Transfers);
  }

  /** `pull:db` removes exactly one file on the server: the export. */
  lemma PullDbRemovesExport(cfg: Config, w: World)
    ensures Filter(PullDb(cfg, w), Removals(Remote))
         == [Remove(Remote, ServerDumpFile(cfg, DbFileName(Remote, w.clock(0))))]
  {
    PullDbPieces(cfg, w, Removals(Remote));
    FilterLoadUrls(cfg, w, Removals(Remote));
  }

  /** The export is removed from the server right after it was downloaded. */
  lemma PullDbRemovesAfterDownload(cfg: Config, w: World)
    ensures var exportAbs := ServerDumpFile(cfg, DbFileName(Remote, w.clock(0)));
      var t := PullDb(cfg, w);
      exists i | 0 <= i < |t| - 1 :: t[i].Download? && t[i].src == exportAbs && t[i + 1] == Remove(Remote, exportAbs)
  {
    var t := PullDb(cfg, w);
    var i := |LocalUbRoot(cfg, w).cmds| + 1;
    assert t[i] == PullTransfer(cfg, w)[1];
    assert t[i + 1] == PullTransfer(cfg, w)[2];
  }

  /** Locally, `pull:db` removes only the temporary .env copy, and does so
      whenever it fetched one, whatever that file held. */
  lemma PullDbRemovesEnvCopy(cfg: Config, w: World)
    ensures Filter(PullDb(cfg, w), Removals(Local))
         == if HasUrl(w.localHome) then [Remove(Local, RemoteEnvCopy(cfg, w))] else []
  {
    PullDbPieces(cfg, w, Removals(Local));
    FilterLoadUrls(cfg, w, Removals(Local));
  }

  /** Under `is_windows_bash` with an accepted root, `pull:db` converts the
      local root once for the dump path and once more for the remote .env
      copy when the local URL was found; otherwise it converts nothing. */
  lemma PullDbConversions(cfg: Config, w: World)
    ensures Filter(PullDb(cfg, w), Conversions) ==
      if cfg.isWindowsBash && IsDrivePath(cfg.localBedrockRoot) then
        [Cygpath(cfg.localBedrockRoot)] + (if HasUrl(w.localHome) then [Cygpath(cfg.localBedrockRoot)] else [])
      else []
  {
    PullDbPieces(cfg, w, Conversions);
    FilterLoadUrls(cfg, w, Conversions);
  }

  // ---------------------------------------------------------------------
  // Properties of push:db

  /** The Vagrant database `push:db` reads from sees one command: the export
      named `_db_local_<timestamp>.sql` in the Vagrant dump folder. */
  lemma PushDbSource(cfg: Config, w: World)
    ensures Filter(PushDb(cfg, w), Touching(VagrantWp(cfg)))
         == [DbExport(VagrantWp(cfg), VagrantDumpFile(cfg, DbFileName(Local, w.clock(0))))]
  {
    PushDbPieces(cfg, w, Touching(VagrantWp(cfg)));
    FilterLoadUrls(cfg, w, Touching(VagrantWp(cfg)));
  }

  lemma PushDbRewritesAreTail(cfg: Config, w: World)
    ensures Filter(PushDb(cfg, w), Rewrites) == PushRewrite(cfg, w)
  {
    PushDbPieces(cfg, w, Rewrites);
    FilterLoadUrls(cfg, w, Rewrites);
  }

  /** `push:db` rewrites nothing unless both URLs are usable; then it issues
      exactly two rewrites on the server database, the full local URL into
      the server URL before the local domain into the server domain, both
      with --skip-themes and scoped to the local domain. */
  lemma PushDbRewrites(cfg: Config, w: World)
    ensures Filter(PushDb(cfg, w), Rewrites) ==
      if HasUrl(w.localHome) && HasUrl(w.remoteHome) then
        var from := w.localHome.value;
        var to := w.remoteHome.value;
        [ SearchReplace(ServerWp(cfg), from, to, UrlToDomain(from), true),
          SearchReplace(ServerWp(cfg), UrlToDomain(from), UrlToDomain(to), UrlToDomain(from), true) ]
      else []
  {
    PushDbRewritesAreTail(cfg, w);
  }

  /** After its transfer phase, `push:db` never touches the Vagrant database. */
  lemma PushDbLeavesVagrant(cfg: Config, w: World)
    ensures forall c | c in PushInstall(cfg, w) + LoadUrls(cfg, w).cmds + (PushRewrite(cfg, w) + PushCleanup(cfg, w))
      :: !Selects(Touching(VagrantWp(cfg)), c)
  {
    PushDbRestFiltersNothing(cfg, w);
    FilterEmpty(PushInstall(cfg, w) + LoadUrls(cfg, w).cmds + (PushRewrite(cfg, w) + PushCleanup(cfg, w)), Touching(VagrantWp(cfg)));
  }

  lemma PushDbRestFiltersNothing(cfg: Config, w: World)
    ensures Filter(PushInstall(cfg, w) + LoadUrls(cfg, w).cmds + (PushRewrite(cfg, w) + PushCleanup(cfg, w)), Touching(VagrantWp(cfg))) == []
  {
    var sel := Touching(VagrantWp(cfg));
    FilterConcat(PushInstall(cfg, w) + LoadUrls(cfg, w).cmds, (PushRewrite(cfg, w) + PushCleanup(cfg, w)), sel);
    FilterConcat(PushInstall(cfg, w), LoadUrls(cfg, w).cmds, sel);
    PushInstallPicks(cfg, w, sel);
    FilterLoadUrls(cfg, w, sel);
    FilterConcat(PushRewrite(cfg, w), PushCleanup(cfg, w), sel);
    PushRewritePicks(cfg, w, sel);
    PushCleanupPicks(cfg, w, sel);
  }

  /** `push:db` cut after the Vagrant export and after the upload. */
  lemma PushDbSplit(cfg: Config, w: World)
    ensures var t := PushDb(cfg, w);
      var a := LocalUbRoot(cfg, w).cmds;
      var b := PushTransfer(cfg, w);
      && |a| + 2 <= |t|
      && t[|a| + 1] == b[1]
      && t[|a| + 1..] == b[1..] + (PushInstall(cfg, w) + LoadUrls(cfg, w).cmds + (PushRewrite(cfg, w) + PushCleanup(cfg, w)))
      && t[..|a| + 2] == a + b
  {
    CutSecond(LocalUbRoot(cfg, w).cmds, PushTransfer(cfg, w), PushInstall(cfg, w),
              LoadUrls(cfg, w).cmds, PushRewrite(cfg, w) + PushCleanup(cfg, w), 1);
  }

  /** Across the phases of `push:db`: the Vagrant export comes first, then
      the upload of the export, and only then anything on the server
      database. */
  lemma PushDbOrder(cfg: Config, w: World)
    ensures var t := PushDb(cfg, w);
      var i := |LocalUbRoot(cfg, w).cmds| + 1;
      var exportName := DbFileName(Local, w.clock(0));
      && i < |t|
      && t[i] == Upload(LocalDumpFile(cfg, w, exportName), ServerDumpFile(cfg, exportName))
      && (forall j | 0 <= j < |t| && Selects(Touching(VagrantWp(cfg)), t[j]) :: j < i)
      && (forall j | 0 <= j < |t| && Selects(Touching(ServerWp(cfg)), t[j]) :: i < j)
  {
    PushDbSplit(cfg, w);
    PushDbVagrantFirst(cfg, w);
    PushDbServerAfter(cfg, w);
  }

  /** Nothing from the upload on touches the Vagrant database. */
  lemma PushDbVagrantFirst(cfg: Config, w: World)
    ensures var t := PushDb(cfg, w);
      forall j | 0 <= j < |t| && Selects(Touching(VagrantWp(cfg)), t[j]) :: j < |LocalUbRoot(cfg, w).cmds| + 1
  {
    var t := PushDb(cfg, w);
    var k := |LocalUbRoot(cfg, w).cmds| + 1;
    PushDbSplit(cfg, w);
    PushDbLeavesVagrant(cfg, w);
    assert forall c | c in t[k..] :: !Selects(Touching(VagrantWp(cfg)), c);
    PickedOnlyBefore(t, Touching(VagrantWp(cfg)), k);
  }

  /** Nothing up to the upload touches the server database. */
  lemma PushDbServerAfter(cfg: Config, w: World)
    ensures var t := PushDb(cfg, w);
      forall j | 0 <= j < |t| && Selects(Touching(ServerWp(cfg)), t[j]) :: |LocalUbRoot(cfg, w).cmds| + 1 < j
  {
    var t := PushDb(cfg, w);
    var k := |LocalUbRoot(cfg, w).cmds| + 2;
    PushDbSplit(cfg, w);
    assert forall c | c in t[..k] :: !Selects(Touching(ServerWp(cfg)), c);
    PickedOnlyFrom(t, Touching(ServerWp(cfg)), k);
  }

  /** The server database `push:db` writes to is first backed up to
      `_db_remote_<timestamp>.sql`, then reset, then loaded from the upload;
      the rewrites, if any, come after the import. All of this happens after
      the Vagrant export and after the upload of the export. */
  lemma PushDbDestination(cfg: Config, w: World)
    ensures Filter(PushDb(cfg, w), Touching(ServerWp(cfg)))
         == [ DbExport(ServerWp(cfg), ServerDumpFile(cfg, DbFileName(Remote, w.clock(1)))),
              DbReset(ServerWp(cfg)),
              DbImport(ServerWp(cfg), ServerDumpFile(cfg, DbFileName(Local, w.clock(0)))) ]
            + Filter(PushDb(cfg, w), Rewrites)
    ensures PushDbInstallsAfterTransfer(cfg, w)
  {
    PushDbInstallSteps(cfg, w);
    PushDbSourceBeforeDestination(cfg, w);
  }

  /** The phases before the install phase leave the destination database alone. */
  lemma PushDbDestinationUntouched(cfg: Config, w: World)
    ensures Filter(LocalUbRoot(cfg, w).cmds, Touching(ServerWp(cfg))) == []
    ensures Filter(PushTransfer(cfg, w), Touching(ServerWp(cfg))) == []
    ensures Filter(LoadUrls(cfg, w).cmds, Touching(ServerWp(cfg))) == []
  {
    FilterLocalUbRoot(cfg, w, Touching(ServerWp(cfg)));
    PushTransferPicks(cfg, w, Touching(ServerWp(cfg)));
    FilterLoadUrls(cfg, w, Touching(ServerWp(cfg)));
  }

  /** The last phase touches the destination database only to rewrite it. */
  lemma PushDbDestinationTail(cfg: Config, w: World)
    ensures Filter(PushRewrite(cfg, w) + PushCleanup(cfg, w), Touching(ServerWp(cfg))) == PushRewrite(cfg, w)
  {
    var sel := Touching(ServerWp(cfg));
    FilterConcat(PushRewrite(cfg, w), PushCleanup(cfg, w), sel);
    PushRewritePicks(cfg, w, sel);
    PushCleanupPicks(cfg, w, sel);
  }

  /** The destination database sees the install phase and the rewrites. */
  lemma PushDbTouchingDestination(cfg: Config, w: World)
    ensures Filter(PushDb(cfg, w), Touching(ServerWp(cfg))) == PushInstall(cfg, w) + PushRewrite(cfg, w)
  {
    PushDbDestinationUntouched(cfg, w);
    PushDbDestinationTail(cfg, w);
    PushInstallPicks(cfg, w, Touching(ServerWp(cfg)));
    FilterMiddleAndLast(LocalUbRoot(cfg, w).cmds, PushTransfer(cfg, w), PushInstall(cfg, w),
                        LoadUrls(cfg, w).cmds, PushRewrite(cfg, w) + PushCleanup(cfg, w), Touching(ServerWp(cfg)));
  }

  /** The commands on the destination database, in order. */
  lemma PushDbInstallSteps(cfg: Config, w: World)
    ensures Filter(PushDb(cfg, w), Touching(ServerWp(cfg)))
         == [ DbExport(ServerWp(cfg), ServerDumpFile(cfg, DbFileName(Remote, w.clock(1)))),
              DbReset(ServerWp(cfg)),
              DbImport(ServerWp(cfg), ServerDumpFile(cfg, DbFileName(Local, w.clock(0)))) ]
            + Filter(PushDb(cfg, w), Rewrites)
  {
    PushDbTouchingDestination(cfg, w);
    PushDbRewritesAreTail(cfg, w);
  }

  /** Every command on the server database follows every command on the
      Vagrant database and the upload of the Vagrant export. */
  predicate PushDbInstallsAfterTransfer(cfg: Config, w: World) {
    var t := PushDb(cfg, w);
    && AllBefore(t, Touching(VagrantWp(cfg)), Touching(ServerWp(cfg)))
    && exists i | 0 <= i < |t| ::
         && t[i].Upload? && t[i].dst == ServerDumpFile(cfg, DbFileName(Local, w.clock(0)))
         && forall j | 0 <= j < |t| && Selects(Touching(ServerWp(cfg)), t[j]) :: i < j
  }

  /** `push:db` exports and uploads the Vagrant database before it backs up,
      resets, imports or rewrites the server one. */
  lemma PushDbSourceBeforeDestination(cfg: Config, w: World)
    ensures PushDbInstallsAfterTransfer(cfg, w)
  {
    PushDbOrder(cfg, w);
    var t := PushDb(cfg, w);
    var i := |LocalUbRoot(cfg, w).cmds| + 1;
    assert t[i].Upload?;
  }

  /** `push:db` uploads the export's name from the dump folder below
      `$localUBRoot` to the server dump folder, then, only if the local URL was found, fetches the
      server's .env into a temporary local copy. */
  lemma PushDbTransfers(cfg: Config, w: World)
    ensures var exportName := DbFileName(Local, w.clock(0));
      Filter(PushDb(cfg, w), Transfers)
      == [Upload(LocalDumpFile(cfg, w, exportName), ServerDumpFile(cfg, exportName))]
         + (if HasUrl(w.localHome) then [Download(RemoteEnvFile(cfg), RemoteEnvCopy(cfg, w))] else [])
  {
    PushDbTransfersOnlyTwice(cfg, w);
    PushTransferPicks(cfg, w, Transfers);
    LoadUrlsTransfers(cfg, w);
    FilterSecondAndFourth(LocalUbRoot(cfg, w).cmds, PushTransfer(cfg, w), PushInstall(cfg, w),
                          LoadUrls(cfg, w).cmds, PushRewrite(cfg, w) + PushCleanup(cfg, w), Transfers);
  }

  /** Only the transfer phase and the lookups move files. */
  lemma PushDbTransfersOnlyTwice(cfg: Config, w: World)
    ensures Filter(LocalUbRoot(cfg, w).cmds, Transfers) == []
    ensures Filter(PushInstall(cfg, w), Transfers) == []
    ensures Filter(PushRewrite(cfg, w) + PushCleanup(cfg, w), Transfers) == []
  {
    FilterLocalUbRoot(cfg, w, Transfers);
    PushInstallPicks(cfg, w, Transfers);
    FilterConcat(PushRewrite(cfg, w), PushCleanup(cfg, w), Transfers);
    PushRewritePicks(cfg, w, Transfers);
    PushCleanupPicks(cfg, w, Transfers);
  }

  /** `push:db` removes the uploaded export from the server only when both
      URLs were found; an early return leaves it in place. */
  lemma PushDbRemovesUpload(cfg: Config, w: World)
    ensures Filter(PushDb(cfg, w), Removals(Remote))
         == if HasUrl(w.localHome) && HasUrl(w.remoteHome)
            then [Remove(Remote, ServerDumpFile(cfg, DbFileName(Local, w.clock(0))))]
            else []
  {
    PushDbPieces(cfg, w, Removals(Remote));
    FilterLoadUrls(cfg, w, Removals(Remote));
  }

  /** Locally, `push:db` removes only the `.env` copy, whenever it fetched
      one: the export it uploaded stays in the local dump folder. */
  lemma PushDbRemovesEnvCopy(cfg: Config, w: World)
    ensures Filter(PushDb(cfg, w), Removals(Local))
         == if HasUrl(w.localHome) then [Remove(Local, RemoteEnvCopy(cfg, w))] else []
  {
    PushDbPieces(cfg, w, Removals(Local));
    FilterLoadUrls(cfg, w, Removals(Local));
  }

  /** When it happens, the removal of the upload is the last command of
      `push:db`, after both rewrites. */
  lemma PushDbRemovesUploadLast(cfg: Config, w: World)
    requires HasUrl(w.localHome) && HasUrl(w.remoteHome)
    ensures var t := PushDb(cfg, w);
      && t[|t| - 1] == Remove(Remote, ServerDumpFile(cfg, DbFileName(Local, w.clock(0))))
      && t[|t| - 3].SearchReplace? && t[|t| - 2].SearchReplace?
  {
    var (localUrl, remoteUrl) := LoadUrls(cfg, w).pair.value;
    var rewrites := RewriteUrls(ServerWp(cfg), localUrl, remoteUrl, true);
    var cleanup := [Remove(Remote, ServerDumpFile(cfg, DbFileName(Local, w.clock(0))))];
    assert PushRewrite(cfg, w) == rewrites;
    assert PushCleanup(cfg, w) == cleanup;
    var head := LocalUbRoot(cfg, w).cmds + PushTransfer(cfg, w) + PushInstall(cfg, w) + LoadUrls(cfg, w).cmds;
    assert PushDb(cfg, w) == head + (rewrites + cleanup);
  }

  /** `_db_<side>_<timestamp>.sql` names differ whenever their sides differ,
      whatever the timestamps. */
  lemma DbFileNameSidesDiffer(a: string, b: string)
    ensures DbFileName(Remote, a) != DbFileName(Local, b)
  {
    assert DbFileName(Remote, a)[4] == 'r';
    assert DbFileName(Local, b)[4] == 'l';
  }

  /** The backup `push:db` takes on the server never overwrites the uploaded
      export, although both go to the server dump folder and their
      timestamps may coincide. */
  lemma PushDbBackupKeepsUpload(cfg: Config, w: World)
    ensures ServerDumpFile(cfg, DbFileName(Remote, w.clock(1)))
         != ServerDumpFile(cfg, DbFileName(Local, w.clock(0)))
  {
    var dir := RemoteDump(cfg) + "/";
    DbFileNameSidesDiffer(w.clock(1), w.clock(0));
    assert (dir + DbFileName(Remote, w.clock(1)))[|dir|..] == DbFileName(Remote, w.clock(1));
    assert (dir + DbFileName(Local, w.clock(0)))[|dir|..] == DbFileName(Local, w.clock(0));
  }

  /** Pushing from `http://site.local/` to `https://example.com`
      issues exactly two rewrites: the full URLs as configured, trailing
      slash included, then the bare domains, both scoped to the local domain
      `site.local`. */
  lemma PushDbScenario(cfg: Config, w: World)
    requires w.localHome == Some("http://site.local/")
    requires w.remoteHome == Some("https://example.com")
    ensures Filter(PushDb(cfg, w), Rewrites)
         == [ SearchReplace(ServerWp(cfg), "http://site.local/", "https://example.com", "site.local", true),
              SearchReplace(ServerWp(cfg), "site.local", "example.com", "site.local", true) ]
  {
    assert HasUrl(w.localHome) && HasUrl(w.remoteHome);
    UrlToDomainExampleHttp();
    UrlToDomainExampleHttps();
    PushDbRewrites(cfg, w);
  }

  /** The host side of a db transfer and the Vagrant side are named apart.
      Without `is_windows_bash` the host path is `/<dump_folder>/<name>`,
      which is the path `vagrant_root/<dump_folder>/<name>` only for an empty
      `vagrant_root`: otherwise `pull:db` imports a file its download did not
      write, and `push:db` uploads a file its export did not write. */
  lemma DumpPathsWithoutWindowsBash(cfg: Config, w: World, name: string)
    requires !cfg.isWindowsBash
    ensures LocalDumpFile(cfg, w, name) == VagrantDumpFile(cfg, name) <==> cfg.vagrantRoot == ""
  {
    if cfg.vagrantRoot != "" {
      assert |VagrantDumpFile(cfg, name)| > |LocalDumpFile(cfg, w, name)|;
    }
  }

  /** Without `is_windows_bash`, `$localUBRoot` is never assigned: the db
      exports are transferred through `/<dump_folder>` and the server's .env
      is copied to `/.env-remote`, both at the file-system root rather than
      below `local_bedrock_root`. */
  lemma LocalPathsWithoutWindowsBash(cfg: Config, w: World, name: string)
    requires !cfg.isWindowsBash
    ensures LocalDumpFile(cfg, w, name) == "/" + cfg.dumpFolder + "/" + name
    ensures RemoteEnvCopy(cfg, w) == "/.env-remote"
    ensures LocalUbRoot(cfg, w).cmds == []
  {
  }
}
