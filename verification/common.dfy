/** recipe/common.php: the `activate:plugins` and `bedrock:prepare` tasks and
    the `$getUBPath` helper that turns a Windows path into a Unix-style one. */
module Common {
  import opened Wrappers
  import opened Trace
  import opened Settings

  /** PCRE's `\w` with the default C-locale tables: ASCII letters, digits and '_'. */
  predicate IsWordChar(c: char) {
    ('a' <= c <= 'z') || ('A' <= c <= 'Z') || ('0' <= c <= '9') || c == '_'
  }

  /** The check `preg_match('/^\w:/', $fullPath)`: a word character and then
      ':'. Nothing after the first two characters is inspected. */
  predicate IsDrivePath(p: string) {
    |p| >= 2 && IsWordChar(p[0]) && p[1] == ':'
  }

  /** The result of `$getUBPath`: the commands it issued and its return value. */
  datatype Conversion = Conversion(cmds: seq<Cmd>, path: Option<string>)

  /** `$getUBPath($fullPath)`. A rejected path returns nothing (PHP null)
      before any command runs; an accepted one runs `cygpath -u` locally and
      returns its output. */
  function GetUbPath(p: string, cygpath: string -> string): (r: Conversion)
    ensures r.path.Some? <==> IsDrivePath(p)
    ensures r.path.Some? ==> r.cmds == [Cygpath(p)] && r.path.value == cygpath(p)
    ensures r.path.None? ==> r.cmds == []
  {
    if !IsDrivePath(p) then Conversion([], None)
    else Conversion([Cygpath(p)], Some(cygpath(p)))
  }

  /** A path as a task goes on to use it, with the commands that produced it. */
  datatype Converted = Converted(cmds: seq<Cmd>, path: string)

  /** The return value of `$getUBPath` as the callers use it: they do not
      check it, so PHP's null becomes the empty string. */
  function UbPath(p: string, cygpath: string -> string): (r: Converted)
    ensures r.cmds == GetUbPath(p, cygpath).cmds
    ensures r.path == (if IsDrivePath(p) then cygpath(p) else "")
  {
    var c := GetUbPath(p, cygpath);
    Converted(c.cmds, if c.path.Some? then c.path.value else "")
  }

  /** Only the first two characters decide whether a path is converted. */
  lemma GetUbPathLooksAtTwoChars(p: string, rest: string, cygpath: string -> string)
    requires |p| >= 2
    ensures GetUbPath(p[..2] + rest, cygpath).path.Some? <==> GetUbPath(p, cygpath).path.Some?
  {
  }

  /** The drive-letter check accepts digits, '_' and a bare "C:", and rejects
      Unix paths and a lone letter. */
  lemma GetUbPathExamples(cygpath: string -> string)
    ensures GetUbPath("C:", cygpath).path == Some(cygpath("C:"))
    ensures GetUbPath("1:x", cygpath).path.Some?
    ensures GetUbPath("_:x", cygpath).path.Some?
    ensures GetUbPath("C:\\site\\app", cygpath).cmds == [Cygpath("C:\\site\\app")]
    ensures GetUbPath("/home/site", cygpath) == Conversion([], None)
    ensures GetUbPath("C", cygpath) == Conversion([], None)
    ensures GetUbPath("-:x", cygpath).path.None?
  {
  }

  /** `activate:plugins`: one command, activating every plugin of the
      WordPress in `deploy_path/release/web`. */
  function ActivatePlugins(cfg: Config): (t: seq<Cmd>)
    ensures Filter(t, Touching(ServerWp(cfg))) == t
    ensures |t| == 1 && t[0].ActivateAllPlugins?
  {
    [ActivateAllPlugins(ServerWp(cfg))]
  }

  /** `bedrock:prepare`: `mkdir {{dump_folder}}` under the local Bedrock root,
      then under the deploy path, with no existence check. The folders it
      creates are the dump folders the other tasks write exports and
      archives into, whatever the configuration. */
  function BedrockPrepare(cfg: Config): (t: seq<Cmd>)
    ensures |t| == 2
    ensures t[0].Mkdir? && t[0].side == Local && t[0].parent + "/" + t[0].name == LocalDump(cfg)
    ensures t[1].Mkdir? && t[1].side == Remote && t[1].parent + "/" + t[1].name == RemoteDump(cfg)
  {
    [Mkdir(Local, cfg.localBedrockRoot, cfg.dumpFolder), Mkdir(Remote, cfg.deployPath, cfg.dumpFolder)]
  }
}
