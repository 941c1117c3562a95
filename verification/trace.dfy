/** The abstract commands the recipes hand to the deployment framework, and
    the vocabulary used to state properties of a command trace. */
module Trace {

  /** The machine a command runs on or a file lives on. */
  datatype Side = Local | Remote

  /** The word naming a side in export and archive file names. */
  function SideName(side: Side): string {
    match side
    case Local => "local"
    case Remote => "remote"
  }

  /** A WordPress installation that wp-cli is run against:
      - Server(web): `cd <web> && wp ...` on the target host;
      - Vagrant(dir, root): `cd <dir> && vagrant ssh -- -t "cd <root>/web; wp ..."`
        on the local machine. */
  datatype Wp = Server(web: string) | Vagrant(dir: string, root: string)

  /** One command issued through run, runLocally, upload or download. */
  datatype Cmd =
    | Cygpath(path: string)                 // runLocally("cygpath -u <path>")
    | DbExport(wp: Wp, file: string)        // wp db export <file>
    | DbReset(wp: Wp)                       // wp db reset
    | DbImport(wp: Wp, file: string)        // wp db import <file>
    | SearchReplace(wp: Wp, from: string, to: string, url: string, skipThemes: bool)
                                            // wp search-replace <from> <to> [--skip-themes] --url=<url> --network
    | ActivateAllPlugins(wp: Wp)            // wp plugin activate --all
    | Upload(src: string, dst: string)      // upload(local src, remote dst)
    | Download(src: string, dst: string)    // download(remote src, local dst)
    | Remove(side: Side, path: string)      // rm <path>
    | Zip(side: Side, dir: string, archive: string)
                                            // cd <dir> && zip -r <archive> .
    | Mkdir(side: Side, parent: string, name: string)
                                            // cd <parent> && mkdir <name>

  /** A class of commands picked out of a trace. */
  datatype Selector =
    | Touching(target: Wp)     // wp-cli commands run against one installation
    | Rewrites                 // search-replace passes
    | Transfers                // uploads and downloads
    | Removals(on: Side)       // rm on one side
    | Conversions              // cygpath calls
    | Archives                 // zip calls

  predicate Selects(sel: Selector, c: Cmd) {
    match sel
    case Touching(target) =>
      (c.DbExport? || c.DbReset? || c.DbImport? || c.SearchReplace? || c.ActivateAllPlugins?)
      && c.wp == target
    case Rewrites => c.SearchReplace?
    case Transfers => c.Upload? || c.Download?
    case Removals(on) => c.Remove? && c.side == on
    case Conversions => c.Cygpath?
    case Archives => c.Zip?
  }

  /** The commands of t that sel picks, in trace order. */
  function Filter(t: seq<Cmd>, sel: Selector): (r: seq<Cmd>)
    ensures |r| <= |t|
  {
    if t == [] then []
    else Picked(t[0], sel) + Filter(t[1..], sel)
  }

  lemma {:induction false} FilterConcat(a: seq<Cmd>, b: seq<Cmd>, sel: Selector)
    ensures Filter(a + b, sel) == Filter(a, sel) + Filter(b, sel)
    decreases |a|
  {
    if a == [] {
      assert a + b == b;
    } else {
      assert (a + b)[0] == a[0];
      assert (a + b)[1..] == a[1..] + b;
      FilterConcat(a[1..], b, sel);
      assert Filter(a + b, sel) == Picked(a[0], sel) + Filter(a[1..] + b, sel);
    }
  }

  /** The one-command trace [c] filtered. */
  function Picked(c: Cmd, sel: Selector): seq<Cmd> {
    if Selects(sel, c) then [c] else []
  }

  /** Filtering a trace of at most three commands, one command at a time. */
  lemma FilterShort(t: seq<Cmd>, sel: Selector)
    requires |t| <= 3
    ensures |t| == 1 ==> Filter(t, sel) == Picked(t[0], sel)
    ensures |t| == 2 ==> Filter(t, sel) == Picked(t[0], sel) + Picked(t[1], sel)
    ensures |t| == 3 ==> Filter(t, sel) == Picked(t[0], sel) + Picked(t[1], sel) + Picked(t[2], sel)
  {
  }

  /** A trace none of whose commands sel picks filters to nothing. */
  lemma {:induction false} FilterNone(t: seq<Cmd>, sel: Selector)
    requires forall c | c in t :: !Selects(sel, c)
    ensures Filter(t, sel) == []
    decreases |t|
  {
    if t != [] {
      assert t[0] in t;
      assert forall c | c in t[1..] :: c in t;
      FilterNone(t[1..], sel);
    }
  }

  /** A trace that filters to nothing holds no command sel picks. */
  lemma {:induction false} FilterEmpty(t: seq<Cmd>, sel: Selector)
    requires Filter(t, sel) == []
    ensures forall c | c in t :: !Selects(sel, c)
    decreases |t|
  {
    if t != [] {
      FilterEmpty(t[1..], sel);
      assert t == [t[0]] + t[1..];
    }
  }

  /** A trace all of whose commands sel picks filters to itself. */
  lemma {:induction false} FilterAll(t: seq<Cmd>, sel: Selector)
    requires forall c | c in t :: Selects(sel, c)
    ensures Filter(t, sel) == t
    decreases |t|
  {
    if t != [] {
      assert t[0] in t;
      assert forall c | c in t[1..] :: c in t;
      FilterAll(t[1..], sel);
      assert t == [t[0]] + t[1..];
    }
  }

  /** Every command first picks comes before every command second picks. */
  predicate AllBefore(t: seq<Cmd>, first: Selector, second: Selector) {
    forall i, j | 0 <= i < |t| && 0 <= j < |t| && Selects(first, t[i]) && Selects(second, t[j]) :: i < j
  }

  /** When nothing sel picks lies at index k or later, everything it picks
      lies before k. */
  lemma PickedOnlyBefore(t: seq<Cmd>, sel: Selector, k: nat)
    requires k <= |t|
    requires forall c | c in t[k..] :: !Selects(sel, c)
    ensures forall j | 0 <= j < |t| && Selects(sel, t[j]) :: j < k
  {
    forall j | k <= j < |t|
      ensures !Selects(sel, t[j])
    {
      assert t[j] == t[k..][j - k];
    }
  }

  /** When nothing sel picks lies before index k, everything it picks lies
      at k or later. */
  lemma PickedOnlyFrom(t: seq<Cmd>, sel: Selector, k: nat)
    requires k <= |t|
    requires forall c | c in t[..k] :: !Selects(sel, c)
    ensures forall j | 0 <= j < |t| && Selects(sel, t[j]) :: k <= j
  {
    forall j | 0 <= j < k
      ensures !Selects(sel, t[j])
    {
      assert t[j] == t[..k][j];
    }
  }

  /** Cutting a trace of five parts inside the second part. */
  lemma CutSecond(a: seq<Cmd>, b: seq<Cmd>, c: seq<Cmd>, d: seq<Cmd>, e: seq<Cmd>, k: nat)
    requires k <= |b|
    ensures (a + b + c + d + e)[|a| + k..] == b[k..] + (c + d + e)
    ensures (a + b + c + d + e)[..|a| + |b|] == a + b
  {
    assert a + b + c + d + e == (a + b) + (c + d + e);
  }

  /** A trace made of a part without `second` commands followed by a part
      without `first` commands has every `first` before every `second`. */
  lemma AllBeforeConcat(a: seq<Cmd>, b: seq<Cmd>, first: Selector, second: Selector)
    requires forall c | c in a :: !Selects(second, c)
    requires forall c | c in b :: !Selects(first, c)
    ensures AllBefore(a + b, first, second)
  {
  }
}
