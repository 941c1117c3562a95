/** String helpers over `seq<char>` that the recipes use: PHP's rtrim with
    "/", the trailing-slash normalisation of sync directories, and ASCII
    case folding for the case-insensitive scheme match. */
module Strings {

  /** True when the last character of s is a '/'. */
  predicate EndsWithSlash(s: string) {
    |s| > 0 && s[|s| - 1] == '/'
  }

  /** A run of k slashes. */
  function Slashes(k: nat): string {
    seq(k, _ => '/')
  }

  /** PHP's `rtrim($s, "/")`: every trailing '/' is removed and nothing else.
      The result is the unique prefix of s that does not end in '/' and
      after which s holds only slashes. */
  function TrimTrailingSlashes(s: string): (r: string)
    ensures r <= s
    ensures !EndsWithSlash(r)
    ensures forall i | |r| <= i < |s| :: s[i] == '/'
    decreases |s|
  {
    if EndsWithSlash(s) then TrimTrailingSlashes(s[..|s| - 1]) else s
  }

  /** Trimming undoes any number of appended slashes, and nothing more. */
  lemma TrimTrailingSlashesOfPadded(t: string, k: nat)
    requires !EndsWithSlash(t)
    ensures TrimTrailingSlashes(t + Slashes(k)) == t
  {
    var s := t + Slashes(k);
    var r := TrimTrailingSlashes(s);
    if |t| > 0 {
      assert s[|t| - 1] == t[|t| - 1] != '/';
      assert |t| <= |r|;
    }
    if |r| > 0 {
      assert r[|r| - 1] == s[|r| - 1] != '/';
      assert |r| <= |t|;
    }
  }

  /** The normalisation applied before a directory is archived: append a
      '/' unless the path already ends in one. An empty path becomes "/". */
  function EnsureTrailingSlash(p: string): (r: string)
    ensures EndsWithSlash(r)
    ensures p <= r && |r| <= |p| + 1
    ensures EndsWithSlash(p) ==> r == p
  {
    if EndsWithSlash(p) then p else p + "/"
  }

  /** Normalising twice is normalising once. */
  lemma EnsureTrailingSlashIdempotent(p: string)
    ensures EnsureTrailingSlash(EnsureTrailingSlash(p)) == EnsureTrailingSlash(p)
  {
  }

  /** ASCII lower-casing, as PCRE's caseless matching sees letters. */
  function LowerAscii(c: char): char {
    if 'A' <= c <= 'Z' then (c as int + 32) as char else c
  }

  /** Lower-cases every ASCII letter of s and keeps every other character:
      no upper-case ASCII letter is left, every other character stays in
      place, and an upper-case letter becomes the lower-case letter at the
      same position of the alphabet. */
  function LowerAsciiString(s: string): (r: string)
    ensures |r| == |s|
    ensures forall i | 0 <= i < |s| :: r[i] == LowerAscii(s[i])
    ensures forall i | 0 <= i < |r| :: !('A' <= r[i] <= 'Z')
    ensures forall i | 0 <= i < |s| :: !('A' <= s[i] <= 'Z') ==> r[i] == s[i]
    ensures forall i | 0 <= i < |s| :: 'A' <= s[i] <= 'Z' ==>
      'a' <= r[i] <= 'z' && r[i] as int - 'a' as int == s[i] as int - 'A' as int
  {
    seq(|s|, i requires 0 <= i < |s| => LowerAscii(s[i]))
  }
}
