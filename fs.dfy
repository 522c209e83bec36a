// The file system as the parsers see it: which paths exist, what each one
// holds once read as XML, and the order in which a directory listing
// enumerates them. Paths are plain '/'-separated strings.
module Fs {
  import opened Strs
  import opened Xml

  /** What `ET.parse` makes of a file: a tree, or a ParseError with its text. */
  datatype Document = WellFormed(root: Element) | Malformed(reason: string)

  datatype FileSystem = FileSystem(files: map<string, Document>, listing: seq<string>)

  predicate Exists(fs: FileSystem, path: string) {
    path in fs.files
  }

  /** The last index of `c` in `s`, or -1. */
  function LastIndexOf(s: string, c: char): (i: int)
    ensures -1 <= i < |s|
    ensures i >= 0 ==> s[i] == c
    ensures forall k :: i < k < |s| ==> s[k] != c
  {
    if |s| == 0 then -1
    else if s[|s| - 1] == c then |s| - 1
    else LastIndexOf(s[..|s| - 1], c)
  }

  /** `Path(p).name`. */
  function Name(p: string): string {
    var i := LastIndexOf(p, '/');
    p[i + 1..]
  }

  /** `Path(p).parent`, for a path with a directory part. */
  function Parent(p: string): string {
    var i := LastIndexOf(p, '/');
    if i < 0 then "." else p[..i]
  }

  /** `parent / name`. */
  function JoinPath(dir: string, name: string): string {
    dir + "/" + name
  }

  /** `Path(p).suffix`: from the last dot of the name, unless that dot starts or ends it. */
  function Suffix(p: string): (r: string)
    ensures r == "" || r[0] == '.'
  {
    var n := Name(p);
    var i := LastIndexOf(n, '.');
    if 0 < i < |n| - 1 then n[i..] else ""
  }

  /** `Path(p).stem`: the name without its suffix. */
  function Stem(p: string): (r: string)
    ensures r + Suffix(p) == Name(p)
  {
    var n := Name(p);
    var i := LastIndexOf(n, '.');
    if 0 < i < |n| - 1 then
      assert n == n[..i] + n[i..];
      n[..i]
    else n
  }

  /** `Path(dir).glob("*" + ext)`: existing entries of `dir` whose name ends with `ext`, in listing order. */
  function Glob(fs: FileSystem, dir: string, ext: string): (r: seq<string>)
    ensures forall k :: 0 <= k < |r| ==> Exists(fs, r[k]) && Parent(r[k]) == dir && EndsWith(Name(r[k]), ext)
  {
    GlobIn(fs.files, fs.listing, dir, ext)
  }

  function GlobIn(files: map<string, Document>, listing: seq<string>, dir: string, ext: string): (r: seq<string>)
    ensures forall k :: 0 <= k < |r| ==> r[k] in files && Parent(r[k]) == dir && EndsWith(Name(r[k]), ext)
  {
    if |listing| == 0 then []
    else
      var p := listing[0];
      (if p in files && Parent(p) == dir && EndsWith(Name(p), ext) then [p] else [])
        + GlobIn(files, listing[1..], dir, ext)
  }
}
