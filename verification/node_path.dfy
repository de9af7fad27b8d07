/**
  The three Node.js `path` operations the naming callbacks use, following Node's
  POSIX rules: `path.basename`, `path.extname`, and the stem the callbacks compute
  as `path.basename(p).split('.').shift()`.
 */
module NodePath {

  /** Index of the last `c` in `s`, or -1 when `s` has none. */
  function LastIndexOf(s: string, c: char): (r: int)
    ensures -1 <= r < |s|
    ensures r == -1 <==> c !in s
    ensures 0 <= r ==> s[r] == c && c !in s[r + 1..]
  {
    if |s| == 0 then -1
    else if s[|s| - 1] == c then |s| - 1
    else
      var r := LastIndexOf(s[..|s| - 1], c);
      assert s == s[..|s| - 1] + [s[|s| - 1]];
      assert 0 <= r ==> s[r + 1..] == s[..|s| - 1][r + 1..] + [s[|s| - 1]];
      r
  }

  /** Index of the first `c` in `s`, or `|s|` when `s` has none. */
  function FirstIndexOf(s: string, c: char): (r: nat)
    ensures r <= |s|
    ensures c !in s[..r]
    ensures r < |s| ==> s[r] == c
  {
    if |s| == 0 || s[0] == c then 0
    else
      var r := 1 + FirstIndexOf(s[1..], c);
      assert s[..r] == [s[0]] + s[1..][..r - 1];
      r
  }

  /** `p` without the run of `/` it ends with. */
  function StripTrailingSlashes(p: string): (q: string)
    ensures q <= p
    ensures |q| == 0 || q[|q| - 1] != '/'
    ensures forall i | |q| <= i < |p| :: p[i] == '/'
  {
    if |p| > 0 && p[|p| - 1] == '/' then StripTrailingSlashes(p[..|p| - 1]) else p
  }

  /** `path.basename(p)`: the last segment, trailing separators ignored. */
  function Basename(p: string): (b: string)
    ensures '/' !in b
  {
    var q := StripTrailingSlashes(p);
    q[LastIndexOf(q, '/') + 1..]
  }

  /** `path.basename(p).split('.').shift()`: the basename up to its first dot. */
  function Stem(p: string): (s: string)
    ensures '.' !in s && '/' !in s
  {
    var b := Basename(p);
    var k := FirstIndexOf(b, '.');
    assert forall i | 0 <= i < k :: b[..k][i] == b[i];
    b[..k]
  }

  /** The shape of every `path.extname` result: empty, or one dot followed by no dot and no slash. */
  predicate ExtensionShaped(e: string) {
    e == [] || (e[0] == '.' && '.' !in e[1..] && '/' !in e)
  }

  /**
    `path.extname(p)`: the basename's suffix from its last dot, or "" when the
    basename has no dot, when its last dot is its first character, or when it
    is "..".
   */
  function Extname(p: string): (e: string)
    ensures ExtensionShaped(e)
  {
    var b := Basename(p);
    var d := LastIndexOf(b, '.');
    if d <= 0 || b == ".." then "" else b[d..]
  }

  /** Character facts of a file name assembled as `stem + tag + ext`. */
  lemma FileNameFacts(stem: string, tag: string, ext: string)
    requires '.' !in stem && '/' !in stem
    requires |tag| > 0 && '.' !in tag && '/' !in tag
    requires ExtensionShaped(ext)
    ensures '/' !in stem + tag + ext
    ensures FirstIndexOf(stem + tag + ext, '.') == |stem + tag|
    ensures LastIndexOf(stem + tag + ext, '.') == if ext == [] then -1 else |stem + tag|
  {
    var f := stem + tag + ext;
    assert forall i | 0 <= i < |stem| :: f[i] == stem[i];
    assert forall i | |stem| <= i < |stem + tag| :: f[i] == tag[i - |stem|];
    assert forall i | |stem + tag| <= i < |f| :: f[i] == ext[i - |stem + tag|];
    assert forall i | |stem + tag| < i < |f| :: f[i] == ext[1..][i - |stem + tag| - 1];
    if ext != [] {
      assert f[|stem + tag|] == '.';
    }
  }

  /** A file name placed after a directory prefix is that path's basename. */
  lemma BasenameAfterDirectory(dir: string, f: string)
    requires |dir| > 0 && dir[|dir| - 1] == '/'
    requires |f| > 0 && '/' !in f
    ensures Basename(dir + f) == f
  {
    var p := dir + f;
    assert p[|p| - 1] == f[|f| - 1];
    assert StripTrailingSlashes(p) == p;
    assert forall i | |dir| <= i < |p| :: p[i] == f[i - |dir|];
    assert p[|dir| - 1] == '/';
    var l := LastIndexOf(p, '/');
    assert l == |dir| - 1;
    assert p[|dir|..] == f;
  }

  /**
    A content-addressed URL `dir + (stem + tag + ext)` hands Node's own path
    functions back the parts it was built from: its basename is the file name,
    its stem is `stem + tag` and its extension is `ext`.
   */
  lemma FileNameRoundTrip(dir: string, stem: string, tag: string, ext: string)
    requires |dir| > 0 && dir[|dir| - 1] == '/'
    requires '.' !in stem && '/' !in stem
    requires |tag| > 0 && '.' !in tag && '/' !in tag
    requires ExtensionShaped(ext)
    ensures Basename(dir + (stem + tag + ext)) == stem + tag + ext
    ensures Stem(dir + (stem + tag + ext)) == stem + tag
    ensures Extname(dir + (stem + tag + ext)) == ext
  {
    var f := stem + tag + ext;
    FileNameFacts(stem, tag, ext);
    BasenameAfterDirectory(dir, f);
    assert f[..|stem + tag|] == stem + tag;
    if ext != [] {
      assert f[|stem|] == tag[0];
      assert f != "..";
      assert f[|stem + tag|..] == ext;
    }
  }

  /** A bare file name (no directory) keeps everything before its extension as its stem. */
  lemma StemOfBareName(stem: string, ext: string)
    requires |stem| > 0 && '.' !in stem && '/' !in stem
    requires ExtensionShaped(ext)
    ensures Stem(stem + ext) == stem
  {
    var f := stem + ext;
    assert forall i | 0 <= i < |stem| :: f[i] == stem[i];
    assert forall i | |stem| <= i < |f| :: f[i] == ext[i - |stem|];
    assert f[|f| - 1] != '/';
    assert StripTrailingSlashes(f) == f;
    assert '/' !in f;
    assert LastIndexOf(f, '/') == -1;
    assert Basename(f) == f;
    if ext != [] {
      assert f[|stem|] == '.';
    }
    assert FirstIndexOf(f, '.') == |stem|;
    assert f[..|stem|] == stem;
  }
}
