/**
 * The `os.path` functions the pipeline derives its file names with, as
 * `posixpath` defines them: `basename`, `dirname`, `join` (two arguments),
 * `isabs`, `normpath`, `abspath` (the working directory is a parameter),
 * `splitext`, and the pipeline's own idiom `basename(p).split('.')[0]`.
 */
module PosixPath {
  import opened PyStr

  predicate IsAbs(p: string) {
    |p| > 0 && p[0] == '/'
  }

  predicate AllSlashes(s: string) {
    forall i :: 0 <= i < |s| ==> s[i] == '/'
  }

  function Slashes(n: nat): (r: string)
    ensures |r| == n && AllSlashes(r)
  {
    seq(n, _ => '/')
  }

  /** `os.path.basename(p)`: the part after the last slash. */
  function Basename(p: string): (r: string)
    ensures |r| <= |p| && r == p[|p| - |r|..]
  {
    var i := LastIndexOf(p, '/') + 1;
    p[i..]
  }

  /** The basename holds no slash, and is the whole path when the path holds none. */
  lemma BasenameSpec(p: string)
    ensures '/' !in Basename(p)
    ensures '/' !in p ==> Basename(p) == p
  {
    LastIndexOfSpec(p, '/');
  }

  /** `s.rstrip('/')`. */
  function RStripSlashes(s: string): (r: string)
    ensures r <= s
    ensures AllSlashes(s[|r|..])
    ensures r == [] || r[|r| - 1] != '/'
  {
    if s == [] || s[|s| - 1] != '/' then s
    else
      var r := RStripSlashes(s[..|s| - 1]);
      assert s[|r|..] == s[..|s| - 1][|r|..] + ['/'];
      r
  }

  /** `os.path.dirname(p)`: everything before the last slash, without trailing slashes unless it is all slashes. */
  function Dirname(p: string): (r: string)
    ensures r <= p
  {
    var i := LastIndexOf(p, '/') + 1;
    var head := p[..i];
    if head != [] && !AllSlashes(head) then RStripSlashes(head) else head
  }

  /** `os.path.join(a, b)`. */
  function Join(a: string, b: string): (r: string)
    ensures IsAbs(b) ==> r == b
    ensures IsAbs(a) || IsAbs(b) ==> IsAbs(r)
  {
    if IsAbs(b) then b
    else if a == [] || a[|a| - 1] == '/' then a + b
    else a + "/" + b
  }

  /** `rfind` is pinned down by its defining property. */
  lemma LastIndexOfUnique(s: string, c: char, k: int)
    requires 0 <= k < |s| && s[k] == c && c !in s[k + 1..]
    ensures LastIndexOf(s, c) == k
  {
    LastIndexOfSpec(s, c);
    var r := LastIndexOf(s, c);
    assert s[k] in s;
  }

  lemma {:induction false} LastIndexOfConcat(x: string, y: string, c: char)
    ensures LastIndexOf(x + y, c) == if c in y then |x| + LastIndexOf(y, c) else LastIndexOf(x, c)
  {
    LastIndexOfSpec(x, c);
    LastIndexOfSpec(y, c);
    LastIndexOfSpec(x + y, c);
    if c in y {
      var k := LastIndexOf(y, c);
      assert (x + y)[|x| + k] == c;
      assert (x + y)[|x| + k + 1..] == y[k + 1..];
      LastIndexOfUnique(x + y, c, |x| + k);
    } else if c in x {
      var k := LastIndexOf(x, c);
      assert (x + y)[k] == c;
      assert (x + y)[k + 1..] == x[k + 1..] + y;
      LastIndexOfUnique(x + y, c, k);
    } else {
      assert c !in x + y by {
        forall i | 0 <= i < |x + y| ensures (x + y)[i] != c {
          if i < |x| { assert (x + y)[i] == x[i]; } else { assert (x + y)[i] == y[i - |x|]; }
        }
      }
    }
  }

  /** The basename of `prefix + name` is `name` when the prefix ends in a slash and the name holds none. */
  lemma {:induction false} BasenameAfterSlash(prefix: string, name: string)
    requires prefix == [] || prefix[|prefix| - 1] == '/'
    requires '/' !in name
    ensures Basename(prefix + name) == name
  {
    LastIndexOfConcat(prefix, name, '/');
    if prefix != [] {
      assert LastIndexOf(prefix, '/') == |prefix| - 1;
    }
  }

  /** Joining a relative name onto any directory keeps the name's basename. */
  lemma {:induction false} BasenameOfJoin(a: string, b: string)
    ensures Basename(Join(a, b)) == Basename(b)
  {
    if !IsAbs(b) {
      var i := LastIndexOf(b, '/') + 1;
      var pre := if a == [] || a[|a| - 1] == '/' then a else a + "/";
      var head := pre + b[..i];
      assert Join(a, b) == head + b[i..] by {
        assert b == b[..i] + b[i..];
      }
      assert head == [] || head[|head| - 1] == '/' by {
        if i > 0 {
          LastIndexOfSpec(b, '/');
          assert head[|head| - 1] == b[i - 1];
        }
      }
      assert '/' !in b[i..] by {
        LastIndexOfSpec(b, '/');
      }
      BasenameAfterSlash(head, b[i..]);
    }
  }

  /** Joining a clean directory and a plain file name, then splitting, gives both back. */
  lemma {:induction false} JoinSplitRoundTrip(dir: string, name: string)
    requires dir != [] && dir[|dir| - 1] != '/'
    requires name != [] && '/' !in name
    ensures Dirname(Join(dir, name)) == dir
    ensures Basename(Join(dir, name)) == name
  {
    var p := Join(dir, name);
    assert p == (dir + "/") + name;
    BasenameAfterSlash(dir + "/", name);
    LastIndexOfConcat(dir + "/", name, '/');
    assert LastIndexOf(dir + "/", '/') == |dir|;
    assert p[..|dir| + 1] == dir + "/";
    assert !AllSlashes(dir + "/") by { assert (dir + "/")[|dir| - 1] != '/'; }
  }

  /** `os.path.basename(p).split('.')[0]`: the name the pipeline derives every intermediate file from. */
  function Stem(p: string): (r: string)
  {
    FirstPiece(Basename(p), '.')
  }

  /** A stem is a prefix of the basename, with neither a dot nor a slash in it. */
  lemma StemSpec(p: string)
    ensures '.' !in Stem(p) && '/' !in Stem(p)
    ensures Stem(p) <= Basename(p)
  {
    BasenameSpec(p);
    FirstPieceSpec(Basename(p), '.');
    var b, r := Basename(p), Stem(p);
    forall i | 0 <= i < |r| ensures r[i] != '/' {
      assert r[i] == b[i];
    }
  }

  predicate AllDots(s: string) {
    forall i :: 0 <= i < |s| ==> s[i] == '.'
  }

  /**
   * `os.path.splitext(p)`: the extension is the last dot and what follows it,
   * provided that dot is in the last path component and is not one of the
   * component's leading dots.
   */
  function SplitExt(p: string): (r: (string, string))
    ensures r.0 + r.1 == p
    ensures r.1 == [] || (r.1[0] == '.' && '.' !in r.1[1..] && '/' !in r.1)
    ensures r.1 == [] <==> OnlyLeadingDots(p)
  {
    var sep := LastIndexOf(p, '/');
    var dot := LastIndexOf(p, '.');
    OnlyLeadingDotsSpec(p);
    if dot > sep && !AllDots(p[sep + 1..dot]) then
      ExtensionShape(p);
      assert p == p[..dot] + p[dot..];
      assert p[dot..][1..] == p[dot + 1..];
      (p[..dot], p[dot..])
    else
      (p, [])
  }

  /** Every dot of the last path component is one of its leading dots (or there is none). */
  predicate OnlyLeadingDots(p: string) {
    forall i :: LastIndexOf(p, '/') < i < |p| && p[i] == '.' ==> AllDots(p[LastIndexOf(p, '/') + 1..i])
  }

  /** The extension test of `splitext` is the leading-dots property of the last component. */
  lemma OnlyLeadingDotsSpec(p: string)
    ensures var sep, dot := LastIndexOf(p, '/'), LastIndexOf(p, '.');
      OnlyLeadingDots(p) <==> !(dot > sep && !AllDots(p[sep + 1..dot]))
  {
    LastIndexOfSpec(p, '/');
    LastIndexOfSpec(p, '.');
    var sep, dot := LastIndexOf(p, '/'), LastIndexOf(p, '.');
    forall i | dot < i < |p| ensures p[i] != '.' {
      assert p[i] == p[dot + 1..][i - dot - 1];
    }
    if dot > sep {
      assert p[dot] == '.';
      if AllDots(p[sep + 1..dot]) {
        forall i | sep < i <= dot && p[i] == '.' ensures AllDots(p[sep + 1..i]) {
          assert p[sep + 1..i] == p[sep + 1..dot][..i - sep - 1];
        }
      }
    }
  }

  /** After the last dot, when it follows the last slash, comes neither a dot nor a slash. */
  lemma ExtensionShape(p: string)
    requires LastIndexOf(p, '.') > LastIndexOf(p, '/')
    ensures p[LastIndexOf(p, '.')] == '.'
    ensures '.' !in p[LastIndexOf(p, '.') + 1..] && '/' !in p[LastIndexOf(p, '.')..]
  {
    LastIndexOfSpec(p, '/');
    LastIndexOfSpec(p, '.');
    var sep, dot := LastIndexOf(p, '/'), LastIndexOf(p, '.');
    forall i | dot <= i < |p| ensures p[i] != '/' {
      assert p[i] == p[sep + 1..][i - sep - 1];
    }
  }

  /** One step of `normpath`'s loop over the components of a path. */
  function CollapseStep(acc: seq<string>, comp: string, rooted: bool): seq<string>
  {
    if comp == "" || comp == "." then acc
    else if comp != ".." || (!rooted && acc == []) || (acc != [] && acc[|acc| - 1] == "..") then acc + [comp]
    else if acc != [] then acc[..|acc| - 1]
    else acc
  }

  /** `normpath`'s loop: drop empty and `.` components, let `..` cancel the component before it. */
  function Collapse(comps: seq<string>, rooted: bool): (r: seq<string>)
    ensures forall i :: 0 <= i < |r| ==> r[i] != "" && r[i] != "." && r[i] in comps
    ensures rooted ==> forall i :: 0 <= i < |r| ==> r[i] != ".."
    decreases |comps|
  {
    if comps == [] then []
    else
      var front := comps[..|comps| - 1];
      var acc := Collapse(front, rooted);
      assert forall x :: x in front ==> x in comps;
      CollapseStep(acc, comps[|comps| - 1], rooted)
  }

  /** `os.path.normpath(p)` (POSIX). */
  function Normpath(p: string): (r: string)
    ensures r != []
  {
    if p == [] then "."
    else
      var initial := if p[0] != '/' then 0
                     else if |p| >= 2 && p[1] == '/' && !(|p| >= 3 && p[2] == '/') then 2
                     else 1;
      var r := Slashes(initial) + JoinWith(Collapse(SplitOn(p, '/'), initial > 0), '/');
      if r == [] then "." else r
  }

  /** `os.path.abspath(p)` with `cwd` standing for `os.getcwd()`. */
  function Abspath(cwd: string, p: string): string
  {
    Normpath(if IsAbs(p) then p else Join(cwd, p))
  }

  /** `sep.join(parts)` without its last part: everything up to and including the last separator. */
  function JoinInit(parts: seq<string>, sep: char): string
    requires |parts| >= 1
  {
    if |parts| == 1 then "" else parts[0] + [sep] + JoinInit(parts[1..], sep)
  }

  lemma {:induction false} JoinWithEndsWithLast(parts: seq<string>, sep: char)
    requires |parts| >= 1
    ensures JoinWith(parts, sep) == JoinInit(parts, sep) + parts[|parts| - 1]
    ensures JoinInit(parts, sep) == [] || JoinInit(parts, sep)[|JoinInit(parts, sep)| - 1] == sep
  {
    if |parts| > 1 {
      var tail := parts[1..];
      JoinWithEndsWithLast(tail, sep);
      assert tail[|tail| - 1] == parts[|parts| - 1];
      var x := JoinInit(tail, sep);
      assert JoinWith(parts, sep) == (parts[0] + [sep]) + (x + parts[|parts| - 1]);
      assert JoinInit(parts, sep) == (parts[0] + [sep]) + x;
    }
  }

  /** A run of one or two slashes followed by clean components joined by slashes. */
  lemma {:induction false} RootedJoinShape(k: nat, comps: seq<string>)
    requires 1 <= k <= 2
    requires forall i :: 0 <= i < |comps| ==> comps[i] != "" && '/' !in comps[i]
    ensures IsAbs(Slashes(k) + JoinWith(comps, '/'))
    ensures var d := Slashes(k) + JoinWith(comps, '/');
      Basename(d) == [] <==> d == "/" || d == "//"
  {
    var d := Slashes(k) + JoinWith(comps, '/');
    assert d[0] == '/';
    if comps == [] {
      assert d == Slashes(k);
      assert LastIndexOf(d, '/') == |d| - 1 by { LastIndexOfUnique(d, '/', |d| - 1); }
      assert k == 1 ==> d == "/";
      assert k == 2 ==> d == "//";
    } else {
      JoinWithEndsWithLast(comps, '/');
      var last := comps[|comps| - 1];
      var x := JoinInit(comps, '/');
      var pre := Slashes(k) + x;
      assert d == pre + last;
      assert pre[|pre| - 1] == '/';
      BasenameAfterSlash(pre, last);
      assert last[0] != '/' by { assert last[0] in last; }
      assert d[|d| - |last|] == last[0];
    }
  }

  /** `normpath` of an absolute path is absolute; its basename is empty only at the root. */
  lemma {:induction false} NormpathOfAbsolute(q: string)
    requires IsAbs(q)
    ensures IsAbs(Normpath(q))
    ensures Basename(Normpath(q)) == [] <==> Normpath(q) == "/" || Normpath(q) == "//"
  {
    var initial := if |q| >= 2 && q[1] == '/' && !(|q| >= 3 && q[2] == '/') then 2 else 1;
    var parts := SplitOn(q, '/');
    var comps := Collapse(parts, true);
    forall i | 0 <= i < |comps| ensures comps[i] != "" && '/' !in comps[i] {
      assert comps[i] in parts;
    }
    RootedJoinShape(initial, comps);
    assert Normpath(q) == Slashes(initial) + JoinWith(comps, '/');
  }

  /**
   * A path made by `abspath` from an absolute working directory is absolute,
   * and its basename (its last component) is empty only when it is the root.
   */
  lemma {:induction false} AbspathShape(cwd: string, p: string)
    requires IsAbs(cwd)
    ensures IsAbs(Abspath(cwd, p))
    ensures Basename(Abspath(cwd, p)) == [] <==> Abspath(cwd, p) == "/" || Abspath(cwd, p) == "//"
  {
    var q := if IsAbs(p) then p else Join(cwd, p);
    assert IsAbs(q);
    NormpathOfAbsolute(q);
  }
}
