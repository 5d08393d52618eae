/**
 * The string logic the downloader uses to derive paths: `rsplit("/", 1)`,
 * `os.path.basename`, two-argument `os.path.join` on POSIX, and the
 * canonical form under which two spellings of a path name the same file
 * (runs of '/' count as one, a trailing '/' names the directory itself).
 */
module Paths {
  import opened Wrappers

  /** Index of the last '/' in `s`, if there is one. */
  function LastSlash(s: string): (r: Option<nat>)
    ensures r.None? <==> '/' !in s
    ensures r.Some? ==> r.value < |s| && s[r.value] == '/' && '/' !in s[r.value + 1..]
  {
    if |s| == 0 then None
    else if s[|s| - 1] == '/' then Some(|s| - 1)
    else
      var r := LastSlash(s[..|s| - 1]);
      assert r.Some? ==> s[r.value + 1..] == s[..|s| - 1][r.value + 1..] + [s[|s| - 1]];
      r
  }

  /** `w.rsplit("/", 1)[0]`: everything before the last '/'. */
  function Subfolder(w: string): (r: string)
    requires '/' in w
    ensures |r| < |w| && r == w[..|r|] && w[|r|] == '/'
    ensures '/' !in w[|r| + 1..]
  {
    w[..LastSlash(w).value]
  }

  /** `os.path.basename(w)`: everything after the last '/', or all of `w`. */
  function Basename(w: string): (r: string)
    ensures '/' !in r
    ensures '/' !in w ==> r == w
    ensures '/' in w ==> w == Subfolder(w) + "/" + r
  {
    match LastSlash(w)
    case None => w
    case Some(i) =>
      assert w == w[..i] + "/" + w[i + 1..];
      w[i + 1..]
  }

  /** The id's basename is also the first component of its subfolder, as
      in `a/a` or `a/x/a`: the checked path `dest/sub/name` is then a
      directory on the way to the raw-file target `dest/sub/sub/name`. */
  predicate BasenameRepeatsFirstComponent(id: string)
    requires '/' in id
  {
    var lead, base := Subfolder(id) + "/", Basename(id) + "/";
    |base| <= |lead| && lead[..|base|] == base
  }

  /** A path component that `os.path.join` appends rather than restarts from. */
  predicate Relative(p: string)
  {
    |p| > 0 && p[0] != '/'
  }

  /** Two-argument `os.path.join` of POSIX Python. */
  function Join(a: string, b: string): (r: string)
    ensures a != "" && a[|a| - 1] != '/' && !(|b| > 0 && b[0] == '/') ==> r == a + "/" + b
  {
    if |b| > 0 && b[0] == '/' then b
    else if a == "" || a[|a| - 1] == '/' then a + b
    else a + "/" + b
  }

  /** Collapses every run of '/' into a single '/'. */
  function Collapse(p: string): (r: string)
    ensures |r| <= |p|
  {
    if |p| <= 1 then p
    else if p[0] == '/' && p[1] == '/' then Collapse(p[1..])
    else [p[0]] + Collapse(p[1..])
  }

  /** Drops one trailing '/', except from the root path "/". */
  function StripTrailing(p: string): string
  {
    if |p| > 1 && p[|p| - 1] == '/' then p[..|p| - 1] else p
  }

  /** The canonical spelling of a path: two paths with the same canonical
      spelling name the same file. */
  function Canon(p: string): string
  {
    StripTrailing(Collapse(p))
  }

  /** A doubled '/' is the same as a single one. */
  lemma {:induction false} CollapseDoubleSlash(u: string, v: string)
    ensures Collapse(u + "//" + v) == Collapse(u + "/" + v)
  {
    if u == [] {
      assert u + "//" + v == ['/', '/'] + v;
      assert u + "/" + v == ['/'] + v;
      assert (['/', '/'] + v)[1..] == ['/'] + v;
    } else {
      var u' := u[1..];
      assert u + "//" + v == [u[0]] + (u' + "//" + v);
      assert u + "/" + v == [u[0]] + (u' + "/" + v);
      assert (u + "//" + v)[1..] == u' + "//" + v;
      assert (u + "/" + v)[1..] == u' + "/" + v;
      CollapseDoubleSlash(u', v);
      if u' == [] {
        assert (u + "//" + v)[1] == '/' && (u + "/" + v)[1] == '/';
      } else {
        assert (u + "//" + v)[1] == u'[0] == (u + "/" + v)[1];
      }
    }
  }

  /** A non-empty path keeps its last character under `Collapse`. */
  lemma {:induction false} CollapseKeepsLast(p: string)
    requires |p| > 0
    ensures |Collapse(p)| > 0 && Collapse(p)[|Collapse(p)| - 1] == p[|p| - 1]
  {
    if |p| > 1 {
      CollapseKeepsLast(p[1..]);
    }
  }

  /** A '/' added after a last character that is not '/' survives `Collapse`. */
  lemma {:induction false} CollapseAppendSlash(p: string)
    requires |p| > 0 && p[|p| - 1] != '/'
    ensures Collapse(p + "/") == Collapse(p) + "/"
  {
    var q := p + "/";
    assert q[0] == p[0] && q[1] == (if |p| > 1 then p[1] else '/');
    if |p| > 1 {
      assert q[1..] == p[1..] + "/";
      CollapseAppendSlash(p[1..]);
    } else {
      assert q[1..] == "/";
    }
  }

  /** A trailing '/' does not change which file a non-empty path names. */
  lemma CanonTrailingSlash(p: string)
    requires p != ""
    ensures Canon(p + "/") == Canon(p)
  {
    if p[|p| - 1] == '/' {
      var u := p[..|p| - 1];
      assert p == u + "/" + "" && p + "/" == u + "//" + "";
      CollapseDoubleSlash(u, "");
    } else {
      CollapseAppendSlash(p);
      CollapseKeepsLast(p);
    }
  }

  /** So `a + "/" + b` names the same file as `os.path.join(a, b)`, for a
      non-empty `a` and a `b` that does not start with '/'. */
  lemma SlashJoinSameFile(a: string, b: string)
    requires a != ""
    requires !(|b| > 0 && b[0] == '/')
    ensures Canon(a + "/" + b) == Canon(Join(a, b))
  {
    if a[|a| - 1] == '/' {
      var a' := a[..|a| - 1];
      assert a == a' + "/";
      assert a + "/" + b == a' + "//" + b;
      assert Join(a, b) == a' + "/" + b;
      CollapseDoubleSlash(a', b);
    }
  }

  /** `os.path.join(os.path.join(a, b), c)` names the same file as
      `a + "/" + b + "/" + c` when `b` and `c` are relative. */
  lemma JoinTwiceSameFile(a: string, b: string, c: string)
    requires a != "" && Relative(b)
    requires !(|c| > 0 && c[0] == '/')
    ensures Canon(Join(Join(a, b), c)) == Canon(a + "/" + b + "/" + c)
  {
    var ab := Join(a, b);
    var bc := b + "/" + c;
    if a[|a| - 1] == '/' {
      var a' := a[..|a| - 1];
      assert a == a' + "/";
      assert ab == a' + "/" + b;
      assert ab + "/" + c == a' + "/" + bc;
      assert a + "/" + b + "/" + c == a' + "//" + bc;
      CollapseDoubleSlash(a', bc);
    } else {
      assert ab == a + "/" + b;
    }
    SlashJoinSameFile(ab, c);
  }

  /** The number of characters of `p` that are not '/': the letters of its
      components, which no respelling of the path changes. */
  function Letters(p: string): nat
  {
    if p == [] then 0 else (if p[0] == '/' then 0 else 1) + Letters(p[1..])
  }

  lemma {:induction false} LettersConcat(a: string, b: string)
    ensures Letters(a + b) == Letters(a) + Letters(b)
  {
    if a != [] {
      assert (a + b)[0] == a[0] && (a + b)[1..] == a[1..] + b;
      LettersConcat(a[1..], b);
    } else {
      assert a + b == b;
    }
  }

  /** A string without '/' is all letters. */
  lemma {:induction false} LettersOfComponent(c: string)
    requires '/' !in c
    ensures Letters(c) == |c|
  {
    if c != [] {
      assert '/' !in c[1..] by {
        forall i | 0 <= i < |c[1..]| ensures c[1..][i] != '/' { assert c[1..][i] == c[i + 1]; }
      }
      LettersOfComponent(c[1..]);
    }
  }

  lemma {:induction false} LettersCollapse(p: string)
    ensures Letters(Collapse(p)) == Letters(p)
  {
    if |p| > 1 {
      LettersCollapse(p[1..]);
      if !(p[0] == '/' && p[1] == '/') {
        assert ([p[0]] + Collapse(p[1..]))[1..] == Collapse(p[1..]);
      }
    }
  }

  /** Two paths with different letter counts never name the same file. */
  lemma LettersCanon(p: string)
    ensures Letters(Canon(p)) == Letters(p)
  {
    var c := Collapse(p);
    LettersCollapse(p);
    if |c| > 1 && c[|c| - 1] == '/' {
      assert c == c[..|c| - 1] + "/";
      LettersConcat(c[..|c| - 1], "/");
    }
  }

  lemma LettersJoin(a: string, b: string)
    requires !(|b| > 0 && b[0] == '/')
    ensures Letters(Join(a, b)) == Letters(a) + Letters(b)
  {
    LettersConcat(a, b);
    LettersConcat(a + "/", b);
    LettersConcat(a, "/");
  }
}
