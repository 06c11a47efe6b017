/** The lexical part of Go's path/filepath on a Unix host (separator '/'): Clean, Join and Ext,
    and the containment test the profile extractor builds from them. */
module Paths {
  import opened Strings

  /** A name Clean keeps as an element of its result. */
  predicate Proper(e: string) {
    e != "" && e != "." && e != ".." && '/' !in e
  }

  predicate AllProper(st: seq<string>) {
    forall i :: 0 <= i < |st| ==> Proper(st[i])
  }

  /** The rules of filepath.Clean applied to the elements of a path, left to right, on top of the
      elements already kept: empty and "." elements vanish, ".." removes the last kept element
      (or is dropped at the root of a rooted path, or kept when nothing can be removed), and any
      other element is kept. */
  function Normalize(rooted: bool, kept: seq<string>, elems: seq<string>): (r: seq<string>)
    decreases |elems|
  {
    if elems == [] then kept
    else
      var e := elems[0];
      if e == "" || e == "." then Normalize(rooted, kept, elems[1..])
      else if e == ".." then
        if |kept| > 0 && kept[|kept| - 1] != ".." then Normalize(rooted, kept[..|kept| - 1], elems[1..])
        else if rooted then Normalize(rooted, kept, elems[1..])
        else Normalize(rooted, kept + [".."], elems[1..])
      else Normalize(rooted, kept + [e], elems[1..])
  }

  predicate IsRooted(p: string) { |p| > 0 && p[0] == '/' }

  /** The elements Clean keeps of a path. */
  function CleanElements(p: string): seq<string> {
    Normalize(IsRooted(p), [], Split(p, '/'))
  }

  /** filepath.Clean */
  function Clean(p: string): string {
    var kept := CleanElements(p);
    if IsRooted(p) then "/" + Join(kept, "/")
    else if kept == [] then "."
    else Join(kept, "/")
  }

  /** filepath.Join of two elements: the non-empty elements joined by '/' and cleaned, or "" when
      both are empty. */
  function JoinPath(a: string, b: string): string {
    if a != "" then Clean(a + "/" + b)
    else if b != "" then Clean(b)
    else ""
  }

  /** filepath.Ext (and path.Ext): the suffix from the last '.' of the last element, or "". */
  function Ext(p: string): (e: string)
    decreases |p|
  {
    if |p| == 0 || p[|p| - 1] == '/' then ""
    else if p[|p| - 1] == '.' then "."
    else
      var prefix := Ext(p[..|p| - 1]);
      if prefix == "" then "" else prefix + [p[|p| - 1]]
  }

  /** The extractor's test for an archive entry named `name` under `dest`. */
  predicate Contained(dest: string, name: string) {
    HasPrefix(JoinPath(dest, name), Clean(dest) + "/")
  }

  // ---- Properties of Ext ----

  lemma {:induction false} ExtIsSuffix(p: string)
    ensures HasSuffix(p, Ext(p))
    decreases |p|
  {
    if |p| > 0 && p[|p| - 1] != '/' && p[|p| - 1] != '.' {
      var q := p[..|p| - 1];
      ExtIsSuffix(q);
      if Ext(q) != "" {
        assert p[|p| - |Ext(p)|..] == q[|q| - |Ext(q)|..] + [p[|p| - 1]];
      }
    }
  }

  /** A path has extension ".zip" exactly when it ends in ".zip". */
  lemma ExtZip(p: string)
    ensures Ext(p) == ".zip" <==> HasSuffix(p, ".zip")
  {
    if HasSuffix(p, ".zip") {
      var n := |p|;
      assert p[n - 1] == 'p' && p[n - 2] == 'i' && p[n - 3] == 'z' && p[n - 4] == '.';
      assert Ext(p[..n - 3]) == "." by { assert p[..n - 3][n - 4] == '.'; }
      assert p[..n - 3][..n - 4] == p[..n - 4];
      assert Ext(p[..n - 2]) == ".z" by { assert p[..n - 2][..n - 3] == p[..n - 3]; }
      assert Ext(p[..n - 1]) == ".zi" by { assert p[..n - 1][..n - 2] == p[..n - 2]; }
    } else {
      ExtIsSuffix(p);
    }
  }

  // ---- Properties of Split needed for paths ----

  /** The elements of two paths joined by a separator are the elements of each, in turn. */
  lemma {:induction false} SplitConcat(a: string, b: string)
    ensures Split(a + "/" + b, '/') == Split(a, '/') + Split(b, '/')
  {
    if |a| == 0 {
      assert a + "/" + b == "/" + b;
    } else {
      assert (a + "/" + b)[1..] == a[1..] + "/" + b;
      SplitConcat(a[1..], b);
    }
  }

  // ---- The containment test ----

  /** Cleaning in two steps is cleaning in one: the elements of a concatenation are processed
      on top of the elements kept from its first part. */
  lemma {:induction false} NormalizeConcat(rooted: bool, kept: seq<string>, xs: seq<string>, ys: seq<string>)
    ensures Normalize(rooted, kept, xs + ys) == Normalize(rooted, Normalize(rooted, kept, xs), ys)
    decreases |xs|
  {
    if xs != [] {
      assert (xs + ys)[0] == xs[0] && (xs + ys)[1..] == xs[1..] + ys;
      var e := xs[0];
      if e == "" || e == "." {
        NormalizeConcat(rooted, kept, xs[1..], ys);
      } else if e == ".." {
        if |kept| > 0 && kept[|kept| - 1] != ".." {
          NormalizeConcat(rooted, kept[..|kept| - 1], xs[1..], ys);
        } else if rooted {
          NormalizeConcat(rooted, kept, xs[1..], ys);
        } else {
          NormalizeConcat(rooted, kept + [".."], xs[1..], ys);
        }
      } else {
        NormalizeConcat(rooted, kept + [e], xs[1..], ys);
      }
    } else {
      assert xs + ys == ys;
    }
  }

  /** Under a root, Clean keeps only proper elements. */
  lemma {:induction false} NormalizeRootedProper(kept: seq<string>, elems: seq<string>)
    requires AllProper(kept)
    requires forall i :: 0 <= i < |elems| ==> '/' !in elems[i]
    ensures AllProper(Normalize(true, kept, elems))
    decreases |elems|
  {
    if elems != [] {
      var e := elems[0];
      if e == "" || e == "." || e == ".." {
        if e == ".." && |kept| > 0 && kept[|kept| - 1] != ".." {
          NormalizeRootedProper(kept[..|kept| - 1], elems[1..]);
        } else {
          NormalizeRootedProper(kept, elems[1..]);
        }
      } else {
        NormalizeRootedProper(kept + [e], elems[1..]);
      }
    }
  }

  lemma PrefixAt(l: string, r: string, k: nat)
    requires HasPrefix(l, r) && k < |r|
    ensures l[k] == r[k]
  {
    assert l[..|r|][k] == r[k];
  }

  lemma HeadMatch(t0: string, x: string, s0: string, y: string)
    requires '/' !in t0 && '/' !in s0
    ensures HasPrefix(t0 + "/" + x, s0 + "/" + y) <==> t0 == s0 && HasPrefix(x, y)
  {
    var l, r := t0 + "/" + x, s0 + "/" + y;
    if t0 == s0 && HasPrefix(x, y) {
      assert l[..|r|] == t0 + "/" + x[..|y|];
    }
    if HasPrefix(l, r) {
      if |t0| < |s0| {
        PrefixAt(l, r, |t0|);
        assert false;
      } else if |t0| > |s0| {
        PrefixAt(l, r, |s0|);
        assert false;
      }
      assert t0 == l[..|t0|] == r[..|s0|] == s0;
      assert l[|t0| + 1..] == x && r[|s0| + 1..] == y;
      assert x[..|y|] == l[|t0| + 1..|r|];
    }
  }

  lemma NoSlashNoPrefix(t0: string, s0: string, y: string)
    requires '/' !in t0
    ensures !HasPrefix(t0, s0 + "/" + y)
  {
    if HasPrefix(t0, s0 + "/" + y) {
      PrefixAt(t0, s0 + "/" + y, |s0|);
      assert false;
    }
  }

  /** For lists of proper elements, the joined `t` starts with the joined `s` and a separator
      exactly when `s` is a proper prefix of `t`. */
  lemma {:induction false} JoinPrefix(s: seq<string>, t: seq<string>)
    requires |s| > 0 && AllProper(s) && AllProper(t)
    ensures HasPrefix(Join(t, "/"), Join(s, "/") + "/") <==> |t| > |s| && t[..|s|] == s
    decreases |s|
  {
    var y := if |s| > 1 then Join(s[1..], "/") + "/" else "";
    assert Join(s, "/") + "/" == s[0] + "/" + y;
    if |t| == 0 {
    } else if |t| == 1 {
      NoSlashNoPrefix(t[0], s[0], y);
    } else {
      assert Join(t, "/") == t[0] + "/" + Join(t[1..], "/");
      HeadMatch(t[0], Join(t[1..], "/"), s[0], y);
      if |s| > 1 {
        assert AllProper(s[1..]) && AllProper(t[1..]);
        JoinPrefix(s[1..], t[1..]);
        if t[0] == s[0] && |t[1..]| > |s[1..]| && t[1..][..|s| - 1] == s[1..] {
          assert t[..|s|] == [t[0]] + t[1..][..|s| - 1];
          assert s == [s[0]] + s[1..];
        }
        if |t| > |s| && t[..|s|] == s {
          assert t[1..][..|s| - 1] == t[..|s|][1..];
        }
      } else {
        assert HasPrefix(Join(t[1..], "/"), "");
        if t[0] == s[0] {
          assert t[..1] == [t[0]] && s == [s[0]];
        }
      }
    }
  }

  /** Joined proper elements never start with a separator. */
  lemma NoLeadingSlash(t: seq<string>)
    requires AllProper(t)
    ensures !HasPrefix(Join(t, "/"), "/")
  {
    if |t| == 1 {
      assert Join(t, "/")[0] == t[0][0];
    } else if |t| > 1 {
      assert Join(t, "/") == t[0] + "/" + Join(t[1..], "/");
      assert Join(t, "/")[0] == t[0][0];
    }
  }

  /** The elements of `name` resolved under the cleaned destination `dest`. */
  function Resolved(dest: string, name: string): seq<string> {
    Normalize(true, CleanElements(dest), Split(name, '/'))
  }

  lemma HeadStrip(x: string, y: string)
    ensures HasPrefix("/" + x, "/" + y) <==> HasPrefix(x, y)
  {
    if HasPrefix("/" + x, "/" + y) {
      assert x[..|y|] == ("/" + x)[1..|y| + 1];
    }
    if HasPrefix(x, y) {
      assert ("/" + x)[..|y| + 1] == "/" + x[..|y|];
    }
  }

  /** The extractor accepts an entry under an absolute destination exactly when the destination
      is not the root and the entry's resolved path lies strictly below it: its elements start
      with the destination's elements and have at least one more. */
  lemma ContainedIff(dest: string, name: string)
    requires IsRooted(dest)
    ensures Contained(dest, name) <==>
      |CleanElements(dest)| > 0 && |Resolved(dest, name)| > |CleanElements(dest)| &&
      Resolved(dest, name)[..|CleanElements(dest)|] == CleanElements(dest)
  {
    var S, T := CleanElements(dest), Resolved(dest, name);
    var p := dest + "/" + name;
    assert IsRooted(p) && p != "";
    SplitConcat(dest, name);
    NormalizeConcat(true, [], Split(dest, '/'), Split(name, '/'));
    assert CleanElements(p) == T;
    assert JoinPath(dest, name) == "/" + Join(T, "/");
    assert Clean(dest) + "/" == "/" + (Join(S, "/") + "/");
    NormalizeRootedProper([], Split(dest, '/'));
    NormalizeRootedProper(S, Split(name, '/'));
    HeadStrip(Join(T, "/"), Join(S, "/") + "/");
    if |S| > 0 {
      JoinPrefix(S, T);
    } else {
      NoLeadingSlash(T);
    }
  }

  /** The names Clean keeps from a list without "..": every element other than "" and ".". */
  function KeptNames(elems: seq<string>): seq<string> {
    if elems == [] then []
    else if elems[0] == "" || elems[0] == "." then KeptNames(elems[1..])
    else [elems[0]] + KeptNames(elems[1..])
  }

  lemma {:induction false} NormalizeWithoutParent(rooted: bool, kept: seq<string>, elems: seq<string>)
    requires forall i :: 0 <= i < |elems| ==> elems[i] != ".."
    ensures Normalize(rooted, kept, elems) == kept + KeptNames(elems)
    decreases |elems|
  {
    if elems != [] {
      if elems[0] == "" || elems[0] == "." {
        NormalizeWithoutParent(rooted, kept, elems[1..]);
      } else {
        NormalizeWithoutParent(rooted, kept + [elems[0]], elems[1..]);
      }
    }
  }

  /** An entry whose name has no ".." element and names at least one file or directory is
      accepted under any absolute destination other than the root. */
  lemma PlainNameAccepted(dest: string, name: string)
    requires IsRooted(dest) && |CleanElements(dest)| > 0
    requires forall i :: 0 <= i < |Split(name, '/')| ==> Split(name, '/')[i] != ".."
    requires KeptNames(Split(name, '/')) != []
    ensures Contained(dest, name)
  {
    NormalizeWithoutParent(true, CleanElements(dest), Split(name, '/'));
    ContainedIff(dest, name);
  }

  /** The entries "", "." and ".." resolve to the destination itself or to its parent, and are
      rejected. */
  lemma DestinationAndParentRejected(dest: string)
    requires IsRooted(dest)
    ensures !Contained(dest, "") && !Contained(dest, ".") && !Contained(dest, "..")
  {
    var S := CleanElements(dest);
    SplitNoSeparator("", '/');
    SplitNoSeparator(".", '/');
    SplitNoSeparator("..", '/');
    assert Resolved(dest, "") == S;
    assert Resolved(dest, ".") == S;
    NormalizeRootedProper([], Split(dest, '/'));
    assert [".."][1..] == [];
    assert |S| > 0 ==> S[|S| - 1] != "..";
    assert Resolved(dest, "..") == if |S| > 0 then S[..|S| - 1] else S;
    ContainedIff(dest, "");
    ContainedIff(dest, ".");
    ContainedIff(dest, "..");
  }

  /** An entry "../x/..." leaves the destination unless its first kept element re-enters the
      destination's own last element. */
  lemma SiblingRejected(dest: string, rest: string)
    requires IsRooted(dest) && |CleanElements(dest)| > 0
    requires forall i :: 0 <= i < |Split(rest, '/')| ==> Split(rest, '/')[i] != ".."
    requires var k := KeptNames(Split(rest, '/'));
      k == [] || k[0] != CleanElements(dest)[|CleanElements(dest)| - 1]
    ensures !Contained(dest, "../" + rest)
  {
    var S := CleanElements(dest);
    NormalizeRootedProper([], Split(dest, '/'));
    assert "../" + rest == ".." + "/" + rest;
    SplitConcat("..", rest);
    SplitNoSeparator("..", '/');
    assert Split("../" + rest, '/') == [".."] + Split(rest, '/');
    NormalizeConcat(true, S, [".."], Split(rest, '/'));
    assert Normalize(true, S, [".."]) == S[..|S| - 1];
    NormalizeWithoutParent(true, S[..|S| - 1], Split(rest, '/'));
    ContainedIff(dest, "../" + rest);
  }

  /** A destination that cleans to the root accepts nothing: the prefix it demands is "//". */
  lemma RootDestinationRejectsAll(dest: string, name: string)
    requires IsRooted(dest) && CleanElements(dest) == []
    ensures !Contained(dest, name)
  {
    ContainedIff(dest, name);
  }
}
