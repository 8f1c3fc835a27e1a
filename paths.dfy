/** POSIX path and repository-URL text handling shared by the project
    registry (src/services/project-manager.js) and the inbound command
    handlers (src/services/inbound-core.js): the repository name of a clone
    URL, `path.normalize` on a relative path, and the check that a relative
    folder stays under the development root. */
module Paths {
  import opened Wrappers
  import opened Strings

  /** A slice of a text lacks every character the text lacks. */
  lemma AbsentInSlice(s: string, c: char, i: nat, j: nat)
    requires i <= j <= |s| && c !in s
    ensures c !in s[i..j]
  {
    forall k | 0 <= k < j - i ensures s[i..j][k] != c {
      assert s[i..j][k] == s[i + k];
    }
  }

  /** `s.split(c)[0]`: the text before the first `c`. */
  function BeforeFirst(s: string, c: char): (r: string)
    ensures c !in r
    ensures |r| <= |s| && r == s[..|r|]
    ensures c !in s ==> r == s
  {
    var i := IndexOf(s, [c]);
    SplitPoint(s, c);
    if i < 0 then s else s[..i]
  }

  /** `s.replace(/c+$/, '')` for a character `c`. */
  function TrimEndChar(s: string, c: char): (r: string)
    ensures |r| <= |s| && r == s[..|r|]
    ensures r == [] || r[|r| - 1] != c
    ensures s == [] || s[|s| - 1] != c ==> r == s
  {
    if s != [] && s[|s| - 1] == c then TrimEndChar(s[..|s| - 1], c) else s
  }

  /** `s.split(c).pop()`: the text after the last `c`. */
  function AfterLast(s: string, c: char): (r: string)
    ensures c !in r
    ensures |r| <= |s| && r == s[|s| - |r|..]
    ensures |r| < |s| ==> s[|s| - |r| - 1] == c
  {
    var i := LastIndexOf(s, [c]);
    OccursCharAt(s, c, i);
    if i < 0 then
      forall j | 0 <= j < |s| ensures s[j] != c {
        OccursCharAt(s, c, j);
      }
      s
    else
      var t := s[i + 1..];
      forall j | 0 <= j < |t| ensures t[j] != c {
        assert t[j] == s[i + 1 + j];
        OccursCharAt(s, c, i + 1 + j);
      }
      t
  }

  /** The name part of `_inferNameFromRepoUrl` on the URL without its query:
      trailing '/' removed, the last segment taken and a final ".git"
      dropped. */
  function NameOfPath(noQuery: string): (r: string)
    ensures '/' !in r
  {
    var last := AfterLast(TrimEndChar(noQuery, '/'), '/');
    if EndsWith(last, ".git") then
      AbsentInSlice(last, '/', 0, |last| - 4);
      last[..|last| - 4]
    else last
  }

  /** The name holds no character the path lacks. */
  lemma NameOfPathKeepsAbsent(noQuery: string, c: char)
    requires c !in noQuery
    ensures c !in NameOfPath(noQuery)
  {
    var stripped := TrimEndChar(noQuery, '/');
    var last := AfterLast(stripped, '/');
    AbsentInSlice(noQuery, c, 0, |stripped|);
    AbsentInSlice(stripped, c, |stripped| - |last|, |stripped|);
    if EndsWith(last, ".git") {
      AbsentInSlice(last, c, 0, |last| - 4);
    }
  }

  /** `_inferNameFromRepoUrl(repoUrl)` and `repoBasename(url)`: the last path
      segment of the trimmed URL without its query and trailing '/', with a
      final ".git" dropped; the empty string for a blank URL. */
  function RepoName(url: string): (r: string)
    ensures IsBlank(url) ==> r == []
    ensures '/' !in r && '?' !in r
  {
    var s := Trim(url);
    if s == [] then []
    else
      NameOfPathKeepsAbsent(BeforeFirst(s, '?'), '?');
      NameOfPath(BeforeFirst(s, '?'))
  }

  /** The name of the path "base/name.git" is `name`. */
  lemma NameOfClonePath(base: string, name: string)
    requires '/' !in name
    ensures NameOfPath(base + "/" + name + ".git") == name
  {
    var seg := name + ".git";
    GitSegment(name);
    var path := base + "/" + seg;
    assert base + "/" + name + ".git" == path;
    assert path[|path| - 1] == seg[|seg| - 1] == 't';
    LastSegment(base, seg);
  }

  /** "name.git" holds no '/' when `name` holds none, and dropping its
      ".git" gives back `name`. */
  lemma GitSegment(name: string)
    requires '/' !in name
    ensures '/' !in name + ".git"
    ensures EndsWith(name + ".git", ".git") && (name + ".git")[..|name|] == name
  {
    var seg := name + ".git";
    forall k | 0 <= k < |seg| ensures seg[k] != '/' {
      if k < |name| {
        assert seg[k] == name[k];
      } else {
        assert seg[k] == ".git"[k - |name|];
      }
    }
    assert seg[|seg| - 4..] == ".git";
  }

  /** The name of a clone URL "base/name.git", optionally followed by a
      query, is `name`. */
  lemma RepoNameOfCloneUrl(base: string, name: string, query: string)
    requires '?' !in base && '?' !in name && '/' !in name
    requires query == [] || query[0] == '?'
    requires Trim(base + "/" + name + ".git" + query) == base + "/" + name + ".git" + query
    ensures RepoName(base + "/" + name + ".git" + query) == name
  {
    var path := base + "/" + name + ".git";
    ClonePathNoQuery(base, name);
    BeforeQuery(path, query);
    NameOfClonePath(base, name);
  }

  /** "base/name.git" holds no '?' when neither part does. */
  lemma ClonePathNoQuery(base: string, name: string)
    requires '?' !in base && '?' !in name
    ensures '?' !in base + "/" + name + ".git"
  {
    var path := base + "/" + name + ".git";
    forall k | 0 <= k < |path| ensures path[k] != '?' {
      if k < |base| {
        assert path[k] == base[k];
      } else if k > |base| && k <= |base| + |name| {
        assert path[k] == name[k - |base| - 1];
      }
    }
  }

  /** Cutting at the first '?' removes exactly the query. */
  lemma BeforeQuery(path: string, query: string)
    requires '?' !in path
    requires query == [] || query[0] == '?'
    ensures BeforeFirst(path + query, '?') == path
  {
    if query != [] {
      FirstSeparator(path, '?', query[1..]);
      assert path + ['?'] + query[1..] == path + query;
    }
  }

  /** The text after the last '/' of "a/b" is `b` when `b` holds no '/'. */
  lemma LastSegment(a: string, b: string)
    requires '/' !in b
    ensures AfterLast(a + "/" + b, '/') == b
  {
    var s := a + "/" + b;
    var r := AfterLast(s, '/');
    assert s[|a|] == '/';
    forall k | |s| - |r| <= k < |s| ensures s[k] != '/' {
      assert s[k] == r[k - (|s| - |r|)];
    }
    forall k | |a| < k < |s| ensures s[k] != '/' {
      assert s[k] == b[k - |a| - 1];
    }
    assert |r| == |b|;
    assert s[|s| - |b|..] == b;
  }

  // ---------------------------------------------------------------------
  // path.normalize on a relative POSIX path

  /** One segment of `path.normalize`: empty and "." segments vanish, ".."
      removes the segment before it unless that is a ".." as well. */
  function PushSegment(acc: seq<string>, seg: string): seq<string>
  {
    if seg == "" || seg == "." then acc
    else if seg == ".." then
      if acc != [] && acc[|acc| - 1] != ".." then acc[..|acc| - 1] else acc + [".."]
    else acc + [seg]
  }

  /** The segments `path.normalize` keeps, left to right. */
  function NormalizeSegments(segs: seq<string>): seq<string>
    decreases |segs|
  {
    if segs == [] then [] else PushSegment(NormalizeSegments(segs[..|segs| - 1]), segs[|segs| - 1])
  }

  /** Normalised segments: none is empty or ".", and ".." occurs only in a
      leading run. */
  predicate Normalized(segs: seq<string>)
  {
    (forall i :: 0 <= i < |segs| ==> segs[i] != "" && segs[i] != ".")
    && (forall i, j :: 0 <= i < j < |segs| && segs[j] == ".." ==> segs[i] == "..")
  }

  /** No segment holds a '/'. */
  predicate NoSlash(segs: seq<string>)
  {
    forall i :: 0 <= i < |segs| ==> '/' !in segs[i]
  }

  /** A step keeps the segments normalised and free of '/'. */
  lemma PushSegmentNormalized(acc: seq<string>, seg: string)
    requires Normalized(acc) && NoSlash(acc) && '/' !in seg
    ensures Normalized(PushSegment(acc, seg)) && NoSlash(PushSegment(acc, seg))
  {
    if seg == ".." && acc != [] && acc[|acc| - 1] != ".." {
      var r := acc[..|acc| - 1];
      assert forall i :: 0 <= i < |r| ==> r[i] == acc[i];
    }
  }

  /** Normalising gives normalised segments. */
  lemma {:induction false} NormalizeSegmentsNormalized(segs: seq<string>)
    requires NoSlash(segs)
    ensures Normalized(NormalizeSegments(segs)) && NoSlash(NormalizeSegments(segs))
    decreases |segs|
  {
    if segs != [] {
      var init := segs[..|segs| - 1];
      assert NoSlash(init) by {
        assert forall i :: 0 <= i < |init| ==> init[i] == segs[i];
      }
      NormalizeSegmentsNormalized(init);
      PushSegmentNormalized(NormalizeSegments(init), segs[|segs| - 1]);
    }
  }

  /** Normalised segments normalise to themselves, so normalising twice is
      normalising once. */
  lemma {:induction false} NormalizeSegmentsFixed(segs: seq<string>)
    requires Normalized(segs)
    ensures NormalizeSegments(segs) == segs
    decreases |segs|
  {
    if segs != [] {
      var init := segs[..|segs| - 1];
      var last := segs[|segs| - 1];
      assert Normalized(init) by {
        assert forall i :: 0 <= i < |init| ==> init[i] == segs[i];
      }
      NormalizeSegmentsFixed(init);
      if last == ".." && init != [] {
        assert init[|init| - 1] == segs[|segs| - 2] == "..";
      }
      assert init + [last] == segs;
    }
  }

  /** The segments of a relative path after normalisation. */
  function PathSegments(rel: string): (segs: seq<string>)
    ensures Normalized(segs) && NoSlash(segs)
  {
    NormalizeSegmentsNormalized(Split(rel, '/'));
    NormalizeSegments(Split(rel, '/'))
  }

  /** `path.normalize(rel)` for a relative path: the kept segments joined by
      '/', or "." when none is left. */
  function NormalizePath(rel: string): string
  {
    var segs := PathSegments(rel);
    if segs == [] then "." else Join(segs, "/")
  }

  /** The traversal test on the normalised text: it is ".." or starts with
      "../". */
  predicate IsTraversal(norm: string)
  {
    norm == ".." || StartsWith(norm, "../")
  }

  /** A text that starts with a '/'-free, non-empty segment followed by
      nothing or by a '/' is a traversal exactly when that segment is "..". */
  lemma LeadingSegment(first: string, tail: string)
    requires first != [] && '/' !in first
    requires tail == [] || tail[0] == '/'
    ensures IsTraversal(first + tail) <==> first == ".."
  {
    var norm := first + tail;
    if |first| >= 3 {
      assert norm[2] == first[2];
    } else if |first| == 2 {
      assert norm[..2] == first;
      if tail != [] {
        assert norm[2] == '/';
      }
    } else {
      assert norm[0] == first[0];
      if tail != [] {
        assert norm[1] == '/';
      }
    }
  }

  /** The normalised path climbs out of its base exactly when its first
      kept segment is "..". */
  lemma TraversalIffLeadingDotDot(rel: string)
    ensures IsTraversal(NormalizePath(rel)) <==> PathSegments(rel) != [] && PathSegments(rel)[0] == ".."
  {
    var segs := PathSegments(rel);
    if segs != [] {
      if |segs| == 1 {
        assert Join(segs, "/") == segs[0] + [];
        LeadingSegment(segs[0], []);
      } else {
        JoinCons(segs, "/");
        var tail := "/" + Join(segs[1..], "/");
        assert Join(segs, "/") == segs[0] + tail;
        LeadingSegment(segs[0], tail);
      }
    }
  }

  // ---------------------------------------------------------------------
  // _resolveUnderDevelopmentRoot

  const MissingPath: string := "Missing path"
  const AbsolutePath: string :=
    "Absolute paths are not allowed here; provide a relative folder under DEVELOPMENT_ROOT"
  const PathTraversal: string := "Path traversal is not allowed"
  const OutsideRoot: string := "Resolved path is outside DEVELOPMENT_ROOT"

  /** `path.resolve(root, name)` for an absolute, resolved `root` and a
      normalised relative `name` that does not climb: `name` under `root`. */
  function ChildPath(root: string, name: string): (r: string)
    ensures EndsWith(r, name)
  {
    if root == "/" then "/" + name else root + "/" + name
  }

  /** `_resolveUnderDevelopmentRoot(relPath)` under the resolved development
      root `root`: the trimmed path must be non-empty, relative and must not
      climb out after normalisation, and the resolved path must be the root
      or start with the root and '/'. */
  function ResolveUnderRoot(root: string, relPath: string): (r: Result<string, string>)
    ensures IsBlank(relPath) ==> r == Failure(MissingPath)
    ensures !IsBlank(relPath) && Trim(relPath)[0] == '/' ==> r == Failure(AbsolutePath)
    ensures !IsBlank(relPath) && Trim(relPath)[0] != '/' ==>
              (r == Failure(PathTraversal) <==> IsTraversal(NormalizePath(Trim(relPath))))
    ensures r.Success? ==> r.value == root || StartsWith(r.value, root + "/")
  {
    var rel := Trim(relPath);
    if rel == [] then Failure(MissingPath)
    else if rel[0] == '/' then Failure(AbsolutePath)
    else
      var norm := NormalizePath(rel);
      if IsTraversal(norm) then Failure(PathTraversal)
      else
        var full := if norm == "." then root else ChildPath(root, norm);
        if !(full == root || StartsWith(full, root + "/")) then Failure(OutsideRoot)
        else Success(full)
  }

  /** Under any root other than "/", a relative path that does not climb
      resolves to the root itself or to its kept segments, none of them
      "..", below the root; the outside-root error never happens. */
  lemma ResolveStaysUnderRoot(root: string, relPath: string)
    requires root != "/"
    requires !IsBlank(relPath) && Trim(relPath)[0] != '/'
    requires !IsTraversal(NormalizePath(Trim(relPath)))
    ensures ResolveUnderRoot(root, relPath).Success?
    ensures var segs := PathSegments(Trim(relPath));
            ".." !in segs
            && ResolveUnderRoot(root, relPath).value == (if segs == [] then root else root + "/" + Join(segs, "/"))
  {
    var rel := Trim(relPath);
    var segs := PathSegments(rel);
    TraversalIffLeadingDotDot(rel);
    if segs != [] {
      var first := segs[0];
      assert first != "..";
      forall j | 0 < j < |segs| ensures segs[j] != ".." {
        assert segs[j] == ".." ==> first == "..";
      }
      var norm := Join(segs, "/");
      assert norm != "." by {
        if |segs| == 1 {
          assert norm == segs[0];
        } else {
          JoinCons(segs, "/");
          assert norm == segs[0] + "/" + Join(segs[1..], "/");
          assert |norm| > 1;
        }
      }
      assert (root + "/" + norm)[..|root + "/"|] == root + "/";
    }
  }

  /** Joined kept segments start with the first segment's first character,
      which is not '/', and are not ".". */
  lemma JoinedSegments(segs: seq<string>)
    requires segs != [] && Normalized(segs) && NoSlash(segs)
    ensures var norm := Join(segs, "/");
            norm != [] && norm[0] != '/' && norm != "."
  {
    var norm := Join(segs, "/");
    JoinStartsWithFirst(segs, "/");
    assert segs[0] != "" && '/' !in segs[0];
    assert norm[0] == segs[0][0];
    assert norm != "." by {
      if |segs| >= 2 {
        JoinCons(segs, "/");
        assert |norm| > 1;
      } else {
        assert norm == segs[0];
      }
    }
  }

  /** Below the root "/", a path is not the root and does not start with
      "//". */
  lemma SlashRootCheckFails(norm: string)
    requires norm != [] && norm[0] != '/'
    ensures var full := "/" + norm; full != "/" && !StartsWith(full, "/" + "/")
  {
    var full := "/" + norm;
    assert full[1] == norm[0];
  }

  /** Under the root "/", every relative path that keeps a segment and does
      not climb is refused as outside the root, although it resolves below
      it: "/" + "/" is not a prefix of "/a". */
  lemma RootDirRefusesSubfolders(relPath: string)
    requires !IsBlank(relPath) && Trim(relPath)[0] != '/'
    requires !IsTraversal(NormalizePath(Trim(relPath)))
    requires PathSegments(Trim(relPath)) != []
    ensures ResolveUnderRoot("/", relPath) == Failure(OutsideRoot)
  {
    var rel := Trim(relPath);
    var segs := PathSegments(rel);
    JoinedSegments(segs);
    var norm := NormalizePath(rel);
    assert norm == Join(segs, "/");
    SlashRootCheckFails(norm);
    assert ChildPath("/", norm) == "/" + norm;
  }

  /** The root check with the separator added only when the root does not
      end with one, as the code evidently intends. */
  function ResolveUnderRootFixed(root: string, relPath: string): (r: Result<string, string>)
    ensures IsBlank(relPath) ==> r == Failure(MissingPath)
    ensures !IsBlank(relPath) && Trim(relPath)[0] == '/' ==> r == Failure(AbsolutePath)
    ensures r.Success? ==> r.value == root || StartsWith(r.value, if EndsWith(root, "/") then root else root + "/")
  {
    var rel := Trim(relPath);
    if rel == [] then Failure(MissingPath)
    else if rel[0] == '/' then Failure(AbsolutePath)
    else
      var norm := NormalizePath(rel);
      if IsTraversal(norm) then Failure(PathTraversal)
      else
        var full := if norm == "." then root else ChildPath(root, norm);
        var prefix := if EndsWith(root, "/") then root else root + "/";
        if !(full == root || StartsWith(full, prefix)) then Failure(OutsideRoot)
        else Success(full)
  }

  /** The fixed check accepts every path below the root. */
  lemma FixedCheckPasses(root: string, norm: string)
    ensures StartsWith(ChildPath(root, norm), if EndsWith(root, "/") then root else root + "/")
  {
    var full := ChildPath(root, norm);
    if root == "/" {
      assert full[..1] == "/";
    } else if EndsWith(root, "/") {
      assert full[..|root|] == root;
    } else {
      assert full[..|root| + 1] == root + "/";
    }
  }

  /** With the fixed check, no root refuses a relative path that does not
      climb: the result is the root or a path below it. */
  lemma FixedStaysUnderRoot(root: string, relPath: string)
    requires !IsBlank(relPath) && Trim(relPath)[0] != '/'
    requires !IsTraversal(NormalizePath(Trim(relPath)))
    ensures ResolveUnderRootFixed(root, relPath).Success?
  {
    FixedCheckPasses(root, NormalizePath(Trim(relPath)));
  }
}
