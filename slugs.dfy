/** Project-id slugs, computed the same way by the project registry
    (src/services/project-manager.js, `_slugifyId`) and the setup script
    (scripts/init-projects.js, `slugify`): trim, lower-case, turn each run of
    characters outside [a-z0-9] into one '-', and strip '-' from both ends. */
module Slugs {
  import opened Strings

  /** A slug: only [a-z0-9-], no '-' at either end and no two '-' in a row. */
  predicate IsSlug(s: string)
  {
    (forall i :: 0 <= i < |s| ==> IsLowerAlnum(s[i]) || s[i] == '-')
    && (s != [] ==> s[0] != '-' && s[|s| - 1] != '-')
    && (forall i :: 0 <= i < |s| - 1 ==> s[i] == '-' ==> s[i + 1] != '-')
  }

  /** Characters in [a-z0-9-] with no two '-' in a row. */
  predicate Dashed(s: string)
  {
    (forall i :: 0 <= i < |s| ==> IsLowerAlnum(s[i]) || s[i] == '-')
    && (forall i :: 0 <= i < |s| - 1 ==> s[i] == '-' ==> s[i + 1] != '-')
  }

  /** The text after a leading run of characters outside [a-z0-9]. */
  function SkipNonAlnum(s: string): (r: string)
    ensures |r| <= |s| && (r == [] || IsLowerAlnum(r[0]))
  {
    if s != [] && !IsLowerAlnum(s[0]) then SkipNonAlnum(s[1..]) else s
  }

  /** `replace(/[^a-z0-9]+/g, '-')`. */
  function Dashify(s: string): (r: string)
    ensures Dashed(r)
    ensures s == [] ==> r == []
    ensures s != [] && IsLowerAlnum(s[0]) ==> r != [] && r[0] == s[0]
    decreases |s|
  {
    if s == [] then []
    else if IsLowerAlnum(s[0]) then [s[0]] + Dashify(s[1..])
    else "-" + Dashify(SkipNonAlnum(s))
  }

  /** `replace(/^-+/, '')`. */
  function TrimDashStart(s: string): (r: string)
    ensures |r| <= |s| && r == s[|s| - |r|..]
    ensures r == [] || r[0] != '-'
    ensures (s == [] || s[0] != '-') ==> r == s
  {
    if s != [] && s[0] == '-' then TrimDashStart(s[1..]) else s
  }

  /** `replace(/-+$/, '')`. */
  function TrimDashEnd(s: string): (r: string)
    ensures |r| <= |s| && r == s[..|r|]
    ensures r == [] || r[|r| - 1] != '-'
    ensures (s == [] || s[|s| - 1] != '-') ==> r == s
  {
    if s != [] && s[|s| - 1] == '-' then TrimDashEnd(s[..|s| - 1]) else s
  }

  /** A dashed text with its end dashes stripped is a slug. */
  lemma TrimDashesSlug(s: string)
    requires Dashed(s)
    ensures IsSlug(TrimDashEnd(TrimDashStart(s)))
  {
    var t := TrimDashStart(s);
    DashedSlice(s, |s| - |t|, |s|);
    var r := TrimDashEnd(t);
    DashedSlice(t, 0, |r|);
    if r != [] {
      assert r[0] == t[0];
    }
  }

  /** A slice of a dashed text is dashed. */
  lemma DashedSlice(s: string, a: nat, b: nat)
    requires Dashed(s) && a <= b <= |s|
    ensures Dashed(s[a..b])
  {
    var t := s[a..b];
    forall i | 0 <= i < |t| - 1 && t[i] == '-' ensures t[i + 1] != '-' {
      assert t[i] == s[a + i] && t[i + 1] == s[a + i + 1];
    }
  }

  /** `_slugifyId(name)` / `slugify(value)`; a missing value is the empty
      string. */
  function Slugify(value: string): (r: string)
    ensures IsSlug(r)
  {
    var d := Dashify(Lower(Trim(value)));
    TrimDashesSlug(d);
    TrimDashEnd(TrimDashStart(d))
  }

  /** A dashed text is its own dashing. */
  lemma {:induction false} DashifyKeepsDashed(s: string)
    requires Dashed(s)
    ensures Dashify(s) == s
    decreases |s|
  {
    if s != [] {
      if IsLowerAlnum(s[0]) {
        DashifyKeepsDashed(s[1..]);
      } else {
        assert s[1..] == [] || IsLowerAlnum(s[1]);
        assert SkipNonAlnum(s) == s[1..];
        DashifyKeepsDashed(s[1..]);
      }
    }
  }

  /** A slug is its own slug. */
  lemma SlugifyKeepsSlug(s: string)
    requires IsSlug(s)
    ensures Slugify(s) == s
  {
    if s != [] {
      assert !IsSpace(s[0]) && !IsSpace(s[|s| - 1]);
      TrimVisibleEnds(s);
    }
    LowerOfLowercase(s);
    DashifyKeepsDashed(s);
  }

  /** Slugifying is idempotent. */
  lemma SlugifyIdempotent(value: string)
    ensures Slugify(Slugify(value)) == Slugify(value)
  {
    SlugifyKeepsSlug(Slugify(value));
  }
}
