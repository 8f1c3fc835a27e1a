/** Extraction of the planner's JSON object from a model reply
    (src/planner/json.js): trim, prefer the inside of a ``` fence, then take
    the text from the first '{' to the last '}' and hand it to the JSON parser,
    which is a parameter here. */
module PlannerJson {
  import opened Wrappers
  import opened Strings
  import opened Json

  const Fence: string := "```"

  /** At least two non-overlapping ``` marks occur in `s`. */
  ghost predicate HasClosedFence(s: string)
  {
    exists i, j :: i + 3 <= j && OccursAt(s, Fence, i) && OccursAt(s, Fence, j)
  }

  /** No backtick is lower-cased to a letter of "json". */
  lemma TagHasNoBacktick(s: string, c: int, q: int)
    requires 0 <= c && c + 4 <= |s| && Lower(s)[c..c + 4] == "json"
    requires c <= q < c + 4
    ensures !OccursAt(s, Fence, q)
  {
    assert Lower(s)[q] == Lower(s)[c..c + 4][q - c];
    assert LowerChar(s[q]) != '`';
  }

  /** The case-insensitive regular expression ```(?:json)?\s*([\s\S]*?)\s*```:
      the first ``` mark, an optional "json" tag, and the text up to the next
      ``` mark, trimmed. None when there is no closing mark. */
  function FenceInner(s: string): (r: Option<string>)
    ensures r.Some? <==> HasClosedFence(s)
    ensures r.Some? ==> !Contains(r.value, Fence) && Trim(r.value) == r.value
  {
    var i := IndexOf(s, Fence);
    if i == -1 then None
    else
      var q := IndexOfFrom(s, Fence, i + 3);
      if q == -1 then
        assert !HasClosedFence(s) by {
          forall a, b | a + 3 <= b && OccursAt(s, Fence, a) ensures !OccursAt(s, Fence, b) {
            assert i <= a;
          }
        }
        None
      else
        var tagged := i + 7 <= |s| && Lower(s)[i + 3..i + 7] == "json";
        var c := if tagged then i + 7 else i + 3;
        assert c <= q by {
          if tagged && q < i + 7 {
            TagHasNoBacktick(s, i + 3, q);
          }
        }
        var inner := s[c..q];
        NoFenceInside(s, i + 3, q, c);
        NoFenceInTrim(inner);
        TrimIdempotent(inner);
        Some(Trim(inner))
  }

  /** An occurrence inside a slice is an occurrence in the whole string. */
  lemma OccursInSlice(s: string, p: string, c: int, d: int, j: int)
    requires 0 <= c <= d <= |s| && OccursAt(s[c..d], p, j)
    ensures OccursAt(s, p, c + j)
  {
    forall m | 0 <= m < |p| ensures s[c + j + m] == p[m] {
      assert s[c..d][j..j + |p|][m] == p[m];
    }
  }

  /** The text between two positions holds no ``` mark when the first mark at
      or after `k` is at `q`. */
  lemma NoFenceInside(s: string, k: nat, q: int, c: int)
    requires k <= c <= q && OccursAt(s, Fence, q)
    requires forall j :: k <= j < q ==> !OccursAt(s, Fence, j)
    ensures !Contains(s[c..q], Fence)
  {
    var t := s[c..q];
    ContainsIff(t, Fence);
    forall j | OccursAt(t, Fence, j) ensures false {
      OccursInSlice(s, Fence, c, q, j);
    }
  }

  /** Trimming cannot create a ``` mark. */
  lemma NoFenceInTrim(t: string)
    requires !Contains(t, Fence)
    ensures !Contains(Trim(t), Fence)
  {
    var r := Trim(t);
    var k :| OccursAt(t, r, k);
    assert r == t[k..k + |r|];
    ContainsIff(t, Fence);
    ContainsIff(r, Fence);
    forall j | OccursAt(r, Fence, j) ensures false {
      OccursInSlice(t, Fence, k, k + |r|, j);
    }
  }

  /** Some '{' occurs before some '}'. */
  predicate HasBracePair(s: string)
  {
    exists i, j :: 0 <= i < j < |s| && s[i] == '{' && s[j] == '}'
  }

  /** The slice from the first '{' to the last '}' inclusive. */
  function Candidate(s: string): (r: Option<string>)
    ensures r.Some? <==> HasBracePair(s)
    ensures r.Some? ==> |r.value| >= 2 && r.value[0] == '{' && r.value[|r.value| - 1] == '}'
    ensures r.Some? ==> exists k :: OccursAt(s, r.value, k)
    ensures r.Some? ==> forall k :: 0 <= k < |s| && s[k] == '{' ==> exists j :: OccursAt(s, r.value, j) && j <= k
  {
    var first := IndexOf(s, "{");
    var last := LastIndexOf(s, "}");
    if first == -1 || last == -1 || last <= first then
      assert !HasBracePair(s) by {
        forall i, j | 0 <= i < j < |s| && s[i] == '{' ensures s[j] != '}' {
          OccursCharAt(s, '{', i);
          OccursCharAt(s, '}', j);
          assert first != -1 && first <= i;
        }
      }
      None
    else
      OccursCharAt(s, '{', first);
      OccursCharAt(s, '}', last);
      var r := s[first..last + 1];
      assert OccursAt(s, r, first);
      forall k | 0 <= k < |s| && s[k] == '{' ensures first <= k {
        OccursCharAt(s, '{', k);
      }
      Some(r)
  }

  /** The candidate runs from the first '{' through the last '}', so nested
      and adjacent objects are kept whole. */
  lemma CandidateSpansBraces(s: string)
    requires Candidate(s).Some?
    ensures var c := Candidate(s).value;
            exists j :: (OccursAt(s, c, j)
                         && (forall k :: 0 <= k < |s| && s[k] == '{' ==> j <= k)
                         && (forall k :: 0 <= k < |s| && s[k] == '}' ==> k < j + |c|))
  {
    var first := IndexOf(s, "{");
    var last := LastIndexOf(s, "}");
    OccursCharAt(s, '{', first);
    OccursCharAt(s, '}', last);
    assert OccursAt(s, Candidate(s).value, first);
    forall k | 0 <= k < |s| && s[k] == '{' ensures first <= k {
      OccursCharAt(s, '{', k);
    }
    forall k | 0 <= k < |s| && s[k] == '}' ensures k <= last {
      OccursCharAt(s, '}', k);
    }
  }

  /** The text that is searched for braces: the fence's inner text when a
      fence with non-empty content is present, else the whole trimmed reply. */
  function SearchText(s: string): (r: string)
    ensures FenceInner(s).Some? && FenceInner(s).value != [] ==> r == FenceInner(s).value
    ensures FenceInner(s).None? ==> r == s
    ensures FenceInner(s) == Some([]) ==> r == s
  {
    var fence := FenceInner(s);
    if fence.Some? && fence.value != [] then fence.value else s
  }

  /** `parseFirstJsonObject`: `text` is None when the reply is not a string. */
  function ParseFirstJsonObject(text: Option<string>, parse: string -> Option<Json>): (r: Result<Json, string>)
    ensures text.None? ==> r == Failure("Planner output is not a string")
    ensures text.Some? && AllSpace(text.value) ==> r == Failure("Planner output is empty")
    ensures text.Some? && !AllSpace(text.value) && !HasBracePair(SearchText(Trim(text.value)))
            ==> r == Failure("Planner output does not contain a JSON object")
    ensures r.Success? ==>
              text.Some? && Candidate(SearchText(Trim(text.value))).Some? &&
              parse(Candidate(SearchText(Trim(text.value))).value) == Some(r.value)
    ensures text.Some? && !AllSpace(text.value) && Candidate(SearchText(Trim(text.value))).Some? ==>
              var c := Candidate(SearchText(Trim(text.value))).value;
              (parse(c).Some? ==> r == Success(parse(c).value))
              && (parse(c).None? ==> r == Failure("Planner output is not valid JSON"))
  {
    if text.None? then Failure("Planner output is not a string")
    else
      BlankIffAllSpace(text.value);
      var s := Trim(text.value);
      if s == [] then Failure("Planner output is empty")
      else
        var candidate := Candidate(SearchText(s));
        if candidate.None? then Failure("Planner output does not contain a JSON object")
        else
          var parsed := parse(candidate.value);
          if parsed.None? then Failure("Planner output is not valid JSON") else Success(parsed.value)
  }
}
