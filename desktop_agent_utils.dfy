/** Helpers of the desktop agent (src/runners/desktop-agent-utils.js): the
    purchase-intent guard and the brace-matching extraction of the first JSON
    object from a model reply. The JSON parser is a parameter. */
module DesktopAgentUtils {
  import opened Wrappers
  import opened Strings
  import opened Json

  /** The words that mark a step as a purchase, in Portuguese and English. */
  const PurchaseKeywords: seq<string> := [
    "checkout", "payment", "pagar", "pagamento",
    "comprar", "finalizar compra", "finalizar", "confirm purchase",
    "place order", "buy now", "finalizar pedido"]

  /** `detectPurchaseIntent`: the lower-cased text contains a purchase keyword. */
  function DetectPurchaseIntent(text: string): (r: bool)
    ensures r <==> exists h :: h in PurchaseKeywords && Contains(Lower(text), h)
  {
    AnyContained(Lower(text), PurchaseKeywords)
  }

  /** One occurrence of a keyword is enough. */
  lemma PurchaseIntentWitness(text: string, h: string, k: int)
    requires h in PurchaseKeywords && OccursAt(Lower(text), h, k)
    ensures DetectPurchaseIntent(text)
  {
    ContainsIff(Lower(text), h);
  }

  /** 'vamos comprar agora' and 'go to checkout and pay' show purchase intent. */
  lemma PurchaseIntentExamples()
    ensures DetectPurchaseIntent("vamos comprar agora")
    ensures DetectPurchaseIntent("go to checkout and pay")
  {
    BuyingInPortuguese();
    CheckoutInEnglish();
  }

  lemma BuyingInPortuguese()
    ensures DetectPurchaseIntent("vamos comprar agora")
  {
    assert "comprar" == PurchaseKeywords[4];
    assert Lower("vamos comprar agora")[6..13] == "comprar";
    PurchaseIntentWitness("vamos comprar agora", "comprar", 6);
  }

  lemma CheckoutInEnglish()
    ensures DetectPurchaseIntent("go to checkout and pay")
  {
    assert "checkout" == PurchaseKeywords[0];
    assert Lower("go to checkout and pay")[6..14] == "checkout";
    PurchaseIntentWitness("go to checkout and pay", "checkout", 6);
  }

  /** The change of brace depth a character causes. */
  function Step(c: char): int
  {
    if c == '{' then 1 else if c == '}' then -1 else 0
  }

  /** The number of '{' minus the number of '}' in `t`. */
  function Depth(t: string): int
  {
    if t == [] then 0 else Depth(t[..|t| - 1]) + Step(t[|t| - 1])
  }

  /** The depth of `s[a..k+1]`, the slice from `a` through `k`. */
  function DepthThrough(s: string, a: nat, k: nat): int
    requires a <= k < |s|
  {
    Depth(s[a..k + 1])
  }

  /** The first `j' >= j` at which the depth of `s[i..j'+1]` is zero, or -1. */
  function BalancedEnd(s: string, i: nat, j: nat): (r: int)
    requires i <= j <= |s|
    ensures r == -1 || j <= r < |s|
    ensures r >= 0 ==> DepthThrough(s, i, r) == 0 && forall k :: j <= k < r ==> DepthThrough(s, i, k) != 0
    ensures r == -1 ==> forall k :: j <= k < |s| ==> DepthThrough(s, i, k) != 0
    decreases |s| - j
  {
    if j == |s| then -1
    else if DepthThrough(s, i, j) == 0 then j
    else BalancedEnd(s, i, j + 1)
  }

  /** `s[a..b+1]` opens with '{' and is the shortest slice from `a` whose
      braces balance. */
  predicate MinimalBalanced(s: string, a: int, b: int)
  {
    0 <= a <= b < |s| && s[a] == '{' && DepthThrough(s, a, b) == 0
    && forall k :: a <= k < b ==> DepthThrough(s, a, k) != 0
  }

  /** The balanced slice from a '{' is the one `BalancedEnd` finds. */
  lemma BalancedEndUnique(s: string, a: nat, b: nat)
    requires a < |s| && s[a] == '{'
    ensures MinimalBalanced(s, a, b) <==> BalancedEnd(s, a, a) == b
  {

  }

  /** Each character moves the depth by its own step. */
  lemma DepthThroughStep(s: string, a: nat, k: nat)
    requires a <= k < |s|
    ensures DepthThrough(s, a, k) == (if k == a then 0 else DepthThrough(s, a, k - 1)) + Step(s[k])
  {
    var t := s[a..k + 1];
    assert t[..|t| - 1] == s[a..k];
    assert t[|t| - 1] == s[k];
    assert Depth(t) == Depth(s[a..k]) + Step(s[k]);
    if k > a {
      assert s[a..k] == s[a..(k - 1) + 1];
    } else {
      assert s[a..k] == [];
    }
  }

  /** Depth stays positive between an opening '{' and the point where the
      braces first balance. */
  lemma {:induction false} DepthPositive(s: string, a: nat, k: nat)
    requires a <= k < |s| && s[a] == '{'
    requires forall m :: a <= m <= k ==> DepthThrough(s, a, m) != 0
    ensures DepthThrough(s, a, k) >= 1
  {
    DepthThroughStep(s, a, k);
    if k > a {
      DepthPositive(s, a, k - 1);
    }
  }

  /** A minimal balanced slice ends with the '}' that closes its first '{'. */
  lemma CandidateShape(s: string, a: int, b: int)
    requires MinimalBalanced(s, a, b)
    ensures a < b && s[b] == '}'
  {
    DepthThroughStep(s, a, a);
    assert a < b;
    DepthPositive(s, a, b - 1);
    DepthThroughStep(s, a, b);
  }

  /** The scan of the source from index `i`: at each '{', the shortest balanced
      slice is handed to the parser; the first that parses is the result. */
  function ScanFrom(s: string, i: nat, parse: string -> Option<Json>): Option<Json>
    requires i <= |s|
    decreases |s| - i
  {
    if i == |s| then None
    else if s[i] != '{' then ScanFrom(s, i + 1, parse)
    else
      var e := BalancedEnd(s, i, i);
      if e >= 0 && parse(s[i..e + 1]).Some? then parse(s[i..e + 1])
      else ScanFrom(s, i + 1, parse)
  }

  /** Positions without a '{' do not change the scan. */
  lemma {:induction false} ScanSkips(s: string, i: nat, start: nat, parse: string -> Option<Json>)
    requires i <= start <= |s|
    requires forall k :: i <= k < start ==> s[k] != '{'
    ensures ScanFrom(s, i, parse) == ScanFrom(s, start, parse)
    decreases start - i
  {
    if i < start {
      ScanSkips(s, i + 1, start, parse);
    }
  }

  /** What `parseFirstJsonObject` returns, `text` being the string it reads. */
  function FirstJsonObject(s: string, parse: string -> Option<Json>): (r: Option<Json>)
    ensures IndexOf(s, "{") == -1 ==> r.None?
    ensures r == ScanFrom(s, 0, parse)
  {
    var start := IndexOf(s, "{");
    if start == -1 then
      assert forall k :: 0 <= k < |s| ==> s[k] != '{' by {
        forall k | 0 <= k < |s| ensures s[k] != '{' { OccursCharAt(s, '{', k); }
      }
      ScanSkips(s, 0, |s|, parse);
      None
    else
      assert forall k :: 0 <= k < start ==> s[k] != '{' by {
        forall k | 0 <= k < start ensures s[k] != '{' { OccursCharAt(s, '{', k); }
      }
      ScanSkips(s, 0, start, parse);
      ScanFrom(s, start, parse)
  }

  /** `parseFirstJsonObject`: the outer index loop over the text. */
  method ParseFirstJsonObject(s: string, parse: string -> Option<Json>) returns (r: Option<Json>)
    ensures r == FirstJsonObject(s, parse)
  {
    var start := IndexOf(s, "{");
    if start == -1 {
      return None;
    }
    var i := start;
    while i < |s|
      invariant start <= i <= |s|
      invariant ScanFrom(s, i, parse) == FirstJsonObject(s, parse)
    {
      if s[i] == '{' {
        var found := MatchingBrace(s, i);
        if found != -1 {
          var parsed := parse(s[i..found + 1]);
          if parsed.Some? {
            return parsed;
          }
        }
      }
      i := i + 1;
    }
    return None;
  }

  /** The inner loop of `parseFirstJsonObject`: the depth counter run from
      `i` until the braces first balance. */
  method MatchingBrace(s: string, i: nat) returns (found: int)
    requires i < |s|
    ensures found == BalancedEnd(s, i, i)
  {
    var depth := 0;
    var j := i;
    found := -1;
    while j < |s| && found == -1
      invariant i <= j <= |s|
      invariant depth == Depth(s[i..j])
      invariant found == -1 ==> BalancedEnd(s, i, j) == BalancedEnd(s, i, i)
      invariant found != -1 ==> found == BalancedEnd(s, i, i)
    {
      DepthSliceStep(s, i, j);
      if s[j] == '{' {
        depth := depth + 1;
      } else if s[j] == '}' {
        depth := depth - 1;
      }
      if depth == 0 {
        found := j;
      }
      j := j + 1;
    }
  }

  /** One more character of the slice moves its depth by that character's step. */
  lemma DepthSliceStep(s: string, i: nat, j: nat)
    requires i <= j < |s|
    ensures Depth(s[i..j + 1]) == Depth(s[i..j]) + Step(s[j])
  {
    var t := s[i..j + 1];
    assert t[..|t| - 1] == s[i..j];
    assert t[|t| - 1] == s[j];
  }

  /** A result is the parse of a minimal balanced slice starting at or after `i`. */
  lemma {:induction false} ScanFromSound(s: string, i: nat, parse: string -> Option<Json>)
    requires i <= |s|
    ensures ScanFrom(s, i, parse).Some? ==>
              exists a, b :: i <= a && MinimalBalanced(s, a, b) && parse(s[a..b + 1]) == ScanFrom(s, i, parse)
    decreases |s| - i
  {
    if i < |s| {
      ScanFromSound(s, i + 1, parse);
      if s[i] == '{' {
        var e := BalancedEnd(s, i, i);
        if e >= 0 && parse(s[i..e + 1]).Some? {
          BalancedEndUnique(s, i, e);
          assert MinimalBalanced(s, i, e);
        }
      }
    }
  }

  /** The result is the parse of the leftmost minimal balanced slice that parses. */
  lemma {:induction false} ScanFromLeast(s: string, i: nat, a: nat, b: nat, parse: string -> Option<Json>)
    requires i <= a && MinimalBalanced(s, a, b) && parse(s[a..b + 1]).Some?
    requires forall a2, b2 :: i <= a2 < a && MinimalBalanced(s, a2, b2) ==> parse(s[a2..b2 + 1]).None?
    ensures ScanFrom(s, i, parse) == parse(s[a..b + 1])
    decreases a - i
  {
    if i == a {
      BalancedEndUnique(s, a, b);
    } else {
      if s[i] == '{' {
        var e := BalancedEnd(s, i, i);
        if e >= 0 {
          BalancedEndUnique(s, i, e);
        }
      }
      ScanFromLeast(s, i + 1, a, b, parse);
    }
  }

  /** Nothing is found when no minimal balanced slice parses. */
  lemma {:induction false} ScanFromNone(s: string, i: nat, parse: string -> Option<Json>)
    requires i <= |s|
    requires forall a, b :: i <= a && MinimalBalanced(s, a, b) ==> parse(s[a..b + 1]).None?
    ensures ScanFrom(s, i, parse).None?
    decreases |s| - i
  {
    if i < |s| {
      if s[i] == '{' {
        var e := BalancedEnd(s, i, i);
        if e >= 0 {
          BalancedEndUnique(s, i, e);
        }
      }
      ScanFromNone(s, i + 1, parse);
    }
  }

  /** Something is found when some minimal balanced slice at or after `i` parses. */
  lemma {:induction false} ScanFromSome(s: string, i: nat, a: nat, b: nat, parse: string -> Option<Json>)
    requires i <= a && MinimalBalanced(s, a, b) && parse(s[a..b + 1]).Some?
    ensures ScanFrom(s, i, parse).Some?
    decreases a - i
  {
    if i == a {
      BalancedEndUnique(s, a, b);
    } else {
      ScanFromSome(s, i + 1, a, b, parse);
    }
  }

  /** A result of `parseFirstJsonObject` is the parse of a slice that opens with
      '{', closes with '}' and is the shortest one from its start whose braces
      balance. */
  lemma FirstJsonObjectSound(s: string, parse: string -> Option<Json>)
    ensures FirstJsonObject(s, parse).Some? ==>
              exists a, b :: MinimalBalanced(s, a, b) && parse(s[a..b + 1]) == FirstJsonObject(s, parse)
                             && a < b && s[b] == '}'
  {
    ScanFromSound(s, 0, parse);
    if FirstJsonObject(s, parse).Some? {
      var a, b :| 0 <= a && MinimalBalanced(s, a, b) && parse(s[a..b + 1]) == FirstJsonObject(s, parse);
      CandidateShape(s, a, b);
    }
  }

  /** Start positions are tried from left to right: the leftmost slice that
      parses is the result. */
  lemma FirstJsonObjectLeftmost(s: string, a: nat, b: nat, parse: string -> Option<Json>)
    requires MinimalBalanced(s, a, b) && parse(s[a..b + 1]).Some?
    requires forall a2, b2 :: 0 <= a2 < a && MinimalBalanced(s, a2, b2) ==> parse(s[a2..b2 + 1]).None?
    ensures FirstJsonObject(s, parse) == parse(s[a..b + 1])
  {
    ScanFromLeast(s, 0, a, b, parse);
  }

  /** Null comes back exactly when no minimal balanced slice parses. */
  lemma FirstJsonObjectNone(s: string, parse: string -> Option<Json>)
    ensures FirstJsonObject(s, parse).None? <==>
              forall a, b :: MinimalBalanced(s, a, b) ==> parse(s[a..b + 1]).None?
  {
    if forall a, b :: MinimalBalanced(s, a, b) ==> parse(s[a..b + 1]).None? {
      ScanFromNone(s, 0, parse);
    } else {
      var a, b :| MinimalBalanced(s, a, b) && parse(s[a..b + 1]).Some?;
      ScanFromSome(s, 0, a, b, parse);
    }
  }


  /** A minimal balanced slice stays one when text is put around it. */
  lemma MinimalBalancedInContext(x: string, t: string, y: string, b: nat)
    requires MinimalBalanced(t, 0, b)
    ensures MinimalBalanced(x + t + y, |x|, |x| + b)
  {
    var s := x + t + y;
    forall k | 0 <= k <= b ensures DepthThrough(s, |x|, |x| + k) == DepthThrough(t, 0, k) {
      assert s[|x|..|x| + k + 1] == t[0..k + 1];
    }
    assert s[|x|] == t[0];
    forall k | |x| <= k < |x| + b ensures DepthThrough(s, |x|, k) != 0 {
      assert DepthThrough(s, |x|, |x| + (k - |x|)) == DepthThrough(t, 0, k - |x|);
    }
  }

  /** The object of the extraction example: its braces first balance at its
      last character. */
  lemma NestedObjectBalanced()
    ensures MinimalBalanced("{\"a\":1,\"b\":{\"c\":2}}", 0, 18)
  {
    var t := "{\"a\":1,\"b\":{\"c\":2}}";
    DepthThroughStep(t, 0, 0);
    DepthThroughStep(t, 0, 1);
    DepthThroughStep(t, 0, 2);
    DepthThroughStep(t, 0, 3);
    DepthThroughStep(t, 0, 4);
    DepthThroughStep(t, 0, 5);
    DepthThroughStep(t, 0, 6);
    DepthThroughStep(t, 0, 7);
    DepthThroughStep(t, 0, 8);
    DepthThroughStep(t, 0, 9);
    DepthThroughStep(t, 0, 10);
    DepthThroughStep(t, 0, 11);
    DepthThroughStep(t, 0, 12);
    DepthThroughStep(t, 0, 13);
    DepthThroughStep(t, 0, 14);
    DepthThroughStep(t, 0, 15);
    DepthThroughStep(t, 0, 16);
    DepthThroughStep(t, 0, 17);
    DepthThroughStep(t, 0, 18);
  }

  /** Text around a nested object: the whole object, inner braces included, is
      the slice handed to the parser, and its parse is the result. */
  lemma NestedObjectExample(parse: string -> Option<Json>)
    ensures var t := "{\"a\":1,\"b\":{\"c\":2}}";
      var s := "hello " + t + " trailing";
      MinimalBalanced(s, 6, 24) && s[6..25] == t
      && (parse(t).Some? ==> FirstJsonObject(s, parse) == parse(t))
  {
    var t := "{\"a\":1,\"b\":{\"c\":2}}";
    var s := "hello " + t + " trailing";
    NestedObjectBalanced();
    MinimalBalancedInContext("hello ", t, " trailing", 18);
    assert s[6..25] == t;
    if parse(t).Some? {
      FirstJsonObjectLeftmost(s, 6, 24, parse);
    }
  }
}
