/** Small facts about sequences that the loops and recursive definitions of
    the model use to step from one prefix to the next. */
module Seqs {
  import opened Wrappers

  /** The values `f` gives for the elements it maps to something, in order. */
  function FilterMap<A, B>(f: A -> Option<B>, xs: seq<A>): (r: seq<B>)
    ensures |r| <= |xs|
  {
    if xs == [] then []
    else
      var x := xs[|xs| - 1];
      FilterMap(f, xs[..|xs| - 1]) + (if f(x).Some? then [f(x).value] else [])
  }

  /** One more element adds its value, if it has one. */
  lemma FilterMapSnoc<A, B>(f: A -> Option<B>, xs: seq<A>, x: A)
    ensures FilterMap(f, xs + [x]) == FilterMap(f, xs) + (if f(x).Some? then [f(x).value] else [])
  {
    assert (xs + [x])[..|xs|] == xs;
  }

  /** A value is listed exactly when some element maps to it. */
  lemma {:induction false} FilterMapMembers<A, B>(f: A -> Option<B>, xs: seq<A>)
    ensures forall b :: b in FilterMap(f, xs) <==> exists i :: 0 <= i < |xs| && f(xs[i]) == Some(b)
  {
    if xs != [] {
      var init := xs[..|xs| - 1];
      var x := xs[|xs| - 1];
      FilterMapMembers(f, init);
      forall b ensures b in FilterMap(f, xs) <==> exists i :: 0 <= i < |xs| && f(xs[i]) == Some(b) {
        if b in FilterMap(f, init) {
          var i :| 0 <= i < |init| && f(init[i]) == Some(b);
          assert xs[i] == init[i];
        }
        if exists i :: 0 <= i < |xs| && f(xs[i]) == Some(b) {
          var i :| 0 <= i < |xs| && f(xs[i]) == Some(b);
          if i < |init| {
            assert init[i] == xs[i];
          }
        }
      }
    }
  }
  /** The next prefix is the current one and the next element. */
  lemma PrefixStep<T>(s: seq<T>, k: nat)
    requires k < |s|
    ensures s[..k + 1] == s[..k] + [s[k]]
  {
  }

  /** A non-empty sequence is its head in front of its tail. */
  lemma HeadTail<T>(s: seq<T>)
    requires s != []
    ensures [s[0]] + s[1..] == s
  {
  }

  /** Some item of `pre + [x]` satisfies `P` exactly when some item of
      `pre` does or `x` does. */
  lemma ExistsSnoc<T>(P: T -> bool, pre: seq<T>, x: T)
    ensures (exists j :: 0 <= j < |pre + [x]| && P((pre + [x])[j]))
            <==> (exists j :: 0 <= j < |pre| && P(pre[j])) || P(x)
  {
    var ext := pre + [x];
    if exists j :: 0 <= j < |pre| && P(pre[j]) {
      var j :| 0 <= j < |pre| && P(pre[j]);
      assert ext[j] == pre[j];
    }
    assert ext[|pre|] == x;
  }

  /** The full prefix is the sequence itself. */
  lemma PrefixAll<T>(s: seq<T>)
    ensures s[..|s|] == s
  {
  }

  /** A property of every item survives putting one more such item in front. */
  lemma AllCons<T>(P: T -> bool, t: T, rest: seq<T>)
    requires P(t) && forall i :: 0 <= i < |rest| ==> P(rest[i])
    ensures forall i :: 0 <= i < |[t] + rest| ==> P(([t] + rest)[i])
  {
    forall i | 0 <= i < |[t] + rest| ensures P(([t] + rest)[i]) {
      if i > 0 {
        assert ([t] + rest)[i] == rest[i - 1];
      }
    }
  }
}
