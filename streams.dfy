/** The stream combinators of tokio_stream's StreamExt that the server's
    stream routes use, over finite sequences of items. */
module Streams {
  import opened Wrappers

  /** StreamExt::filter_map. */
  function FilterMap<A, B>(s: seq<A>, f: A -> Option<B>): (r: seq<B>)
    ensures |r| <= |s|
  {
    if s == [] then []
    else match f(s[0])
      case Some(b) => [b] + FilterMap(s[1..], f)
      case None => FilterMap(s[1..], f)
  }

  lemma {:induction false} FilterMapAppend<A, B>(a: seq<A>, b: seq<A>, f: A -> Option<B>)
    ensures FilterMap(a + b, f) == FilterMap(a, f) + FilterMap(b, f)
  {
    if a == [] {
      assert a + b == b;
    } else {
      assert (a + b)[0] == a[0];
      assert (a + b)[1..] == a[1..] + b;
      FilterMapAppend(a[1..], b, f);
    }
  }

  /** Every item kept is the image of an input item, and every input item
      that maps to something is kept. */
  lemma {:induction false} FilterMapMembers<A, B>(s: seq<A>, f: A -> Option<B>)
    ensures forall y :: y in FilterMap(s, f) ==> exists x :: x in s && f(x) == Some(y)
    ensures forall x :: x in s && f(x).Some? ==> f(x).value in FilterMap(s, f)
  {
    if s != [] {
      FilterMapMembers(s[1..], f);
      assert forall x :: x in s ==> x == s[0] || x in s[1..];
    }
  }

  /** When nothing is dropped, filter_map is map. */
  lemma {:induction false} FilterMapTotal<A, B>(s: seq<A>, f: A -> Option<B>)
    requires forall i :: 0 <= i < |s| ==> f(s[i]).Some?
    ensures FilterMap(s, f) == seq(|s|, i requires 0 <= i < |s| => f(s[i]).value)
  {
    if s != [] {
      assert forall i :: 0 <= i < |s| - 1 ==> s[1..][i] == s[i + 1];
      FilterMapTotal(s[1..], f);
    }
  }

  /** StreamExt::take_while: the longest prefix whose items satisfy `p`. */
  function TakeWhile<A>(s: seq<A>, p: A -> bool): (r: seq<A>)
    ensures |r| <= |s| && r == s[..|r|]
    ensures forall i :: 0 <= i < |r| ==> p(r[i])
    ensures |r| < |s| ==> !p(s[|r|])
  {
    if s == [] || !p(s[0]) then []
    else
      var t := TakeWhile(s[1..], p);
      assert [s[0]] + s[1..][..|t|] == s[..1 + |t|];
      [s[0]] + t
  }

  /** StreamExt::map. */
  function Map<A, B>(s: seq<A>, f: A -> B): (r: seq<B>)
    ensures |r| == |s| && forall i :: 0 <= i < |s| ==> r[i] == f(s[i])
  {
    if s == [] then [] else [f(s[0])] + Map(s[1..], f)
  }
}
