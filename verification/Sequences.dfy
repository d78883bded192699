/** Counting and selecting rows of a table kept as a sequence. */
module Sequences {

  function Count<T>(s: seq<T>, p: T -> bool): nat
  {
    if s == [] then 0 else Count(s[..|s| - 1], p) + (if p(s[|s| - 1]) then 1 else 0)
  }

  lemma {:induction false} CountMonotone<T>(s: seq<T>, t: seq<T>, p: T -> bool)
    requires |s| == |t| && forall k :: 0 <= k < |s| && p(s[k]) ==> p(t[k])
    ensures Count(s, p) <= Count(t, p)
  {
    if s != [] {
      CountMonotone(s[..|s| - 1], t[..|t| - 1], p);
    }
  }

  lemma CountCongruent<T>(s: seq<T>, t: seq<T>, p: T -> bool)
    requires |s| == |t| && forall k :: 0 <= k < |s| ==> p(s[k]) == p(t[k])
    ensures Count(s, p) == Count(t, p)
  {
    CountMonotone(s, t, p);
    CountMonotone(t, s, p);
  }

  lemma {:induction false} CountUpdate<T>(s: seq<T>, i: nat, x: T, p: T -> bool)
    requires i < |s|
    ensures Count(s[i := x], p) + (if p(s[i]) then 1 else 0) == Count(s, p) + (if p(x) then 1 else 0)
  {
    var n := |s| - 1;
    if i < n {
      CountUpdate(s[..n], i, x, p);
      assert s[i := x][..n] == s[..n][i := x];
    } else {
      assert s[i := x][..n] == s[..n];
    }
  }

  lemma {:induction false} CountAppend<T>(s: seq<T>, t: seq<T>, p: T -> bool)
    ensures Count(s + t, p) == Count(s, p) + Count(t, p)
  {
    if t == [] {
      assert s + t == s;
    } else {
      var n := |t| - 1;
      assert (s + t)[..|s + t| - 1] == s + t[..n];
      CountAppend(s, t[..n], p);
    }
  }

  lemma {:induction false} CountNone<T>(s: seq<T>, p: T -> bool)
    requires forall k :: 0 <= k < |s| ==> !p(s[k])
    ensures Count(s, p) == 0
  {
    if s != [] {
      CountNone(s[..|s| - 1], p);
    }
  }

  lemma {:induction false} CountEvery<T>(s: seq<T>, p: T -> bool)
    requires forall k :: 0 <= k < |s| ==> p(s[k])
    ensures Count(s, p) == |s|
  {
    if s != [] {
      CountEvery(s[..|s| - 1], p);
    }
  }

  /** Positions whose element satisfies `p`, in order. */
  function Positions<T>(s: seq<T>, p: T -> bool): (r: seq<nat>)
    ensures |r| == Count(s, p)
    ensures forall k :: k in r <==> 0 <= k < |s| && p(s[k])
    ensures forall k, m :: 0 <= k < m < |r| ==> r[k] < r[m]
  {
    if s == [] then []
    else
      var init := Positions(s[..|s| - 1], p);
      assert forall k :: 0 <= k < |init| ==> init[k] in init;
      if p(s[|s| - 1]) then init + [|s| - 1] else init
  }

  lemma {:induction false} PositionsCongruent<T>(s: seq<T>, t: seq<T>, p: T -> bool)
    requires |s| == |t| && forall k :: 0 <= k < |s| ==> p(s[k]) == p(t[k])
    ensures Positions(s, p) == Positions(t, p)
  {
    if s != [] {
      PositionsCongruent(s[..|s| - 1], t[..|t| - 1], p);
    }
  }

  lemma {:induction false} PositionsNoneAppended<T>(s: seq<T>, t: seq<T>, p: T -> bool)
    requires forall k :: 0 <= k < |t| ==> !p(t[k])
    ensures Positions(s + t, p) == Positions(s, p)
  {
    if t == [] {
      assert s + t == s;
    } else {
      var n := |t| - 1;
      assert (s + t)[..|s + t| - 1] == s + t[..n];
      PositionsNoneAppended(s, t[..n], p);
    }
  }

  function Range(from: nat, n: nat): seq<nat>
  {
    if n == 0 then [] else Range(from, n - 1) + [from + n - 1]
  }

  lemma {:induction false} RangeAt(from: nat, n: nat)
    ensures |Range(from, n)| == n && forall k :: 0 <= k < n ==> Range(from, n)[k] == from + k
  {
    if n > 0 {
      RangeAt(from, n - 1);
    }
  }

  lemma PositionsStep<T>(s: seq<T>, p: T -> bool)
    requires s != [] && p(s[|s| - 1])
    ensures Positions(s, p) == Positions(s[..|s| - 1], p) + [|s| - 1]
  {
  }

  lemma AppendInit<T>(s: seq<T>, t: seq<T>)
    requires t != []
    ensures (s + t)[..|s + t| - 1] == s + t[..|t| - 1] && (s + t)[|s + t| - 1] == t[|t| - 1]
  {
  }

  lemma {:induction false} PositionsAllAppended<T>(s: seq<T>, t: seq<T>, p: T -> bool)
    requires forall k :: 0 <= k < |s| ==> !p(s[k])
    requires forall k :: 0 <= k < |t| ==> p(t[k])
    ensures Positions(s + t, p) == Range(|s|, |t|)
  {
    if t == [] {
      assert s + t == s;
      CountNone(s, p);
    } else {
      var n := |t| - 1;
      PositionsAllAppended(s, t[..n], p);
      AppendInit(s, t);
      hide Positions;
      PositionsStep(s + t, p);
    }
  }

  /** Last element satisfying `p` is at this position, if there is one. */
  function LastPosition<T>(s: seq<T>, p: T -> bool): (r: int)
    ensures -1 <= r < |s|
    ensures r >= 0 ==> p(s[r])
    ensures forall k :: r < k < |s| ==> !p(s[k])
  {
    if s == [] then -1
    else if p(s[|s| - 1]) then |s| - 1
    else LastPosition(s[..|s| - 1], p)
  }

  function Inc(s: seq<nat>, i: nat): (r: seq<nat>)
    ensures |r| == |s|
  {
    if i < |s| then s[i := s[i] + 1] else s
  }
}
