/**
 * Order-preserving selection from a sequence, the shape shared by pandas'
 * boolean row indexing and Python's filtering list comprehension.
 */
module Selection {

  predicate StrictlyIncreasing(ix: seq<nat>) {
    forall a, b :: 0 <= a < b < |ix| ==> ix[a] < ix[b]
  }

  /** The positions at or after `i` whose element satisfies `keep`, in increasing order. */
  function SelectFrom<T>(s: seq<T>, keep: T -> bool, i: nat): (ix: seq<nat>)
    requires i <= |s|
    ensures |ix| <= |s| - i
    ensures forall k :: 0 <= k < |ix| ==> i <= ix[k] < |s|
    decreases |s| - i
  {
    if i == |s| then []
    else
      var head: seq<nat> := if keep(s[i]) then [i] else [];
      var rest := SelectFrom(s, keep, i + 1);
      assert forall k :: |head| <= k < |head + rest| ==> (head + rest)[k] == rest[k - |head|];
      head + rest
  }

  /** Every selected position holds an element `keep` accepts. */
  lemma {:induction false} SelectFromSound<T>(s: seq<T>, keep: T -> bool, i: nat)
    requires i <= |s|
    ensures forall k :: 0 <= k < |SelectFrom(s, keep, i)| ==>
      i <= SelectFrom(s, keep, i)[k] < |s| && keep(s[SelectFrom(s, keep, i)[k]])
    decreases |s| - i
  {
    if i < |s| {
      SelectFromSound(s, keep, i + 1);
      var rest := SelectFrom(s, keep, i + 1);
      var head: seq<nat> := if keep(s[i]) then [i] else [];
      var ix := SelectFrom(s, keep, i);
      assert ix == head + rest;
      forall k | 0 <= k < |ix| ensures i <= ix[k] < |s| && keep(s[ix[k]]) {
        if k >= |head| {
          assert ix[k] == rest[k - |head|];
        }
      }
    }
  }

  /** Every position at or after `i` whose element `keep` accepts is selected. */
  lemma {:induction false} SelectFromComplete<T>(s: seq<T>, keep: T -> bool, i: nat)
    requires i <= |s|
    ensures forall j :: i <= j < |s| && keep(s[j]) ==> j in SelectFrom(s, keep, i)
    decreases |s| - i
  {
    if i < |s| {
      SelectFromComplete(s, keep, i + 1);
      var rest := SelectFrom(s, keep, i + 1);
      var head: seq<nat> := if keep(s[i]) then [i] else [];
      assert SelectFrom(s, keep, i) == head + rest;
    }
  }

  /** The selected positions are strictly increasing, so the selection keeps the input's order. */
  lemma {:induction false} SelectFromIncreasing<T>(s: seq<T>, keep: T -> bool, i: nat)
    requires i <= |s|
    ensures StrictlyIncreasing(SelectFrom(s, keep, i))
    decreases |s| - i
  {
    if i < |s| {
      SelectFromIncreasing(s, keep, i + 1);
      SelectFromSound(s, keep, i + 1);
      var rest := SelectFrom(s, keep, i + 1);
      var head: seq<nat> := if keep(s[i]) then [i] else [];
      var ix := SelectFrom(s, keep, i);
      assert ix == head + rest;
      forall a, b | 0 <= a < b < |ix| ensures ix[a] < ix[b] {
        assert ix[b] == rest[b - |head|];
        if a >= |head| {
          assert ix[a] == rest[a - |head|];
        }
      }
    }
  }

  /** The elements that satisfy `keep`, in their original order. */
  function Filter<T(!new)>(s: seq<T>, keep: T -> bool): (r: seq<T>)
    ensures |r| == |SelectFrom(s, keep, 0)| <= |s|
    ensures forall k :: 0 <= k < |r| ==> r[k] == s[SelectFrom(s, keep, 0)[k]]
    ensures forall x :: x in r <==> x in s && keep(x)
  {
    var ix := SelectFrom(s, keep, 0);
    SelectFromSound(s, keep, 0);
    SelectFromComplete(s, keep, 0);
    var r := seq(|ix|, k requires 0 <= k < |ix| => s[ix[k]]);
    assert forall x :: x in s && keep(x) ==> x in r by {
      forall x | x in s && keep(x) ensures x in r {
        var j :| 0 <= j < |s| && s[j] == x;
        assert j in ix;
        var k :| 0 <= k < |ix| && ix[k] == j;
        assert r[k] == x;
      }
    }
    r
  }
}
