/**
 * The list-building pattern of the project reader: walk elements in document
 * order and append a record for each element that yields one.
 */
module Sequences {
  import opened Wrappers

  /** The records `f` yields for the elements of `s`, in the order of `s`. */
  function FilterMap<A, B>(s: seq<A>, f: A -> Option<B>): (r: seq<B>)
    ensures |r| <= |s|
  {
    if s == [] then []
    else FilterMap(s[..|s| - 1], f) + Yield(f(s[|s| - 1]))
  }

  /** What one element contributes: its record, or nothing. */
  function Yield<B>(o: Option<B>): (r: seq<B>)
    ensures |r| <= 1
    ensures o.Some? ==> r == [o.value]
  {
    match o
    case Some(b) => [b]
    case None => []
  }

  /** The positions of the elements of `s` that yield a record, ascending. */
  function Selected<A, B>(s: seq<A>, f: A -> Option<B>): (idx: seq<nat>)
  {
    if s == [] then []
    else Selected(s[..|s| - 1], f) + (if f(s[|s| - 1]).Some? then [|s| - 1] else [])
  }

  lemma Reassociate<T>(s: seq<T>, t: seq<T>, u: seq<T>)
    ensures (s + t) + u == s + (t + u)
  {
  }

  lemma {:induction false} FilterMapStep<A, B>(s: seq<A>, x: A, f: A -> Option<B>)
    ensures FilterMap(s + [x], f) == FilterMap(s, f) + Yield(f(x))
    ensures Selected(s + [x], f) == Selected(s, f) + (if f(x).Some? then [|s|] else [])
  {
    assert (s + [x])[..|s|] == s;
  }

  /** Filtering distributes over concatenation: the records of a longer
      document are those of its first part followed by those of the rest. */
  lemma {:induction false} FilterMapAppend<A, B>(a: seq<A>, b: seq<A>, f: A -> Option<B>)
    ensures FilterMap(a + b, f) == FilterMap(a, f) + FilterMap(b, f)
    decreases |b|
  {
    if b == [] {
      assert a + b == a;
    } else {
      var b' := b[..|b| - 1];
      assert a + b == (a + b') + [b[|b| - 1]];
      assert b == b' + [b[|b| - 1]];
      FilterMapStep(a + b', b[|b| - 1], f);
      FilterMapStep(b', b[|b| - 1], f);
      FilterMapAppend(a, b', f);
    }
  }

  /** The output is exactly the order-preserving selection of the yielding
      elements: the k-th record comes from the k-th yielding position, the
      positions ascend, and every position that yields is among them. */
  lemma {:induction false} FilterMapIsOrderedSelection<A, B>(s: seq<A>, f: A -> Option<B>)
    ensures var r, idx := FilterMap(s, f), Selected(s, f);
      && |idx| == |r|
      && (forall k :: 0 <= k < |idx| ==> idx[k] < |s| && f(s[idx[k]]) == Some(r[k]))
      && (forall k, l :: 0 <= k < l < |idx| ==> idx[k] < idx[l])
      && (forall i :: 0 <= i < |s| && f(s[i]).Some? ==> i in idx)
  {
    SelectedYieldsRecords(s, f);
    SelectedAscending(s, f);
    SelectedComplete(s, f);
  }

  lemma {:induction false} SelectedYieldsRecords<A, B>(s: seq<A>, f: A -> Option<B>)
    ensures var r, idx := FilterMap(s, f), Selected(s, f);
      && |idx| == |r|
      && forall k :: 0 <= k < |idx| ==> idx[k] < |s| && f(s[idx[k]]) == Some(r[k])
  {
    if s != [] {
      var s', x := s[..|s| - 1], s[|s| - 1];
      SelectedYieldsRecords(s', f);
      var r, idx, r', idx' := FilterMap(s, f), Selected(s, f), FilterMap(s', f), Selected(s', f);
      assert r == r' + Yield(f(x));
      assert idx == idx' + (if f(x).Some? then [|s| - 1] else []);
      forall k | 0 <= k < |idx|
        ensures idx[k] < |s| && f(s[idx[k]]) == Some(r[k])
      {
        if k < |idx'| {
          assert idx[k] == idx'[k] && r[k] == r'[k] && s[idx'[k]] == s'[idx'[k]];
        } else {
          assert idx[k] == |s| - 1 && r[k] == f(x).value;
        }
      }
    }
  }

  lemma {:induction false} SelectedAscending<A, B>(s: seq<A>, f: A -> Option<B>)
    ensures forall k :: 0 <= k < |Selected(s, f)| ==> Selected(s, f)[k] < |s|
    ensures forall k, l :: 0 <= k < l < |Selected(s, f)| ==> Selected(s, f)[k] < Selected(s, f)[l]
  {
    if s != [] {
      var s' := s[..|s| - 1];
      SelectedAscending(s', f);
      var idx, idx' := Selected(s, f), Selected(s', f);
      assert idx == idx' + (if f(s[|s| - 1]).Some? then [|s| - 1] else []);
      forall k | 0 <= k < |idx|
        ensures idx[k] < |s| && (k < |idx'| ==> idx[k] == idx'[k] < |s| - 1)
      {
        if k < |idx'| {
          assert idx[k] == idx'[k] && idx'[k] < |s'|;
        } else {
          assert idx[k] == |s| - 1;
        }
      }
      forall k, l | 0 <= k < l < |idx|
        ensures idx[k] < idx[l]
      {
        if l < |idx'| {
          assert idx[k] == idx'[k] && idx[l] == idx'[l];
        } else {
          assert idx[l] == |s| - 1 && idx[k] == idx'[k] && idx'[k] < |s'|;
        }
      }
    }
  }

  lemma {:induction false} SelectedComplete<A, B>(s: seq<A>, f: A -> Option<B>)
    ensures forall i :: 0 <= i < |s| && f(s[i]).Some? ==> i in Selected(s, f)
  {
    if s != [] {
      var s' := s[..|s| - 1];
      SelectedComplete(s', f);
      assert Selected(s, f) == Selected(s', f) + (if f(s[|s| - 1]).Some? then [|s| - 1] else []);
      forall i | 0 <= i < |s| - 1 && f(s[i]).Some?
        ensures i in Selected(s, f)
      {
        assert s'[i] == s[i];
      }
    }
  }

  /** A record is produced iff some element yields it. */
  lemma {:induction false} FilterMapMember<A, B>(s: seq<A>, f: A -> Option<B>, y: B)
    ensures y in FilterMap(s, f) <==> exists i :: 0 <= i < |s| && f(s[i]) == Some(y)
  {
    FilterMapIsOrderedSelection(s, f);
    var r, idx := FilterMap(s, f), Selected(s, f);
    if y in r {
      var k :| 0 <= k < |r| && r[k] == y;
      assert f(s[idx[k]]) == Some(y);
    }
    if i :| 0 <= i < |s| && f(s[i]) == Some(y) {
      var k :| 0 <= k < |idx| && idx[k] == i;
      assert r[k] == y;
    }
  }
}
