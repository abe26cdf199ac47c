/**
 * The managed-camera filter of `get_camera_list` (src/main.rs:149-156): the
 * records whose `managed` flag is set, in the order the appliance sent them.
 */
module Listing {
  import opened Camera

  /** `a` can be obtained from `b` by deleting elements: either skip `b[0]`, or match it. */
  predicate IsSubsequence<T(==)>(a: seq<T>, b: seq<T>)
    decreases |b|
  {
    if |a| == 0 then true
    else if |b| == 0 then false
    else (a[0] == b[0] && IsSubsequence(a[1..], b[1..])) || IsSubsequence(a, b[1..])
  }

  predicate AllManaged(s: seq<CameraData>) {
    forall i :: 0 <= i < |s| ==> s[i].managed
  }

  /** The records of `data` whose `managed` flag is set, in their original order. */
  function Managed(data: seq<CameraData>): (r: seq<CameraData>)
    ensures AllManaged(r)
    ensures IsSubsequence(r, data)
    ensures |r| <= |data|
  {
    if |data| == 0 then []
    else if data[0].managed then [data[0]] + Managed(data[1..])
    else Managed(data[1..])
  }

  /** The filter keeps every managed record as often as it occurs, and no other record. */
  lemma {:induction false} ManagedMultiplicity(data: seq<CameraData>, c: CameraData)
    ensures multiset(Managed(data))[c] == if c.managed then multiset(data)[c] else 0
  {
    if |data| > 0 {
      var rest := data[1..];
      ManagedMultiplicity(rest, c);
      assert data == [data[0]] + rest;
      assert multiset(data)[c] == multiset([data[0]])[c] + multiset(rest)[c];
      if data[0].managed {
        assert Managed(data) == [data[0]] + Managed(rest);
        assert multiset(Managed(data))[c] == multiset([data[0]])[c] + multiset(Managed(rest))[c];
      } else {
        assert Managed(data) == Managed(rest);
      }
    }
  }

  /** A record is kept exactly when it occurs in the input and is managed. */
  lemma ManagedMembership(data: seq<CameraData>, c: CameraData)
    ensures c in Managed(data) <==> c in data && c.managed
  {
    ManagedMultiplicity(data, c);
  }

  /** No subsequence made only of managed records is longer than the filter's output. */
  lemma {:induction false} ManagedSubsequenceBound(r: seq<CameraData>, data: seq<CameraData>)
    requires IsSubsequence(r, data)
    requires AllManaged(r)
    ensures |r| <= |Managed(data)|
    decreases |data|
  {
    if |r| > 0 {
      assert |data| > 0;
      if r[0] == data[0] && IsSubsequence(r[1..], data[1..]) {
        ManagedSubsequenceBound(r[1..], data[1..]);
      } else {
        ManagedSubsequenceBound(r, data[1..]);
      }
    }
  }

  /**
   * The filter's output is the only longest subsequence of `data` whose
   * records are all managed: any subsequence of managed records that is as
   * long is the same sequence.
   */
  lemma {:induction false} ManagedIsUnique(r: seq<CameraData>, data: seq<CameraData>)
    requires IsSubsequence(r, data)
    requires AllManaged(r)
    requires |r| >= |Managed(data)|
    ensures r == Managed(data)
    decreases |data|
  {
    if |r| == 0 {
    } else {
      assert |data| > 0;
      var rest := data[1..];
      if data[0].managed {
        if r[0] == data[0] && IsSubsequence(r[1..], rest) {
          ManagedIsUnique(r[1..], rest);
          assert r == [r[0]] + r[1..];
        } else {
          ManagedSubsequenceBound(r, rest);
          assert false;
        }
      } else {
        assert r[0] != data[0];
        ManagedIsUnique(r, rest);
      }
    }
  }
}
