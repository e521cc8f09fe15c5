/** Numbers, identifiers and finite-set facts shared by the whole model. */
module Basics {

  datatype Option<+T> = None | Some(value: T)

  type Byte = x: int | 0 <= x < 0x100

  /** A std::string is a sequence of bytes. */
  type Str = seq<Byte>

  /** The source's u32. Arithmetic on it wraps around. */
  type U32 = x: int | 0 <= x <= 0xFFFF_FFFF

  const U32_MAX: U32 := 0xFFFF_FFFF

  /** `x + 1` in u32 arithmetic. */
  function Succ32(x: U32): U32 {
    if x == U32_MAX then 0 else x + 1
  }

  function Max32(x: U32, y: U32): U32 {
    if x < y then y else x
  }

  /** A node's position in the list of cluster addresses. */
  type NodeId = nat

  /** The reserved name "___system_token" is a constructor of its own, so no user monitor can carry it. */
  datatype TokenId = System | Monitor(name: Str)

  predicate NoDup<T(==)>(q: seq<T>) {
    forall a, b :: 0 <= a < b < |q| ==> q[a] != q[b]
  }

  /** The nodes 0, ..., n - 1. */
  function Range(n: nat): (r: set<NodeId>)
    ensures forall j: nat :: j in r <==> j < n
    ensures |r| == n
  {
    if n == 0 then {} else Range(n - 1) + {n - 1}
  }

  /** All nodes of an n-node cluster except i. */
  function Others(n: nat, i: NodeId): set<NodeId> {
    Range(n) - {i}
  }

  lemma OthersSize(n: nat, i: NodeId)
    requires i < n
    ensures |Others(n, i)| == n - 1
  {
    assert Range(n) == Others(n, i) + {i};
  }

  lemma {:induction false} SubsetSize<T>(a: set<T>, b: set<T>)
    requires a <= b
    ensures |a| <= |b|
    ensures |a| == |b| ==> a == b
  {
    assert b == a + (b - a);
    assert |b| == |a| + |b - a|;
  }

  /** A set of peers with n - 1 members is everyone else. */
  lemma FullSet(n: nat, i: NodeId, a: set<NodeId>)
    requires i < n && a <= Others(n, i)
    ensures |a| <= n - 1
    ensures |a| >= n - 1 <==> a == Others(n, i)
  {
    OthersSize(n, i);
    SubsetSize(a, Others(n, i));
  }

  /** A sequence of distinct nodes that avoids h is shorter than n. */
  lemma {:induction false} NoDupLength(q: seq<NodeId>, n: nat, h: NodeId)
    requires NoDup(q) && h < n && forall x: nat :: x in q ==> x < n && x != h
    ensures |q| <= n - 1
  {
    var s := set x | x in q;
    NoDupSize(q);
    FullSet(n, h, s);
  }

  lemma {:induction false} NoDupSize<T>(q: seq<T>)
    requires NoDup(q)
    ensures |set x | x in q| == |q|
  {
    if q != [] {
      var r := q[..|q| - 1];
      NoDupSize(r);
      assert (set x | x in q) == (set x | x in r) + {q[|q| - 1]};
    }
  }
}
