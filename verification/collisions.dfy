/** The collision registry (CollisionManager.h): an ordered list of collider
    pointers, queried by brute force against one probe collider. */
module Collisions {
  import opened Glm
  import opened Colliders

  /** The registry with `col` erased everywhere (erase-remove idiom). */
  function Without(cs: seq<Collider>, col: Collider): seq<Collider> {
    if cs == [] then []
    else Without(cs[..|cs| - 1], col) + (if cs[|cs| - 1] == col then [] else [cs[|cs| - 1]])
  }

  /** The colliders of `cs`, in order, that are not `probe` and that `probe`
      intersects. */
  ghost function Hits(m: Math, probe: Collider, cs: seq<Collider>): seq<Collider>
    reads probe, set c | c in cs
  {
    if cs == [] then []
    else
      var last := cs[|cs| - 1];
      Hits(m, probe, cs[..|cs| - 1]) + (if last != probe && probe.Intersects(m, last) then [last] else [])
  }

  class CollisionManager {
    var colliders: seq<Collider>

    constructor ()
      ensures colliders == []
    {
      colliders := [];
    }

    /** CollisionManager::addCollider: append, duplicates allowed. */
    method AddCollider(col: Collider)
      modifies this
      ensures colliders == old(colliders) + [col]
    {
      colliders := colliders + [col];
    }

    /** CollisionManager::removeCollider: drop every occurrence of `col`,
        keeping the others in order. */
    method RemoveCollider(col: Collider)
      modifies this
      ensures colliders == Without(old(colliders), col)
    {
      var kept: seq<Collider> := [];
      var i := 0;
      while i < |colliders|
        invariant 0 <= i <= |colliders|
        invariant kept == Without(colliders[..i], col)
      {
        assert colliders[..i + 1][..i] == colliders[..i];
        if colliders[i] != col {
          kept := kept + [colliders[i]];
        }
        i := i + 1;
      }
      assert colliders[..i] == colliders;
      colliders := kept;
    }

    /** CollisionManager::checkCollisions: every registered collider other
        than the probe itself that the probe intersects, in registry order. */
    method CheckCollisions(m: Math, col: Collider) returns (hits: seq<Collider>)
      ensures hits == Hits(m, col, colliders)
      ensures forall c :: c in hits <==> c in colliders && c != col && col.Intersects(m, c)
    {
      hits := [];
      var i := 0;
      while i < |colliders|
        invariant 0 <= i <= |colliders|
        invariant hits == Hits(m, col, colliders[..i])
      {
        assert colliders[..i + 1][..i] == colliders[..i];
        var other := colliders[i];
        if other != col && col.Intersects(m, other) {
          hits := hits + [other];
        }
        i := i + 1;
      }
      assert colliders[..i] == colliders;
      HitsMembership(m, col, colliders);
    }
  }

  // ---------------------------------------------------------------------
  // Properties of the registry operations

  /** A hit list counts each collider as often as the registry holds it,
      provided it is not the probe and is hit; otherwise not at all. */
  lemma {:induction false} HitsMultiplicity(m: Math, probe: Collider, cs: seq<Collider>, c: Collider)
    ensures multiset(Hits(m, probe, cs))[c] ==
      if c != probe && probe.Intersects(m, c) then multiset(cs)[c] else 0
  {
    if cs != [] {
      var init := cs[..|cs| - 1];
      assert cs == init + [cs[|cs| - 1]];
      HitsMultiplicity(m, probe, init, c);
    }
  }

  /** Membership in a hit list, both ways; the probe never reports itself. */
  lemma HitsMembership(m: Math, probe: Collider, cs: seq<Collider>)
    ensures forall c :: c in Hits(m, probe, cs) <==> c in cs && c != probe && probe.Intersects(m, c)
    ensures probe !in Hits(m, probe, cs)
  {
    forall c
      ensures c in Hits(m, probe, cs) <==> c in cs && c != probe && probe.Intersects(m, c)
    {
      HitsMultiplicity(m, probe, cs, c);
      assert c in Hits(m, probe, cs) <==> multiset(Hits(m, probe, cs))[c] > 0;
      assert c in cs <==> multiset(cs)[c] > 0;
    }
  }

  /** Queries distribute over concatenation: the hit list of a registry is
      the hit list of its front followed by that of its back, so registry
      order is kept. */
  lemma {:induction false} HitsAppend(m: Math, probe: Collider, a: seq<Collider>, b: seq<Collider>)
    ensures Hits(m, probe, a + b) == Hits(m, probe, a) + Hits(m, probe, b)
  {
    if b == [] {
      assert a + b == a;
    } else {
      var init := b[..|b| - 1];
      assert (a + b)[..|a + b| - 1] == a + init;
      HitsAppend(m, probe, a, init);
    }
  }

  /** After removal the collider is gone and every other collider keeps its
      multiplicity. */
  lemma {:induction false} WithoutMultiplicity(cs: seq<Collider>, col: Collider, c: Collider)
    ensures multiset(Without(cs, col))[c] == if c == col then 0 else multiset(cs)[c]
  {
    if cs != [] {
      var init := cs[..|cs| - 1];
      assert cs == init + [cs[|cs| - 1]];
      WithoutMultiplicity(init, col, c);
    }
  }

  /** Removal distributes over concatenation, so the survivors keep their
      relative order. */
  lemma {:induction false} WithoutAppend(a: seq<Collider>, b: seq<Collider>, col: Collider)
    ensures Without(a + b, col) == Without(a, col) + Without(b, col)
  {
    if b == [] {
      assert a + b == a;
    } else {
      var init := b[..|b| - 1];
      assert (a + b)[..|a + b| - 1] == a + init;
      WithoutAppend(a, init, col);
    }
  }

  /** Removing a collider that is not registered changes nothing. */
  lemma {:induction false} WithoutAbsent(cs: seq<Collider>, col: Collider)
    requires col !in cs
    ensures Without(cs, col) == cs
  {
    if cs != [] {
      var init := cs[..|cs| - 1];
      assert cs == init + [cs[|cs| - 1]];
      WithoutAbsent(init, col);
    }
  }

  /** Removing after adding a fresh registration undoes the addition for a
      collider that was not registered before. */
  lemma AddThenRemove(cs: seq<Collider>, col: Collider)
    requires col !in cs
    ensures Without(cs + [col], col) == cs
  {
    WithoutAppend(cs, [col], col);
    WithoutAbsent(cs, col);
  }
}
