/**
 * Two-column link tables without duplicate rows (`likes`, `following`,
 * `institution_categories`) as sets of pairs: who is linked to a given
 * right-hand entity, what a given left-hand entity is linked to, and the
 * delete-then-insert replacement of one entity's links.
 */
module Pairs {

  /** Every left-hand side linked to `b`: the rows a `COUNT(*) ... WHERE b`
      counts. */
  function Fans(rel: set<(nat, nat)>, b: nat): (r: set<nat>)
    ensures forall a :: a in r <==> (a, b) in rel
  {
    set p | p in rel && p.1 == b :: p.0
  }

  /** Every right-hand side `a` is linked to. */
  function Image(rel: set<(nat, nat)>, a: nat): (r: set<nat>)
    ensures forall b :: b in r <==> (a, b) in rel
  {
    set p | p in rel && p.0 == a :: p.1
  }

  /** Adding a missing pair gives its right-hand side exactly one more link
      and leaves every other right-hand side's count as it was. */
  lemma {:induction false} FansAfterInsert(rel: set<(nat, nat)>, a: nat, b: nat, c: nat)
    requires (a, b) !in rel
    ensures |Fans(rel + {(a, b)}, b)| == |Fans(rel, b)| + 1
    ensures c != b ==> Fans(rel + {(a, b)}, c) == Fans(rel, c)
  {
    assert Fans(rel + {(a, b)}, b) == Fans(rel, b) + {a};
    assert a !in Fans(rel, b);
  }

  /** Removing a present pair gives its right-hand side exactly one link
      fewer and leaves every other right-hand side's count as it was. */
  lemma {:induction false} FansAfterRemove(rel: set<(nat, nat)>, a: nat, b: nat, c: nat)
    requires (a, b) in rel
    ensures |Fans(rel - {(a, b)}, b)| == |Fans(rel, b)| - 1
    ensures c != b ==> Fans(rel - {(a, b)}, c) == Fans(rel, c)
  {
    assert Fans(rel - {(a, b)}, b) == Fans(rel, b) - {a};
    assert a in Fans(rel, b);
  }

  /** `DELETE ... WHERE a = ?` followed by one inserted row per submitted
      value. */
  function ReplaceAll(rel: set<(nat, nat)>, a: nat, bs: seq<nat>): (r: set<(nat, nat)>)
    ensures forall p :: p in r <==> (p in rel && p.0 != a) || (p.0 == a && p.1 in bs)
  {
    (set p | p in rel && p.0 != a) + (set b | b in bs :: (a, b))
  }

  /** After a replacement, `a`'s links are exactly the submitted values (none
      for an empty list) and every other entity keeps its links. */
  lemma ReplaceAllImage(rel: set<(nat, nat)>, a: nat, bs: seq<nat>, other: nat)
    ensures Image(ReplaceAll(rel, a, bs), a) == set b | b in bs
    ensures bs == [] ==> Image(ReplaceAll(rel, a, bs), a) == {}
    ensures other != a ==> Image(ReplaceAll(rel, a, bs), other) == Image(rel, other)
  {
  }
}
