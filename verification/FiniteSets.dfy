/** Counting facts about finite sets that the protocol modules share. */
module FiniteSets {
  lemma SubsetSize<T>(a: set<T>, b: set<T>)
    requires a <= b
    ensures |a| <= |b|
  {
    assert b == a + (b - a);
  }

  lemma Pick<T>(s: set<T>) returns (x: T)
    requires s != {}
    ensures x in s
  {
    x :| x in s;
  }

  /** The left components paired with `b`. */
  ghost function Fibre<A, B>(pairs: set<(A, B)>, b: B): set<A> {
    set p | p in pairs && p.1 == b :: p.0
  }

  /** The pairs whose right component lies in `bs`. */
  ghost function PairsInto<A, B>(pairs: set<(A, B)>, bs: set<B>): set<(A, B)> {
    set p | p in pairs && p.1 in bs
  }

  lemma {:induction false} PairedSize<A, B>(xs: set<A>, b: B)
    ensures |set x | x in xs :: (x, b)| == |xs|
    decreases |xs|
  {
    if xs != {} {
      var x := Pick(xs);
      PairedSize(xs - {x}, b);
      assert (set y | y in xs :: (y, b)) == (set y | y in xs - {x} :: (y, b)) + {(x, b)};
    }
  }

  /** If no right component has more than `k` partners, the pairs into `bs`
      number at most `k` times the size of `bs`. */
  lemma {:induction false} FibresBound<A, B>(pairs: set<(A, B)>, bs: set<B>, k: nat)
    requires forall b :: b in bs ==> |Fibre(pairs, b)| <= k
    ensures |PairsInto(pairs, bs)| <= k * |bs|
    decreases |bs|
  {
    if bs == {} {
      assert PairsInto(pairs, bs) == {};
    } else {
      var b := Pick(bs);
      var rest := bs - {b};
      FibresBound(pairs, rest, k);
      var fibre := set x | x in Fibre(pairs, b) :: (x, b);
      PairedSize(Fibre(pairs, b), b);
      forall p | p in PairsInto(pairs, bs) ensures p in PairsInto(pairs, rest) || p in fibre {
        if p.1 == b { assert p == (p.0, b) && p.0 in Fibre(pairs, b); }
      }
      SubsetSize(PairsInto(pairs, bs), PairsInto(pairs, rest) + fibre);
    }
  }
}
