/** What the combinators promise, stated one combinator and one arity at a time.

    - A full constructor puts its i-th argument at position i.
    - A split constructor agrees with the full constructor applied to the
      left part's elements followed by the right part's (so all constructors
      of one arity agree with each other on the same elements).
    - On homogeneous tuples, the elements of a split constructor's result are
      the left part's elements followed by the right part's, a bare value
      counting as the one-element sequence: nothing is dropped, duplicated or
      reordered, and the result has exactly N elements.
    - Building with the bare value first and building with it last are
      different: they agree only when every element equals that value.
    - Adding one value at a time, from a pair up to an octet, builds the same
      octet as the full constructor. */
module RxTuplesLaws {
  import opened Tuples
  import opened RxTuples

  /** The full constructors are positional: the i-th argument is the i-th element. */
  lemma FullConstructorsArePositional<T>(a: T, b: T, c: T, d: T, e: T, f: T, g: T, h: T)
    ensures PairToSeq(ToPair(a, b)) == [a, b]
    ensures TripletToSeq(ToTriplet(a, b, c)) == [a, b, c]
    ensures QuartetToSeq(ToQuartet(a, b, c, d)) == [a, b, c, d]
    ensures QuintetToSeq(ToQuintet(a, b, c, d, e)) == [a, b, c, d, e]
    ensures SextetToSeq(ToSextet(a, b, c, d, e, f)) == [a, b, c, d, e, f]
    ensures SeptetToSeq(ToSeptet(a, b, c, d, e, f, g)) == [a, b, c, d, e, f, g]
    ensures OctetToSeq(ToOctet(a, b, c, d, e, f, g, h)) == [a, b, c, d, e, f, g, h]
  {
  }

  // Every split constructor agrees with the full constructor of its arity
  // on the concatenated elements, whatever the element types.

  lemma TripletSplitsAgree<A, B, C>(a: A, b: B, c: C)
    ensures ToTripletFromSingle(a, Pair(b, c)) == ToTriplet(a, b, c)
    ensures ToTripletFromPair(Pair(a, b), c) == ToTriplet(a, b, c)
  {
  }

  lemma QuartetSplitsAgree<A, B, C, D>(a: A, b: B, c: C, d: D)
    ensures ToQuartetFromSingle(a, Triplet(b, c, d)) == ToQuartet(a, b, c, d)
    ensures ToQuartetFromPair(Pair(a, b), Pair(c, d)) == ToQuartet(a, b, c, d)
    ensures ToQuartetFromTriplet(Triplet(a, b, c), d) == ToQuartet(a, b, c, d)
  {
  }

  lemma QuintetSplitsAgree<A, B, C, D, E>(a: A, b: B, c: C, d: D, e: E)
    ensures ToQuintetFromSingle(a, Quartet(b, c, d, e)) == ToQuintet(a, b, c, d, e)
    ensures ToQuintetFromPair(Pair(a, b), Triplet(c, d, e)) == ToQuintet(a, b, c, d, e)
    ensures ToQuintetFromTriplet(Triplet(a, b, c), Pair(d, e)) == ToQuintet(a, b, c, d, e)
    ensures ToQuintetFromQuartet(Quartet(a, b, c, d), e) == ToQuintet(a, b, c, d, e)
  {
  }

  lemma SextetSplitsAgree<A, B, C, D, E, F>(a: A, b: B, c: C, d: D, e: E, f: F)
    ensures ToSextetFromSingle(a, Quintet(b, c, d, e, f)) == ToSextet(a, b, c, d, e, f)
    ensures ToSextetFromPair(Pair(a, b), Quartet(c, d, e, f)) == ToSextet(a, b, c, d, e, f)
    ensures ToSextetFromTriplet(Triplet(a, b, c), Triplet(d, e, f)) == ToSextet(a, b, c, d, e, f)
    ensures ToSextetFromQuartet(Quartet(a, b, c, d), Pair(e, f)) == ToSextet(a, b, c, d, e, f)
    ensures ToSextetFromQuintet(Quintet(a, b, c, d, e), f) == ToSextet(a, b, c, d, e, f)
  {
  }

  lemma SeptetSplitsAgree<A, B, C, D, E, F, G>(a: A, b: B, c: C, d: D, e: E, f: F, g: G)
    ensures ToSeptetFromSingle(a, Sextet(b, c, d, e, f, g)) == ToSeptet(a, b, c, d, e, f, g)
    ensures ToSeptetFromPair(Pair(a, b), Quintet(c, d, e, f, g)) == ToSeptet(a, b, c, d, e, f, g)
    ensures ToSeptetFromTriplet(Triplet(a, b, c), Quartet(d, e, f, g)) == ToSeptet(a, b, c, d, e, f, g)
    ensures ToSeptetFromQuartet(Quartet(a, b, c, d), Triplet(e, f, g)) == ToSeptet(a, b, c, d, e, f, g)
    ensures ToSeptetFromQuintet(Quintet(a, b, c, d, e), Pair(f, g)) == ToSeptet(a, b, c, d, e, f, g)
    ensures ToSeptetFromSextet(Sextet(a, b, c, d, e, f), g) == ToSeptet(a, b, c, d, e, f, g)
  {
  }

  lemma OctetSplitsAgree<A, B, C, D, E, F, G, H>(a: A, b: B, c: C, d: D, e: E, f: F, g: G, h: H)
    ensures ToOctetFromSingle(a, Septet(b, c, d, e, f, g, h)) == ToOctet(a, b, c, d, e, f, g, h)
    ensures ToOctetFromPair(Pair(a, b), Sextet(c, d, e, f, g, h)) == ToOctet(a, b, c, d, e, f, g, h)
    ensures ToOctetFromTriplet(Triplet(a, b, c), Quintet(d, e, f, g, h)) == ToOctet(a, b, c, d, e, f, g, h)
    ensures ToOctetFromQuartet(Quartet(a, b, c, d), Quartet(e, f, g, h)) == ToOctet(a, b, c, d, e, f, g, h)
    ensures ToOctetFromQuintet(Quintet(a, b, c, d, e), Triplet(f, g, h)) == ToOctet(a, b, c, d, e, f, g, h)
    ensures ToOctetFromSextet(Sextet(a, b, c, d, e, f), Pair(g, h)) == ToOctet(a, b, c, d, e, f, g, h)
    ensures ToOctetFromSeptet(Septet(a, b, c, d, e, f, g), h) == ToOctet(a, b, c, d, e, f, g, h)
  {
  }

  // The flattening invariant, split constructor by split constructor: on
  // homogeneous tuples the result's elements are the left part's followed
  // by the right part's.

  lemma TripletSplitsFlatten<T>(t: T, p2: Pair<T, T>)
    ensures TripletToSeq(ToTripletFromSingle(t, p2)) == [t] + PairToSeq(p2)
    ensures TripletToSeq(ToTripletFromPair(p2, t)) == PairToSeq(p2) + [t]
  {
  }

  lemma QuartetSplitsFlatten<T>(t: T, p2: Pair<T, T>, q2: Pair<T, T>, p3: Triplet<T, T, T>)
    ensures QuartetToSeq(ToQuartetFromSingle(t, p3)) == [t] + TripletToSeq(p3)
    ensures QuartetToSeq(ToQuartetFromPair(p2, q2)) == PairToSeq(p2) + PairToSeq(q2)
    ensures QuartetToSeq(ToQuartetFromTriplet(p3, t)) == TripletToSeq(p3) + [t]
  {
  }

  lemma QuintetSplitsFlatten<T>(t: T, p2: Pair<T, T>, p3: Triplet<T, T, T>, p4: Quartet<T, T, T, T>)
    ensures QuintetToSeq(ToQuintetFromSingle(t, p4)) == [t] + QuartetToSeq(p4)
    ensures QuintetToSeq(ToQuintetFromPair(p2, p3)) == PairToSeq(p2) + TripletToSeq(p3)
    ensures QuintetToSeq(ToQuintetFromTriplet(p3, p2)) == TripletToSeq(p3) + PairToSeq(p2)
    ensures QuintetToSeq(ToQuintetFromQuartet(p4, t)) == QuartetToSeq(p4) + [t]
  {
  }

  lemma SextetSplitsFlatten<T>(t: T, p2: Pair<T, T>, p3: Triplet<T, T, T>, q3: Triplet<T, T, T>,
                               p4: Quartet<T, T, T, T>, p5: Quintet<T, T, T, T, T>)
    ensures SextetToSeq(ToSextetFromSingle(t, p5)) == [t] + QuintetToSeq(p5)
    ensures SextetToSeq(ToSextetFromPair(p2, p4)) == PairToSeq(p2) + QuartetToSeq(p4)
    ensures SextetToSeq(ToSextetFromTriplet(p3, q3)) == TripletToSeq(p3) + TripletToSeq(q3)
    ensures SextetToSeq(ToSextetFromQuartet(p4, p2)) == QuartetToSeq(p4) + PairToSeq(p2)
    ensures SextetToSeq(ToSextetFromQuintet(p5, t)) == QuintetToSeq(p5) + [t]
  {
  }

  lemma SeptetSplitsFlatten<T>(t: T, p2: Pair<T, T>, p3: Triplet<T, T, T>, p4: Quartet<T, T, T, T>,
                               p5: Quintet<T, T, T, T, T>, p6: Sextet<T, T, T, T, T, T>)
    ensures SeptetToSeq(ToSeptetFromSingle(t, p6)) == [t] + SextetToSeq(p6)
    ensures SeptetToSeq(ToSeptetFromPair(p2, p5)) == PairToSeq(p2) + QuintetToSeq(p5)
    ensures SeptetToSeq(ToSeptetFromTriplet(p3, p4)) == TripletToSeq(p3) + QuartetToSeq(p4)
    ensures SeptetToSeq(ToSeptetFromQuartet(p4, p3)) == QuartetToSeq(p4) + TripletToSeq(p3)
    ensures SeptetToSeq(ToSeptetFromQuintet(p5, p2)) == QuintetToSeq(p5) + PairToSeq(p2)
    ensures SeptetToSeq(ToSeptetFromSextet(p6, t)) == SextetToSeq(p6) + [t]
  {
  }

  lemma OctetSplitsFlatten<T>(t: T, p2: Pair<T, T>, p3: Triplet<T, T, T>, p4: Quartet<T, T, T, T>,
                              q4: Quartet<T, T, T, T>, p5: Quintet<T, T, T, T, T>,
                              p6: Sextet<T, T, T, T, T, T>, p7: Septet<T, T, T, T, T, T, T>)
    ensures OctetToSeq(ToOctetFromSingle(t, p7)) == [t] + SeptetToSeq(p7)
    ensures OctetToSeq(ToOctetFromPair(p2, p6)) == PairToSeq(p2) + SextetToSeq(p6)
    ensures OctetToSeq(ToOctetFromTriplet(p3, p5)) == TripletToSeq(p3) + QuintetToSeq(p5)
    ensures OctetToSeq(ToOctetFromQuartet(p4, q4)) == QuartetToSeq(p4) + QuartetToSeq(q4)
    ensures OctetToSeq(ToOctetFromQuintet(p5, p3)) == QuintetToSeq(p5) + TripletToSeq(p3)
    ensures OctetToSeq(ToOctetFromSextet(p6, p2)) == SextetToSeq(p6) + PairToSeq(p2)
    ensures OctetToSeq(ToOctetFromSeptet(p7, t)) == SeptetToSeq(p7) + [t]
  {
  }

  /** Putting a value in front of a sequence gives the same as putting it at
      the back exactly when every element of the sequence is that value. */
  lemma {:induction false} FrontEqualsBack<T>(t: T, s: seq<T>)
    ensures [t] + s == s + [t] <==> forall i :: 0 <= i < |s| ==> s[i] == t
  {
    if [t] + s == s + [t] {
      forall i | 0 <= i < |s|
        ensures s[i] == t
      {
        FrontEqualsBackAt(t, s, i);
      }
    }
  }

  lemma {:induction false} FrontEqualsBackAt<T>(t: T, s: seq<T>, i: nat)
    requires [t] + s == s + [t]
    requires i < |s|
    ensures s[i] == t
    decreases i
  {
    if i == 0 {
      assert ([t] + s)[0] == (s + [t])[0];
    } else {
      FrontEqualsBackAt(t, s, i - 1);
      assert ([t] + s)[i] == (s + [t])[i];
    }
  }

  // Combination is not commutative: building with the bare value first and
  // building with the same value last agree only when every element of the
  // tuple equals that value.

  lemma TripletSingleFirstVersusLast<T>(t: T, p: Pair<T, T>)
    ensures ToTripletFromSingle(t, p) == ToTripletFromPair(p, t)
        <==> forall i :: 0 <= i < 2 ==> PairToSeq(p)[i] == t
  {
    FrontEqualsBack(t, PairToSeq(p));
    assert TripletToSeq(ToTripletFromSingle(t, p)) == [t] + PairToSeq(p);
    assert TripletToSeq(ToTripletFromPair(p, t)) == PairToSeq(p) + [t];
  }

  lemma QuartetSingleFirstVersusLast<T>(t: T, p: Triplet<T, T, T>)
    ensures ToQuartetFromSingle(t, p) == ToQuartetFromTriplet(p, t)
        <==> forall i :: 0 <= i < 3 ==> TripletToSeq(p)[i] == t
  {
    FrontEqualsBack(t, TripletToSeq(p));
    assert QuartetToSeq(ToQuartetFromSingle(t, p)) == [t] + TripletToSeq(p);
    assert QuartetToSeq(ToQuartetFromTriplet(p, t)) == TripletToSeq(p) + [t];
  }

  lemma QuintetSingleFirstVersusLast<T>(t: T, p: Quartet<T, T, T, T>)
    ensures ToQuintetFromSingle(t, p) == ToQuintetFromQuartet(p, t)
        <==> forall i :: 0 <= i < 4 ==> QuartetToSeq(p)[i] == t
  {
    FrontEqualsBack(t, QuartetToSeq(p));
    assert QuintetToSeq(ToQuintetFromSingle(t, p)) == [t] + QuartetToSeq(p);
    assert QuintetToSeq(ToQuintetFromQuartet(p, t)) == QuartetToSeq(p) + [t];
  }

  lemma SextetSingleFirstVersusLast<T>(t: T, p: Quintet<T, T, T, T, T>)
    ensures ToSextetFromSingle(t, p) == ToSextetFromQuintet(p, t)
        <==> forall i :: 0 <= i < 5 ==> QuintetToSeq(p)[i] == t
  {
    FrontEqualsBack(t, QuintetToSeq(p));
    assert SextetToSeq(ToSextetFromSingle(t, p)) == [t] + QuintetToSeq(p);
    assert SextetToSeq(ToSextetFromQuintet(p, t)) == QuintetToSeq(p) + [t];
  }

  lemma SeptetSingleFirstVersusLast<T>(t: T, p: Sextet<T, T, T, T, T, T>)
    ensures ToSeptetFromSingle(t, p) == ToSeptetFromSextet(p, t)
        <==> forall i :: 0 <= i < 6 ==> SextetToSeq(p)[i] == t
  {
    FrontEqualsBack(t, SextetToSeq(p));
    assert SeptetToSeq(ToSeptetFromSingle(t, p)) == [t] + SextetToSeq(p);
    assert SeptetToSeq(ToSeptetFromSextet(p, t)) == SextetToSeq(p) + [t];
  }

  lemma OctetSingleFirstVersusLast<T>(t: T, p: Septet<T, T, T, T, T, T, T>)
    ensures ToOctetFromSingle(t, p) == ToOctetFromSeptet(p, t)
        <==> forall i :: 0 <= i < 7 ==> SeptetToSeq(p)[i] == t
  {
    FrontEqualsBack(t, SeptetToSeq(p));
    assert OctetToSeq(ToOctetFromSingle(t, p)) == [t] + SeptetToSeq(p);
    assert OctetToSeq(ToOctetFromSeptet(p, t)) == SeptetToSeq(p) + [t];
  }

  /** The test's pipeline of combiners: a pair grown one value at a time,
      the new value always going last, up to an octet.  The result is the
      octet of the eight values in the order they were added. */
  function Chain<A, B, C, D, E, F, G, H>(a: A, b: B, c: C, d: D, e: E, f: F, g: G, h: H): (r: Octet<A, B, C, D, E, F, G, H>)
    ensures r == ToOctet(a, b, c, d, e, f, g, h)
  {
    var p2 := ToPair(a, b);
    var p3 := ToTripletFromPair(p2, c);
    var p4 := ToQuartetFromTriplet(p3, d);
    var p5 := ToQuintetFromQuartet(p4, e);
    var p6 := ToSextetFromQuintet(p5, f);
    var p7 := ToSeptetFromSextet(p6, g);
    ToOctetFromSeptet(p7, h)
  }
}
