/** The library's own test cases, as lemmas on concrete values.

    Each lemma named `Test...` is one test method: every `assertEquals(true, x.equals(y))`
    there is an `ensures x == y` here.  The reactive streams that feed the
    warm-up test are not modelled; what it checks is the first and last
    octet the chained combiners build, and those are the chain applied to
    the first and last values of the range 1..10. */
module RxTuplesTest {
  import opened Tuples
  import opened RxTuples
  import RxTuplesLaws

  const ResPair: Pair<int, int> := Pair(1, 2)
  const ResTriplet: Triplet<int, int, int> := Triplet(1, 2, 3)
  const ResQuartet: Quartet<int, int, int, int> := Quartet(1, 2, 3, 4)
  const ResQuintet: Quintet<int, int, int, int, int> := Quintet(1, 2, 3, 4, 5)
  const ResSextet: Sextet<int, int, int, int, int, int> := Sextet(1, 2, 3, 4, 5, 6)
  const ResSeptet: Septet<int, int, int, int, int, int, int> := Septet(1, 2, 3, 4, 5, 6, 7)
  const ResOctet: Octet<int, int, int, int, int, int, int, int> := Octet(1, 2, 3, 4, 5, 6, 7, 8)

  lemma TestWarmup()
    ensures RxTuplesLaws.Chain(1, 1, 1, 1, 1, 1, 1, 1) == Octet(1, 1, 1, 1, 1, 1, 1, 1)
    ensures RxTuplesLaws.Chain(10, 10, 10, 10, 10, 10, 10, 10) == Octet(10, 10, 10, 10, 10, 10, 10, 10)
    ensures ToQuartet(1, 2, 3, 4) == ResQuartet
  {
  }

  /** Not a test method: the chain of the warm-up test on the values 1..8
      builds the test's reference octet `RES_OCTET`. */
  lemma ChainBuildsResOctet()
    ensures RxTuplesLaws.Chain(1, 2, 3, 4, 5, 6, 7, 8) == ResOctet
  {
  }

  lemma TestToPair()
    ensures ToPair(1, 2) == ResPair
  {
  }

  lemma TestToTriplet()
    ensures ToTriplet(1, 2, 3) == ResTriplet
    ensures ToTripletFromPair(Pair(1, 2), 3) == ResTriplet
    ensures ToTripletFromSingle(1, Pair(2, 3)) == ResTriplet
  {
  }

  lemma TestToQuartet()
    ensures ToQuartet(1, 2, 3, 4) == ResQuartet
    ensures ToQuartetFromTriplet(ResTriplet, 4) == ResQuartet
    ensures ToQuartetFromSingle(1, Triplet(2, 3, 4)) == ResQuartet
    ensures ToQuartetFromPair(Pair(1, 2), Pair(3, 4)) == ResQuartet
  {
  }

  lemma TestToQuintet()
    ensures ToQuintet(1, 2, 3, 4, 5) == ResQuintet
    ensures ToQuintetFromQuartet(ResQuartet, 5) == ResQuintet
    ensures ToQuintetFromSingle(1, Quartet(2, 3, 4, 5)) == ResQuintet
    ensures ToQuintetFromTriplet(Triplet(1, 2, 3), Pair(4, 5)) == ResQuintet
    ensures ToQuintetFromPair(Pair(1, 2), Triplet(3, 4, 5)) == ResQuintet
  {
  }

  lemma TestToSextet()
    ensures ToSextet(1, 2, 3, 4, 5, 6) == ResSextet
    ensures ToSextetFromQuintet(ResQuintet, 6) == ResSextet
    ensures ToSextetFromSingle(1, Quintet(2, 3, 4, 5, 6)) == ResSextet
    ensures ToSextetFromQuartet(Quartet(1, 2, 3, 4), Pair(5, 6)) == ResSextet
    ensures ToSextetFromPair(Pair(1, 2), Quartet(3, 4, 5, 6)) == ResSextet
    ensures ToSextetFromTriplet(Triplet(1, 2, 3), Triplet(4, 5, 6)) == ResSextet
  {
  }

  lemma TestToSeptet()
    ensures ToSeptet(1, 2, 3, 4, 5, 6, 7) == ResSeptet
    ensures ToSeptetFromSextet(ResSextet, 7) == ResSeptet
    ensures ToSeptetFromSingle(1, Sextet(2, 3, 4, 5, 6, 7)) == ResSeptet
    ensures ToSeptetFromQuintet(Quintet(1, 2, 3, 4, 5), Pair(6, 7)) == ResSeptet
    ensures ToSeptetFromPair(Pair(1, 2), Quintet(3, 4, 5, 6, 7)) == ResSeptet
    ensures ToSeptetFromQuartet(Quartet(1, 2, 3, 4), Triplet(5, 6, 7)) == ResSeptet
    ensures ToSeptetFromTriplet(Triplet(1, 2, 3), Quartet(4, 5, 6, 7)) == ResSeptet
  {
  }

  lemma TestToOctet()
    ensures ToOctet(1, 2, 3, 4, 5, 6, 7, 8) == ResOctet
    ensures ToOctetFromSeptet(ResSeptet, 8) == ResOctet
    ensures ToOctetFromSingle(1, Septet(2, 3, 4, 5, 6, 7, 8)) == ResOctet
    ensures ToOctetFromSextet(Sextet(1, 2, 3, 4, 5, 6), Pair(7, 8)) == ResOctet
    ensures ToOctetFromPair(Pair(1, 2), Sextet(3, 4, 5, 6, 7, 8)) == ResOctet
    ensures ToOctetFromQuintet(Quintet(1, 2, 3, 4, 5), Triplet(6, 7, 8)) == ResOctet
    ensures ToOctetFromTriplet(Triplet(1, 2, 3), Quintet(4, 5, 6, 7, 8)) == ResOctet
    ensures ToOctetFromQuartet(Quartet(1, 2, 3, 4), Quartet(5, 6, 7, 8)) == ResOctet
  {
  }
}
