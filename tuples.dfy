/** Immutable fixed-arity tuples, from two to eight positions.

    Each datatype stands for the javatuples class of the same name: one type
    parameter per position and one field per positional reader (`v0` is
    `getValue0()`, ..., `v7` is `getValue7()`).  Structural equality of Dafny
    datatypes stands for the classes' `equals`: two tuples are equal iff
    they have the same arity and equal elements position by position.

    Alongside them, the homogeneous view: a tuple whose positions all have
    the same type `T` is read as the sequence of its elements (`...ToSeq`)
    and rebuilt from a sequence of the right length (`...OfSeq`), which gives
    back exactly that sequence; this view is what lets the laws speak of "the elements in
    order" without naming every position. */
module Tuples {

  datatype Pair<A, B> = Pair(v0: A, v1: B)

  datatype Triplet<A, B, C> = Triplet(v0: A, v1: B, v2: C)

  datatype Quartet<A, B, C, D> = Quartet(v0: A, v1: B, v2: C, v3: D)

  datatype Quintet<A, B, C, D, E> = Quintet(v0: A, v1: B, v2: C, v3: D, v4: E)

  datatype Sextet<A, B, C, D, E, F> = Sextet(v0: A, v1: B, v2: C, v3: D, v4: E, v5: F)

  datatype Septet<A, B, C, D, E, F, G> = Septet(v0: A, v1: B, v2: C, v3: D, v4: E, v5: F, v6: G)

  datatype Octet<A, B, C, D, E, F, G, H> = Octet(v0: A, v1: B, v2: C, v3: D, v4: E, v5: F, v6: G, v7: H)

  // The elements of a homogeneous tuple, first position first.

  function PairToSeq<T>(p: Pair<T, T>): (s: seq<T>)
    ensures |s| == 2
  {
    [p.v0, p.v1]
  }

  function TripletToSeq<T>(p: Triplet<T, T, T>): (s: seq<T>)
    ensures |s| == 3
  {
    [p.v0, p.v1, p.v2]
  }

  function QuartetToSeq<T>(p: Quartet<T, T, T, T>): (s: seq<T>)
    ensures |s| == 4
  {
    [p.v0, p.v1, p.v2, p.v3]
  }

  function QuintetToSeq<T>(p: Quintet<T, T, T, T, T>): (s: seq<T>)
    ensures |s| == 5
  {
    [p.v0, p.v1, p.v2, p.v3, p.v4]
  }

  function SextetToSeq<T>(p: Sextet<T, T, T, T, T, T>): (s: seq<T>)
    ensures |s| == 6
  {
    [p.v0, p.v1, p.v2, p.v3, p.v4, p.v5]
  }

  function SeptetToSeq<T>(p: Septet<T, T, T, T, T, T, T>): (s: seq<T>)
    ensures |s| == 7
  {
    [p.v0, p.v1, p.v2, p.v3, p.v4, p.v5, p.v6]
  }

  function OctetToSeq<T>(p: Octet<T, T, T, T, T, T, T, T>): (s: seq<T>)
    ensures |s| == 8
  {
    [p.v0, p.v1, p.v2, p.v3, p.v4, p.v5, p.v6, p.v7]
  }

  // A homogeneous tuple built from exactly as many elements as it has positions.

  function PairOfSeq<T>(s: seq<T>): (p: Pair<T, T>)
    requires |s| == 2
    ensures PairToSeq(p) == s
  {
    Pair(s[0], s[1])
  }

  function TripletOfSeq<T>(s: seq<T>): (p: Triplet<T, T, T>)
    requires |s| == 3
    ensures TripletToSeq(p) == s
  {
    Triplet(s[0], s[1], s[2])
  }

  function QuartetOfSeq<T>(s: seq<T>): (p: Quartet<T, T, T, T>)
    requires |s| == 4
    ensures QuartetToSeq(p) == s
  {
    Quartet(s[0], s[1], s[2], s[3])
  }

  function QuintetOfSeq<T>(s: seq<T>): (p: Quintet<T, T, T, T, T>)
    requires |s| == 5
    ensures QuintetToSeq(p) == s
  {
    Quintet(s[0], s[1], s[2], s[3], s[4])
  }

  function SextetOfSeq<T>(s: seq<T>): (p: Sextet<T, T, T, T, T, T>)
    requires |s| == 6
    ensures SextetToSeq(p) == s
  {
    Sextet(s[0], s[1], s[2], s[3], s[4], s[5])
  }

  function SeptetOfSeq<T>(s: seq<T>): (p: Septet<T, T, T, T, T, T, T>)
    requires |s| == 7
    ensures SeptetToSeq(p) == s
  {
    Septet(s[0], s[1], s[2], s[3], s[4], s[5], s[6])
  }

  function OctetOfSeq<T>(s: seq<T>): (p: Octet<T, T, T, T, T, T, T, T>)
    requires |s| == 8
    ensures OctetToSeq(p) == s
  {
    Octet(s[0], s[1], s[2], s[3], s[4], s[5], s[6], s[7])
  }
}
