/** The library's public surface as data, and the laws that hold of all of it.

    `Combinator` has one constructor per public static factory, named after
    it; a value of it stands for the function object that factory returns.
    `Parts` lists the arities of the arguments its `apply` takes, a bare
    value having arity 1, and `Arity` is the arity of the tuple it builds;
    both are read off the factory's signature.  `Apply` invokes the factory
    on homogeneous arguments, each given by its elements.

    Proved here for every factory at once: the parts add up to the arity;
    every ordered split (k, N - k) of every arity N from 3 to 8 has exactly one
    split factory and every arity from 2 to 8 exactly one full constructor;
    applying a factory yields the concatenation of its arguments' elements;
    all factories of one arity agree on the same elements; and the
    value-first and value-last factories of one arity differ unless every
    element is that value. */
module Combinators {
  import opened Tuples
  import RxTuples
  import RxTuplesLaws

  datatype Combinator =
    | ToPair
    | ToTriplet
    | ToTripletFromSingle
    | ToTripletFromPair
    | ToQuartet
    | ToQuartetFromSingle
    | ToQuartetFromPair
    | ToQuartetFromTriplet
    | ToQuintet
    | ToQuintetFromSingle
    | ToQuintetFromPair
    | ToQuintetFromTriplet
    | ToQuintetFromQuartet
    | ToSextet
    | ToSextetFromSingle
    | ToSextetFromPair
    | ToSextetFromTriplet
    | ToSextetFromQuartet
    | ToSextetFromQuintet
    | ToSeptet
    | ToSeptetFromSingle
    | ToSeptetFromPair
    | ToSeptetFromTriplet
    | ToSeptetFromQuartet
    | ToSeptetFromQuintet
    | ToSeptetFromSextet
    | ToOctet
    | ToOctetFromSingle
    | ToOctetFromPair
    | ToOctetFromTriplet
    | ToOctetFromQuartet
    | ToOctetFromQuintet
    | ToOctetFromSextet
    | ToOctetFromSeptet

  /** The arity of the tuple the factory builds. */
  function Arity(c: Combinator): (n: nat)
  {
    match c
    case ToPair => 2
    case ToTriplet => 3
    case ToTripletFromSingle => 3
    case ToTripletFromPair => 3
    case ToQuartet => 4
    case ToQuartetFromSingle => 4
    case ToQuartetFromPair => 4
    case ToQuartetFromTriplet => 4
    case ToQuintet => 5
    case ToQuintetFromSingle => 5
    case ToQuintetFromPair => 5
    case ToQuintetFromTriplet => 5
    case ToQuintetFromQuartet => 5
    case ToSextet => 6
    case ToSextetFromSingle => 6
    case ToSextetFromPair => 6
    case ToSextetFromTriplet => 6
    case ToSextetFromQuartet => 6
    case ToSextetFromQuintet => 6
    case ToSeptet => 7
    case ToSeptetFromSingle => 7
    case ToSeptetFromPair => 7
    case ToSeptetFromTriplet => 7
    case ToSeptetFromQuartet => 7
    case ToSeptetFromQuintet => 7
    case ToSeptetFromSextet => 7
    case ToOctet => 8
    case ToOctetFromSingle => 8
    case ToOctetFromPair => 8
    case ToOctetFromTriplet => 8
    case ToOctetFromQuartet => 8
    case ToOctetFromQuintet => 8
    case ToOctetFromSextet => 8
    case ToOctetFromSeptet => 8
  }

  /** The arities of the arguments, in order; 1 is a bare value. */
  function Parts(c: Combinator): (parts: seq<nat>)
  {
    match c
    case ToPair => [1, 1]
    case ToTriplet => [1, 1, 1]
    case ToTripletFromSingle => [1, 2]
    case ToTripletFromPair => [2, 1]
    case ToQuartet => [1, 1, 1, 1]
    case ToQuartetFromSingle => [1, 3]
    case ToQuartetFromPair => [2, 2]
    case ToQuartetFromTriplet => [3, 1]
    case ToQuintet => [1, 1, 1, 1, 1]
    case ToQuintetFromSingle => [1, 4]
    case ToQuintetFromPair => [2, 3]
    case ToQuintetFromTriplet => [3, 2]
    case ToQuintetFromQuartet => [4, 1]
    case ToSextet => [1, 1, 1, 1, 1, 1]
    case ToSextetFromSingle => [1, 5]
    case ToSextetFromPair => [2, 4]
    case ToSextetFromTriplet => [3, 3]
    case ToSextetFromQuartet => [4, 2]
    case ToSextetFromQuintet => [5, 1]
    case ToSeptet => [1, 1, 1, 1, 1, 1, 1]
    case ToSeptetFromSingle => [1, 6]
    case ToSeptetFromPair => [2, 5]
    case ToSeptetFromTriplet => [3, 4]
    case ToSeptetFromQuartet => [4, 3]
    case ToSeptetFromQuintet => [5, 2]
    case ToSeptetFromSextet => [6, 1]
    case ToOctet => [1, 1, 1, 1, 1, 1, 1, 1]
    case ToOctetFromSingle => [1, 7]
    case ToOctetFromPair => [2, 6]
    case ToOctetFromTriplet => [3, 5]
    case ToOctetFromQuartet => [4, 4]
    case ToOctetFromQuintet => [5, 3]
    case ToOctetFromSextet => [6, 2]
    case ToOctetFromSeptet => [7, 1]
  }

  function Sum(xs: seq<nat>): (total: nat)
  {
    if xs == [] then 0 else xs[0] + Sum(xs[1..])
  }

  lemma {:induction false} SumOfOnes(xs: seq<nat>)
    requires forall i :: 0 <= i < |xs| ==> xs[i] == 1
    ensures Sum(xs) == |xs|
  {
    if xs != [] {
      SumOfOnes(xs[1..]);
    }
  }

  /** A split factory takes two parts.  The pair has no split: its two bare
      values make it the full constructor of arity 2. */
  predicate IsSplit(c: Combinator)
  {
    |Parts(c)| == 2 && Arity(c) > 2
  }

  /** The split factory for the ordered split (k, n - k). */
  function SplitOf(n: nat, k: nat): (c: Combinator)
    requires 3 <= n <= 8 && 1 <= k < n
    ensures IsSplit(c) && Arity(c) == n && Parts(c) == [k, n - k]
  {
    if n == 3 then
      TripletSplitOf(k)
    else if n == 4 then
      QuartetSplitOf(k)
    else if n == 5 then
      QuintetSplitOf(k)
    else if n == 6 then
      SextetSplitOf(k)
    else if n == 7 then
      SeptetSplitOf(k)
    else
      OctetSplitOf(k)
  }

  function TripletSplitOf(k: nat): (c: Combinator)
    requires 1 <= k < 3
    ensures IsSplit(c) && Arity(c) == 3 && Parts(c) == [k, 3 - k]
  {
    if k == 1 then ToTripletFromSingle
    else ToTripletFromPair
  }

  function QuartetSplitOf(k: nat): (c: Combinator)
    requires 1 <= k < 4
    ensures IsSplit(c) && Arity(c) == 4 && Parts(c) == [k, 4 - k]
  {
    if k == 1 then ToQuartetFromSingle
    else if k == 2 then ToQuartetFromPair
    else ToQuartetFromTriplet
  }

  function QuintetSplitOf(k: nat): (c: Combinator)
    requires 1 <= k < 5
    ensures IsSplit(c) && Arity(c) == 5 && Parts(c) == [k, 5 - k]
  {
    if k == 1 then ToQuintetFromSingle
    else if k == 2 then ToQuintetFromPair
    else if k == 3 then ToQuintetFromTriplet
    else ToQuintetFromQuartet
  }

  function SextetSplitOf(k: nat): (c: Combinator)
    requires 1 <= k < 6
    ensures IsSplit(c) && Arity(c) == 6 && Parts(c) == [k, 6 - k]
  {
    if k == 1 then ToSextetFromSingle
    else if k == 2 then ToSextetFromPair
    else if k == 3 then ToSextetFromTriplet
    else if k == 4 then ToSextetFromQuartet
    else ToSextetFromQuintet
  }

  function SeptetSplitOf(k: nat): (c: Combinator)
    requires 1 <= k < 7
    ensures IsSplit(c) && Arity(c) == 7 && Parts(c) == [k, 7 - k]
  {
    if k == 1 then ToSeptetFromSingle
    else if k == 2 then ToSeptetFromPair
    else if k == 3 then ToSeptetFromTriplet
    else if k == 4 then ToSeptetFromQuartet
    else if k == 5 then ToSeptetFromQuintet
    else ToSeptetFromSextet
  }

  function OctetSplitOf(k: nat): (c: Combinator)
    requires 1 <= k < 8
    ensures IsSplit(c) && Arity(c) == 8 && Parts(c) == [k, 8 - k]
  {
    if k == 1 then ToOctetFromSingle
    else if k == 2 then ToOctetFromPair
    else if k == 3 then ToOctetFromTriplet
    else if k == 4 then ToOctetFromQuartet
    else if k == 5 then ToOctetFromQuintet
    else if k == 6 then ToOctetFromSextet
    else ToOctetFromSeptet
  }

  /** The full constructor of arity n. */
  function FullOf(n: nat): (c: Combinator)
    requires 2 <= n <= 8
    ensures !IsSplit(c) && Arity(c) == n && Parts(c) == seq(n, _ => 1)
  {
    if n == 2 then ToPair
    else if n == 3 then ToTriplet
    else if n == 4 then ToQuartet
    else if n == 5 then ToQuintet
    else if n == 6 then ToSextet
    else if n == 7 then ToSeptet
    else ToOctet
  }

  lemma ArityRange(c: Combinator)
    ensures 2 <= Arity(c) <= 8
  {
  }

  /** Every part is a bare value or a proper tuple, and the parts' arities
      add up to the arity of the result. */
  lemma PartsMakeArity(c: Combinator)
    ensures 2 <= Arity(c) <= 8
    ensures forall i :: 0 <= i < |Parts(c)| ==> 1 <= Parts(c)[i] < Arity(c)
    ensures Sum(Parts(c)) == Arity(c)
    ensures !IsSplit(c) ==> Parts(c) == seq(Arity(c), _ => 1)
  {
    ArityRange(c);
    if Arity(c) == 2 {
      PairShapes(c);
    } else if Arity(c) == 3 {
      TripletShapes(c);
    } else if Arity(c) == 4 {
      QuartetShapes(c);
    } else if Arity(c) == 5 {
      QuintetShapes(c);
    } else if Arity(c) == 6 {
      SextetShapes(c);
    } else if Arity(c) == 7 {
      SeptetShapes(c);
    } else {
      OctetShapes(c);
    }
  }

  /** No two split factories share a split, and no two full constructors
      share an arity, so `SplitOf` and `FullOf` between them reach every
      factory exactly once. */
  lemma FactoriesAreUnique(c: Combinator)
    ensures IsSplit(c) ==> 3 <= Arity(c) <= 8 && 1 <= Parts(c)[0] < Arity(c) &&
                           SplitOf(Arity(c), Parts(c)[0]) == c
    ensures !IsSplit(c) ==> 2 <= Arity(c) <= 8 && FullOf(Arity(c)) == c
  {
    ArityRange(c);
    if Arity(c) == 2 {
      PairShapes(c);
    } else if Arity(c) == 3 {
      TripletShapes(c);
    } else if Arity(c) == 4 {
      QuartetShapes(c);
    } else if Arity(c) == 5 {
      QuintetShapes(c);
    } else if Arity(c) == 6 {
      SextetShapes(c);
    } else if Arity(c) == 7 {
      SeptetShapes(c);
    } else {
      OctetShapes(c);
    }
  }


  lemma PairShapes(c: Combinator)
    requires Arity(c) == 2
    ensures forall i :: 0 <= i < |Parts(c)| ==> 1 <= Parts(c)[i] < 2
    ensures Sum(Parts(c)) == 2
    ensures !IsSplit(c) && Parts(c) == seq(2, _ => 1) && FullOf(2) == c
  {
    match c
    case ToPair =>
      SumOfOnes(Parts(c));
  }

  lemma TripletShapes(c: Combinator)
    requires Arity(c) == 3
    ensures forall i :: 0 <= i < |Parts(c)| ==> 1 <= Parts(c)[i] < 3
    ensures Sum(Parts(c)) == 3
    ensures !IsSplit(c) ==> Parts(c) == seq(3, _ => 1) && FullOf(3) == c
    ensures IsSplit(c) ==> 1 <= Parts(c)[0] < 3 && SplitOf(3, Parts(c)[0]) == c
  {
    match c
    case ToTriplet =>
      SumOfOnes(Parts(c));
    case ToTripletFromSingle =>
      assert Sum(Parts(c)) == 1 + Sum([2]);
    case ToTripletFromPair =>
      assert Sum(Parts(c)) == 2 + Sum([1]);
  }

  lemma QuartetShapes(c: Combinator)
    requires Arity(c) == 4
    ensures forall i :: 0 <= i < |Parts(c)| ==> 1 <= Parts(c)[i] < 4
    ensures Sum(Parts(c)) == 4
    ensures !IsSplit(c) ==> Parts(c) == seq(4, _ => 1) && FullOf(4) == c
    ensures IsSplit(c) ==> 1 <= Parts(c)[0] < 4 && SplitOf(4, Parts(c)[0]) == c
  {
    match c
    case ToQuartet =>
      SumOfOnes(Parts(c));
    case ToQuartetFromSingle =>
      assert Sum(Parts(c)) == 1 + Sum([3]);
    case ToQuartetFromPair =>
      assert Sum(Parts(c)) == 2 + Sum([2]);
    case ToQuartetFromTriplet =>
      assert Sum(Parts(c)) == 3 + Sum([1]);
  }

  lemma QuintetShapes(c: Combinator)
    requires Arity(c) == 5
    ensures forall i :: 0 <= i < |Parts(c)| ==> 1 <= Parts(c)[i] < 5
    ensures Sum(Parts(c)) == 5
    ensures !IsSplit(c) ==> Parts(c) == seq(5, _ => 1) && FullOf(5) == c
    ensures IsSplit(c) ==> 1 <= Parts(c)[0] < 5 && SplitOf(5, Parts(c)[0]) == c
  {
    match c
    case ToQuintet =>
      SumOfOnes(Parts(c));
    case ToQuintetFromSingle =>
      assert Sum(Parts(c)) == 1 + Sum([4]);
    case ToQuintetFromPair =>
      assert Sum(Parts(c)) == 2 + Sum([3]);
    case ToQuintetFromTriplet =>
      assert Sum(Parts(c)) == 3 + Sum([2]);
    case ToQuintetFromQuartet =>
      assert Sum(Parts(c)) == 4 + Sum([1]);
  }

  lemma SextetShapes(c: Combinator)
    requires Arity(c) == 6
    ensures forall i :: 0 <= i < |Parts(c)| ==> 1 <= Parts(c)[i] < 6
    ensures Sum(Parts(c)) == 6
    ensures !IsSplit(c) ==> Parts(c) == seq(6, _ => 1) && FullOf(6) == c
    ensures IsSplit(c) ==> 1 <= Parts(c)[0] < 6 && SplitOf(6, Parts(c)[0]) == c
  {
    match c
    case ToSextet =>
      SumOfOnes(Parts(c));
    case ToSextetFromSingle =>
      assert Sum(Parts(c)) == 1 + Sum([5]);
    case ToSextetFromPair =>
      assert Sum(Parts(c)) == 2 + Sum([4]);
    case ToSextetFromTriplet =>
      assert Sum(Parts(c)) == 3 + Sum([3]);
    case ToSextetFromQuartet =>
      assert Sum(Parts(c)) == 4 + Sum([2]);
    case ToSextetFromQuintet =>
      assert Sum(Parts(c)) == 5 + Sum([1]);
  }

  lemma SeptetShapes(c: Combinator)
    requires Arity(c) == 7
    ensures forall i :: 0 <= i < |Parts(c)| ==> 1 <= Parts(c)[i] < 7
    ensures Sum(Parts(c)) == 7
    ensures !IsSplit(c) ==> Parts(c) == seq(7, _ => 1) && FullOf(7) == c
    ensures IsSplit(c) ==> 1 <= Parts(c)[0] < 7 && SplitOf(7, Parts(c)[0]) == c
  {
    match c
    case ToSeptet =>
      SumOfOnes(Parts(c));
    case ToSeptetFromSingle =>
      assert Sum(Parts(c)) == 1 + Sum([6]);
    case ToSeptetFromPair =>
      assert Sum(Parts(c)) == 2 + Sum([5]);
    case ToSeptetFromTriplet =>
      assert Sum(Parts(c)) == 3 + Sum([4]);
    case ToSeptetFromQuartet =>
      assert Sum(Parts(c)) == 4 + Sum([3]);
    case ToSeptetFromQuintet =>
      assert Sum(Parts(c)) == 5 + Sum([2]);
    case ToSeptetFromSextet =>
      assert Sum(Parts(c)) == 6 + Sum([1]);
  }

  lemma OctetShapes(c: Combinator)
    requires Arity(c) == 8
    ensures forall i :: 0 <= i < |Parts(c)| ==> 1 <= Parts(c)[i] < 8
    ensures Sum(Parts(c)) == 8
    ensures !IsSplit(c) ==> Parts(c) == seq(8, _ => 1) && FullOf(8) == c
    ensures IsSplit(c) ==> 1 <= Parts(c)[0] < 8 && SplitOf(8, Parts(c)[0]) == c
  {
    match c
    case ToOctet =>
      SumOfOnes(Parts(c));
    case ToOctetFromSingle =>
      assert Sum(Parts(c)) == 1 + Sum([7]);
    case ToOctetFromPair =>
      assert Sum(Parts(c)) == 2 + Sum([6]);
    case ToOctetFromTriplet =>
      assert Sum(Parts(c)) == 3 + Sum([5]);
    case ToOctetFromQuartet =>
      assert Sum(Parts(c)) == 4 + Sum([4]);
    case ToOctetFromQuintet =>
      assert Sum(Parts(c)) == 5 + Sum([3]);
    case ToOctetFromSextet =>
      assert Sum(Parts(c)) == 6 + Sum([2]);
    case ToOctetFromSeptet =>
      assert Sum(Parts(c)) == 7 + Sum([1]);
  }

  /** The arguments have the shapes the factory's `apply` takes. */
  predicate Fits<T>(c: Combinator, args: seq<seq<T>>)
  {
    |args| == |Parts(c)| && forall i :: 0 <= i < |args| ==> |args[i]| == Parts(c)[i]
  }

  /** All the elements of the arguments, in argument order. */
  function Flatten<T>(args: seq<seq<T>>): (elems: seq<T>)
  {
    if args == [] then [] else args[0] + Flatten(args[1..])
  }

  lemma {:induction false} FlattenTwo<T>(args: seq<seq<T>>)
    requires |args| == 2
    ensures Flatten(args) == args[0] + args[1]
  {
    assert Flatten(args[1..][1..]) == [];
    assert Flatten(args[1..]) == args[1] + Flatten(args[1..][1..]);
  }

  /** Flattening bare values gives back the values. */
  lemma {:induction false} FlattenSingletons<T>(args: seq<seq<T>>)
    requires forall i :: 0 <= i < |args| ==> |args[i]| == 1
    ensures |Flatten(args)| == |args|
    ensures forall i :: 0 <= i < |args| ==> Flatten(args)[i] == args[i][0]
  {
    if args != [] {
      FlattenSingletons(args[1..]);
      assert Flatten(args) == args[0] + Flatten(args[1..]);
    }
  }

  /** A bare value per element. */
  function Singletons<T>(s: seq<T>): (args: seq<seq<T>>)
    ensures |args| == |s|
    ensures forall i :: 0 <= i < |s| ==> args[i] == [s[i]]
  {
    seq(|s|, i requires 0 <= i < |s| => [s[i]])
  }


  /** The elements of the tuple the factory's `apply` returns, on homogeneous
      arguments; a bare value is given as its one-element sequence and a
      tuple by its elements. */
  function Apply<T>(c: Combinator, args: seq<seq<T>>): (r: seq<T>)
    requires Fits(c, args)
    ensures |r| == Arity(c)
  {
    match c
    case ToPair => PairToSeq(RxTuples.ToPair(args[0][0], args[1][0]))
    case ToTriplet => TripletToSeq(RxTuples.ToTriplet(args[0][0], args[1][0], args[2][0]))
    case ToTripletFromSingle => TripletToSeq(RxTuples.ToTripletFromSingle(args[0][0], PairOfSeq(args[1])))
    case ToTripletFromPair => TripletToSeq(RxTuples.ToTripletFromPair(PairOfSeq(args[0]), args[1][0]))
    case ToQuartet => QuartetToSeq(RxTuples.ToQuartet(args[0][0], args[1][0], args[2][0], args[3][0]))
    case ToQuartetFromSingle => QuartetToSeq(RxTuples.ToQuartetFromSingle(args[0][0], TripletOfSeq(args[1])))
    case ToQuartetFromPair => QuartetToSeq(RxTuples.ToQuartetFromPair(PairOfSeq(args[0]), PairOfSeq(args[1])))
    case ToQuartetFromTriplet => QuartetToSeq(RxTuples.ToQuartetFromTriplet(TripletOfSeq(args[0]), args[1][0]))
    case ToQuintet => QuintetToSeq(RxTuples.ToQuintet(args[0][0], args[1][0], args[2][0], args[3][0], args[4][0]))
    case ToQuintetFromSingle => QuintetToSeq(RxTuples.ToQuintetFromSingle(args[0][0], QuartetOfSeq(args[1])))
    case ToQuintetFromPair => QuintetToSeq(RxTuples.ToQuintetFromPair(PairOfSeq(args[0]), TripletOfSeq(args[1])))
    case ToQuintetFromTriplet => QuintetToSeq(RxTuples.ToQuintetFromTriplet(TripletOfSeq(args[0]), PairOfSeq(args[1])))
    case ToQuintetFromQuartet => QuintetToSeq(RxTuples.ToQuintetFromQuartet(QuartetOfSeq(args[0]), args[1][0]))
    case ToSextet => SextetToSeq(RxTuples.ToSextet(args[0][0], args[1][0], args[2][0], args[3][0], args[4][0], args[5][0]))
    case ToSextetFromSingle => SextetToSeq(RxTuples.ToSextetFromSingle(args[0][0], QuintetOfSeq(args[1])))
    case ToSextetFromPair => SextetToSeq(RxTuples.ToSextetFromPair(PairOfSeq(args[0]), QuartetOfSeq(args[1])))
    case ToSextetFromTriplet => SextetToSeq(RxTuples.ToSextetFromTriplet(TripletOfSeq(args[0]), TripletOfSeq(args[1])))
    case ToSextetFromQuartet => SextetToSeq(RxTuples.ToSextetFromQuartet(QuartetOfSeq(args[0]), PairOfSeq(args[1])))
    case ToSextetFromQuintet => SextetToSeq(RxTuples.ToSextetFromQuintet(QuintetOfSeq(args[0]), args[1][0]))
    case ToSeptet => SeptetToSeq(RxTuples.ToSeptet(args[0][0], args[1][0], args[2][0], args[3][0], args[4][0], args[5][0], args[6][0]))
    case ToSeptetFromSingle => SeptetToSeq(RxTuples.ToSeptetFromSingle(args[0][0], SextetOfSeq(args[1])))
    case ToSeptetFromPair => SeptetToSeq(RxTuples.ToSeptetFromPair(PairOfSeq(args[0]), QuintetOfSeq(args[1])))
    case ToSeptetFromTriplet => SeptetToSeq(RxTuples.ToSeptetFromTriplet(TripletOfSeq(args[0]), QuartetOfSeq(args[1])))
    case ToSeptetFromQuartet => SeptetToSeq(RxTuples.ToSeptetFromQuartet(QuartetOfSeq(args[0]), TripletOfSeq(args[1])))
    case ToSeptetFromQuintet => SeptetToSeq(RxTuples.ToSeptetFromQuintet(QuintetOfSeq(args[0]), PairOfSeq(args[1])))
    case ToSeptetFromSextet => SeptetToSeq(RxTuples.ToSeptetFromSextet(SextetOfSeq(args[0]), args[1][0]))
    case ToOctet => OctetToSeq(RxTuples.ToOctet(args[0][0], args[1][0], args[2][0], args[3][0], args[4][0], args[5][0], args[6][0], args[7][0]))
    case ToOctetFromSingle => OctetToSeq(RxTuples.ToOctetFromSingle(args[0][0], SeptetOfSeq(args[1])))
    case ToOctetFromPair => OctetToSeq(RxTuples.ToOctetFromPair(PairOfSeq(args[0]), SextetOfSeq(args[1])))
    case ToOctetFromTriplet => OctetToSeq(RxTuples.ToOctetFromTriplet(TripletOfSeq(args[0]), QuintetOfSeq(args[1])))
    case ToOctetFromQuartet => OctetToSeq(RxTuples.ToOctetFromQuartet(QuartetOfSeq(args[0]), QuartetOfSeq(args[1])))
    case ToOctetFromQuintet => OctetToSeq(RxTuples.ToOctetFromQuintet(QuintetOfSeq(args[0]), TripletOfSeq(args[1])))
    case ToOctetFromSextet => OctetToSeq(RxTuples.ToOctetFromSextet(SextetOfSeq(args[0]), PairOfSeq(args[1])))
    case ToOctetFromSeptet => OctetToSeq(RxTuples.ToOctetFromSeptet(SeptetOfSeq(args[0]), args[1][0]))
  }

  /** The flattening invariant, for every factory: the elements of the result
      are the elements of the arguments, in argument order, each argument's in
      its own order.  Nothing is dropped, duplicated or reordered. */
  lemma ApplyFlattens<T>(c: Combinator, args: seq<seq<T>>)
    requires Fits(c, args)
    ensures Apply(c, args) == Flatten(args)
  {
    ArityRange(c);
    if Arity(c) == 2 {
      PairApplyFlattens(c, args);
    } else if Arity(c) == 3 {
      TripletApplyFlattens(c, args);
    } else if Arity(c) == 4 {
      QuartetApplyFlattens(c, args);
    } else if Arity(c) == 5 {
      QuintetApplyFlattens(c, args);
    } else if Arity(c) == 6 {
      SextetApplyFlattens(c, args);
    } else if Arity(c) == 7 {
      SeptetApplyFlattens(c, args);
    } else {
      OctetApplyFlattens(c, args);
    }
  }

  lemma PairApplyFlattens<T>(c: Combinator, args: seq<seq<T>>)
    requires Arity(c) == 2 && Fits(c, args)
    ensures Apply(c, args) == Flatten(args)
  {
    if |args| == 2 {
      FlattenTwo(args);
    } else {
      FlattenSingletons(args);
    }
  }

  lemma TripletApplyFlattens<T>(c: Combinator, args: seq<seq<T>>)
    requires Arity(c) == 3 && Fits(c, args)
    ensures Apply(c, args) == Flatten(args)
  {
    if |args| == 2 {
      FlattenTwo(args);
    } else {
      FlattenSingletons(args);
    }
  }

  lemma QuartetApplyFlattens<T>(c: Combinator, args: seq<seq<T>>)
    requires Arity(c) == 4 && Fits(c, args)
    ensures Apply(c, args) == Flatten(args)
  {
    if |args| == 2 {
      FlattenTwo(args);
    } else {
      FlattenSingletons(args);
    }
  }

  lemma QuintetApplyFlattens<T>(c: Combinator, args: seq<seq<T>>)
    requires Arity(c) == 5 && Fits(c, args)
    ensures Apply(c, args) == Flatten(args)
  {
    if |args| == 2 {
      FlattenTwo(args);
    } else {
      FlattenSingletons(args);
    }
  }

  lemma SextetApplyFlattens<T>(c: Combinator, args: seq<seq<T>>)
    requires Arity(c) == 6 && Fits(c, args)
    ensures Apply(c, args) == Flatten(args)
  {
    if |args| == 2 {
      FlattenTwo(args);
    } else {
      FlattenSingletons(args);
    }
  }

  lemma SeptetApplyFlattens<T>(c: Combinator, args: seq<seq<T>>)
    requires Arity(c) == 7 && Fits(c, args)
    ensures Apply(c, args) == Flatten(args)
  {
    if |args| == 2 {
      FlattenTwo(args);
    } else {
      FlattenSingletons(args);
    }
  }

  lemma OctetApplyFlattens<T>(c: Combinator, args: seq<seq<T>>)
    requires Arity(c) == 8 && Fits(c, args)
    ensures Apply(c, args) == Flatten(args)
  {
    if |args| == 2 {
      FlattenTwo(args);
    } else {
      FlattenSingletons(args);
    }
  }

  /** The split factories of one arity and its full constructor all build
      the same tuple from the same elements, however they are split. */
  lemma SplitsAgree<T>(n: nat, k: nat, s: seq<T>)
    requires 3 <= n <= 8 && 1 <= k < n && |s| == n
    ensures Apply(SplitOf(n, k), [s[..k], s[k..]]) == s
    ensures Apply(FullOf(n), Singletons(s)) == s
  {
    ApplyFlattens(SplitOf(n, k), [s[..k], s[k..]]);
    FlattenTwo([s[..k], s[k..]]);
    assert s[..k] + s[k..] == s;
    ApplyFlattens(FullOf(n), Singletons(s));
    FlattenSingletons(Singletons(s));
  }

  /** For every arity, the factory taking a bare value first and the one
      taking it last agree on that value and the same tuple only when every
      element of the tuple equals the value. */
  lemma SingleFirstVersusLast<T>(n: nat, t: T, s: seq<T>)
    requires 3 <= n <= 8 && |s| == n - 1
    ensures Apply(SplitOf(n, 1), [[t], s]) == Apply(SplitOf(n, n - 1), [s, [t]])
        <==> forall i :: 0 <= i < |s| ==> s[i] == t
  {
    ApplyFlattens(SplitOf(n, 1), [[t], s]);
    ApplyFlattens(SplitOf(n, n - 1), [s, [t]]);
    FlattenTwo([[t], s]);
    FlattenTwo([s, [t]]);
    RxTuplesLaws.FrontEqualsBack(t, s);
  }
}
