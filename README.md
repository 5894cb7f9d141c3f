# RxTuples2 in Dafny

A model of RxTuples2, a Java helper library of tuple combinators. The
combinators are written to be passed as the combining function of a reactive
stream's `zip` or `combineLatest`. The library is one class, `RxTuples`, with
no state and no instances. Each of its 34 public static factories returns a
function object. That object's `apply` builds one immutable javatuples tuple
(`Pair`, `Triplet`, `Quartet`, `Quintet`, `Sextet`, `Septet`, `Octet`, of
arity 2 to 8) from its arguments.

- **Full constructors** (`toPair` ... `toOctet`): 7 of them, one per arity.
  Each takes the N elements separately.
- **Split constructors**: 27 of them. For every arity N from 3 to 8 and every
  ordered split (k, N - k) there is one that takes two parts of those arities.
  A part of arity 1 is a bare value. `toXFromSingle` takes the bare value
  first; `toXFromY` takes a tuple Y first. So `toXFrom<N-1>` takes an
  (N - 1)-tuple and then a bare value.
- Every body copies the left part's elements and then the right part's,
  each in its own order.

The project has five modules:

- `Tuples` (`tuples.dfy`): the tuple types as generic datatypes. The field
  `vI` stands for `getValueI()` and structural equality for `equals`. The
  module also gives the homogeneous view of a tuple as the sequence of its
  elements (`PairToSeq` ... `OctetToSeq`) and its inverse (`PairOfSeq` ...
  `OctetOfSeq`).
- `RxTuples` (`rx_tuples.dfy`): the 34 combinators. Each is one function:
  the factory together with the `apply` of the object it returns.
- `RxTuplesLaws` (`rx_tuples_laws.dfy`): the laws, one arity at a time:
  - full constructors are positional;
  - every split constructor agrees with the full constructor on the
    concatenated elements, for any element types;
  - on homogeneous tuples the result's elements are the left part's followed
    by the right part's;
  - value-first and value-last constructors agree only when every element
    equals the value;
  - the test's chain of combiners rebuilds the full octet.
- `Combinators` (`combinators.dfy`): the library's surface as data. There is
  one datatype constructor per factory, with its argument arities and result
  arity. The laws proved there quantify over all factories:
  - every ordered split and every arity has exactly one factory;
  - applying any factory flattens its arguments in order;
  - all factories of one arity agree;
  - value-first against value-last, for every arity.
- `RxTuplesTest` (`rx_tuples_test.dfy`): the library's test cases, one lemma
  per test method.

On non-null arguments the model does what the code does: the same
arities, the same splits and the same argument order. Null arguments are
covered under "Left out".

## Model

| member | source | states |
|---|---|---|
| `RxTuples.ToPair` | rxtuples/src/main/java/com/pacoworks/rxtuples2/RxTuples.java:47-54 | builds the pair of its 2 arguments, in order; its law is `RxTuplesLaws.FullConstructorsArePositional` (a pair has no split) |
| `RxTuples.ToTriplet` | rxtuples/src/main/java/com/pacoworks/rxtuples2/RxTuples.java:59-66 | builds the triplet of its 3 arguments, in order; its laws are `RxTuplesLaws.FullConstructorsArePositional` and `RxTuplesLaws.TripletSplitsAgree` |
| `RxTuples.ToTripletFromSingle` | rxtuples/src/main/java/com/pacoworks/rxtuples2/RxTuples.java:68-75 | builds the triplet of a bare value followed by a 2-tuple's elements; its laws are `RxTuplesLaws.TripletSplitsAgree`, `RxTuplesLaws.TripletSplitsFlatten` and `RxTuplesLaws.TripletSingleFirstVersusLast` |
| `RxTuples.ToTripletFromPair` | rxtuples/src/main/java/com/pacoworks/rxtuples2/RxTuples.java:77-84 | builds the triplet of a pair's elements followed by a bare value; its laws are `RxTuplesLaws.TripletSplitsAgree`, `RxTuplesLaws.TripletSplitsFlatten` and `RxTuplesLaws.TripletSingleFirstVersusLast` |
| `RxTuples.ToQuartet` | rxtuples/src/main/java/com/pacoworks/rxtuples2/RxTuples.java:90-97 | builds the quartet of its 4 arguments, in order; its laws are `RxTuplesLaws.FullConstructorsArePositional` and `RxTuplesLaws.QuartetSplitsAgree` |
| `RxTuples.ToQuartetFromSingle` | rxtuples/src/main/java/com/pacoworks/rxtuples2/RxTuples.java:99-107 | builds the quartet of a bare value followed by a 3-tuple's elements; its laws are `RxTuplesLaws.QuartetSplitsAgree`, `RxTuplesLaws.QuartetSplitsFlatten` and `RxTuplesLaws.QuartetSingleFirstVersusLast` |
| `RxTuples.ToQuartetFromPair` | rxtuples/src/main/java/com/pacoworks/rxtuples2/RxTuples.java:109-117 | builds the quartet of a pair's elements followed by a 2-tuple's; its laws are `RxTuplesLaws.QuartetSplitsAgree` and `RxTuplesLaws.QuartetSplitsFlatten` |
| `RxTuples.ToQuartetFromTriplet` | rxtuples/src/main/java/com/pacoworks/rxtuples2/RxTuples.java:119-127 | builds the quartet of a triplet's elements followed by a bare value; its laws are `RxTuplesLaws.QuartetSplitsAgree`, `RxTuplesLaws.QuartetSplitsFlatten` and `RxTuplesLaws.QuartetSingleFirstVersusLast` |
| `RxTuples.ToQuintet` | rxtuples/src/main/java/com/pacoworks/rxtuples2/RxTuples.java:133-140 | builds the quintet of its 5 arguments, in order; its laws are `RxTuplesLaws.FullConstructorsArePositional` and `RxTuplesLaws.QuintetSplitsAgree` |
| `RxTuples.ToQuintetFromSingle` | rxtuples/src/main/java/com/pacoworks/rxtuples2/RxTuples.java:142-150 | builds the quintet of a bare value followed by a 4-tuple's elements; its laws are `RxTuplesLaws.QuintetSplitsAgree`, `RxTuplesLaws.QuintetSplitsFlatten` and `RxTuplesLaws.QuintetSingleFirstVersusLast` |
| `RxTuples.ToQuintetFromPair` | rxtuples/src/main/java/com/pacoworks/rxtuples2/RxTuples.java:152-160 | builds the quintet of a pair's elements followed by a 3-tuple's; its laws are `RxTuplesLaws.QuintetSplitsAgree` and `RxTuplesLaws.QuintetSplitsFlatten` |
| `RxTuples.ToQuintetFromTriplet` | rxtuples/src/main/java/com/pacoworks/rxtuples2/RxTuples.java:162-170 | builds the quintet of a triplet's elements followed by a 2-tuple's; its laws are `RxTuplesLaws.QuintetSplitsAgree` and `RxTuplesLaws.QuintetSplitsFlatten` |
| `RxTuples.ToQuintetFromQuartet` | rxtuples/src/main/java/com/pacoworks/rxtuples2/RxTuples.java:172-180 | builds the quintet of a quartet's elements followed by a bare value; its laws are `RxTuplesLaws.QuintetSplitsAgree`, `RxTuplesLaws.QuintetSplitsFlatten` and `RxTuplesLaws.QuintetSingleFirstVersusLast` |
| `RxTuples.ToSextet` | rxtuples/src/main/java/com/pacoworks/rxtuples2/RxTuples.java:186-193 | builds the sextet of its 6 arguments, in order; its laws are `RxTuplesLaws.FullConstructorsArePositional` and `RxTuplesLaws.SextetSplitsAgree` |
| `RxTuples.ToSextetFromSingle` | rxtuples/src/main/java/com/pacoworks/rxtuples2/RxTuples.java:195-203 | builds the sextet of a bare value followed by a 5-tuple's elements; its laws are `RxTuplesLaws.SextetSplitsAgree`, `RxTuplesLaws.SextetSplitsFlatten` and `RxTuplesLaws.SextetSingleFirstVersusLast` |
| `RxTuples.ToSextetFromPair` | rxtuples/src/main/java/com/pacoworks/rxtuples2/RxTuples.java:205-213 | builds the sextet of a pair's elements followed by a 4-tuple's; its laws are `RxTuplesLaws.SextetSplitsAgree` and `RxTuplesLaws.SextetSplitsFlatten` |
| `RxTuples.ToSextetFromTriplet` | rxtuples/src/main/java/com/pacoworks/rxtuples2/RxTuples.java:215-223 | builds the sextet of a triplet's elements followed by a 3-tuple's; its laws are `RxTuplesLaws.SextetSplitsAgree` and `RxTuplesLaws.SextetSplitsFlatten` |
| `RxTuples.ToSextetFromQuartet` | rxtuples/src/main/java/com/pacoworks/rxtuples2/RxTuples.java:225-233 | builds the sextet of a quartet's elements followed by a 2-tuple's; its laws are `RxTuplesLaws.SextetSplitsAgree` and `RxTuplesLaws.SextetSplitsFlatten` |
| `RxTuples.ToSextetFromQuintet` | rxtuples/src/main/java/com/pacoworks/rxtuples2/RxTuples.java:235-243 | builds the sextet of a quintet's elements followed by a bare value; its laws are `RxTuplesLaws.SextetSplitsAgree`, `RxTuplesLaws.SextetSplitsFlatten` and `RxTuplesLaws.SextetSingleFirstVersusLast` |
| `RxTuples.ToSeptet` | rxtuples/src/main/java/com/pacoworks/rxtuples2/RxTuples.java:249-256 | builds the septet of its 7 arguments, in order; its laws are `RxTuplesLaws.FullConstructorsArePositional` and `RxTuplesLaws.SeptetSplitsAgree` |
| `RxTuples.ToSeptetFromSingle` | rxtuples/src/main/java/com/pacoworks/rxtuples2/RxTuples.java:258-267 | builds the septet of a bare value followed by a 6-tuple's elements; its laws are `RxTuplesLaws.SeptetSplitsAgree`, `RxTuplesLaws.SeptetSplitsFlatten` and `RxTuplesLaws.SeptetSingleFirstVersusLast` |
| `RxTuples.ToSeptetFromPair` | rxtuples/src/main/java/com/pacoworks/rxtuples2/RxTuples.java:269-279 | builds the septet of a pair's elements followed by a 5-tuple's; its laws are `RxTuplesLaws.SeptetSplitsAgree` and `RxTuplesLaws.SeptetSplitsFlatten` |
| `RxTuples.ToSeptetFromTriplet` | rxtuples/src/main/java/com/pacoworks/rxtuples2/RxTuples.java:281-291 | builds the septet of a triplet's elements followed by a 4-tuple's; its laws are `RxTuplesLaws.SeptetSplitsAgree` and `RxTuplesLaws.SeptetSplitsFlatten` |
| `RxTuples.ToSeptetFromQuartet` | rxtuples/src/main/java/com/pacoworks/rxtuples2/RxTuples.java:293-303 | builds the septet of a quartet's elements followed by a 3-tuple's; its laws are `RxTuplesLaws.SeptetSplitsAgree` and `RxTuplesLaws.SeptetSplitsFlatten` |
| `RxTuples.ToSeptetFromQuintet` | rxtuples/src/main/java/com/pacoworks/rxtuples2/RxTuples.java:305-315 | builds the septet of a quintet's elements followed by a 2-tuple's; its laws are `RxTuplesLaws.SeptetSplitsAgree` and `RxTuplesLaws.SeptetSplitsFlatten` |
| `RxTuples.ToSeptetFromSextet` | rxtuples/src/main/java/com/pacoworks/rxtuples2/RxTuples.java:317-325 | builds the septet of a sextet's elements followed by a bare value; its laws are `RxTuplesLaws.SeptetSplitsAgree`, `RxTuplesLaws.SeptetSplitsFlatten` and `RxTuplesLaws.SeptetSingleFirstVersusLast` |
| `RxTuples.ToOctet` | rxtuples/src/main/java/com/pacoworks/rxtuples2/RxTuples.java:331-338 | builds the octet of its 8 arguments, in order; its laws are `RxTuplesLaws.FullConstructorsArePositional` and `RxTuplesLaws.OctetSplitsAgree` |
| `RxTuples.ToOctetFromSingle` | rxtuples/src/main/java/com/pacoworks/rxtuples2/RxTuples.java:341-350 | builds the octet of a bare value followed by a 7-tuple's elements; its laws are `RxTuplesLaws.OctetSplitsAgree`, `RxTuplesLaws.OctetSplitsFlatten` and `RxTuplesLaws.OctetSingleFirstVersusLast` |
| `RxTuples.ToOctetFromPair` | rxtuples/src/main/java/com/pacoworks/rxtuples2/RxTuples.java:352-362 | builds the octet of a pair's elements followed by a 6-tuple's; its laws are `RxTuplesLaws.OctetSplitsAgree` and `RxTuplesLaws.OctetSplitsFlatten` |
| `RxTuples.ToOctetFromTriplet` | rxtuples/src/main/java/com/pacoworks/rxtuples2/RxTuples.java:364-374 | builds the octet of a triplet's elements followed by a 5-tuple's; its laws are `RxTuplesLaws.OctetSplitsAgree` and `RxTuplesLaws.OctetSplitsFlatten` |
| `RxTuples.ToOctetFromQuartet` | rxtuples/src/main/java/com/pacoworks/rxtuples2/RxTuples.java:376-386 | builds the octet of a quartet's elements followed by a 4-tuple's; its laws are `RxTuplesLaws.OctetSplitsAgree` and `RxTuplesLaws.OctetSplitsFlatten` |
| `RxTuples.ToOctetFromQuintet` | rxtuples/src/main/java/com/pacoworks/rxtuples2/RxTuples.java:388-398 | builds the octet of a quintet's elements followed by a 3-tuple's; its laws are `RxTuplesLaws.OctetSplitsAgree` and `RxTuplesLaws.OctetSplitsFlatten` |
| `RxTuples.ToOctetFromSextet` | rxtuples/src/main/java/com/pacoworks/rxtuples2/RxTuples.java:400-410 | builds the octet of a sextet's elements followed by a 2-tuple's; its laws are `RxTuplesLaws.OctetSplitsAgree` and `RxTuplesLaws.OctetSplitsFlatten` |
| `RxTuples.ToOctetFromSeptet` | rxtuples/src/main/java/com/pacoworks/rxtuples2/RxTuples.java:412-421 | builds the octet of a septet's elements followed by a bare value; its laws are `RxTuplesLaws.OctetSplitsAgree`, `RxTuplesLaws.OctetSplitsFlatten` and `RxTuplesLaws.OctetSingleFirstVersusLast` |
| `RxTuplesLaws.FullConstructorsArePositional` | rxtuples/src/main/java/com/pacoworks/rxtuples2/RxTuples.java:47-338 | for each arity 2..8, the full constructor's result holds its i-th argument at position i, and nothing else |
| `RxTuplesLaws.TripletSplitsAgree` | rxtuples/src/main/java/com/pacoworks/rxtuples2/RxTuples.java:59-84 | every split constructor of arity 3 equals the full constructor applied to the left part's elements and then the right part's, for any element types; hence all of them agree with each other |
| `RxTuplesLaws.QuartetSplitsAgree` | rxtuples/src/main/java/com/pacoworks/rxtuples2/RxTuples.java:90-127 | every split constructor of arity 4 equals the full constructor applied to the left part's elements and then the right part's, for any element types; hence all of them agree with each other |
| `RxTuplesLaws.QuintetSplitsAgree` | rxtuples/src/main/java/com/pacoworks/rxtuples2/RxTuples.java:133-180 | every split constructor of arity 5 equals the full constructor applied to the left part's elements and then the right part's, for any element types; hence all of them agree with each other |
| `RxTuplesLaws.SextetSplitsAgree` | rxtuples/src/main/java/com/pacoworks/rxtuples2/RxTuples.java:186-243 | every split constructor of arity 6 equals the full constructor applied to the left part's elements and then the right part's, for any element types; hence all of them agree with each other |
| `RxTuplesLaws.SeptetSplitsAgree` | rxtuples/src/main/java/com/pacoworks/rxtuples2/RxTuples.java:249-325 | every split constructor of arity 7 equals the full constructor applied to the left part's elements and then the right part's, for any element types; hence all of them agree with each other |
| `RxTuplesLaws.OctetSplitsAgree` | rxtuples/src/main/java/com/pacoworks/rxtuples2/RxTuples.java:331-421 | every split constructor of arity 8 equals the full constructor applied to the left part's elements and then the right part's, for any element types; hence all of them agree with each other |
| `RxTuplesLaws.TripletSplitsFlatten` | rxtuples/src/main/java/com/pacoworks/rxtuples2/RxTuples.java:68-84 | for every split constructor of arity 3, on homogeneous tuples, the result's elements are exactly the left part's elements followed by the right part's (a bare value counting as one element) |
| `RxTuplesLaws.QuartetSplitsFlatten` | rxtuples/src/main/java/com/pacoworks/rxtuples2/RxTuples.java:99-127 | for every split constructor of arity 4, on homogeneous tuples, the result's elements are exactly the left part's elements followed by the right part's (a bare value counting as one element) |
| `RxTuplesLaws.QuintetSplitsFlatten` | rxtuples/src/main/java/com/pacoworks/rxtuples2/RxTuples.java:142-180 | for every split constructor of arity 5, on homogeneous tuples, the result's elements are exactly the left part's elements followed by the right part's (a bare value counting as one element) |
| `RxTuplesLaws.SextetSplitsFlatten` | rxtuples/src/main/java/com/pacoworks/rxtuples2/RxTuples.java:195-243 | for every split constructor of arity 6, on homogeneous tuples, the result's elements are exactly the left part's elements followed by the right part's (a bare value counting as one element) |
| `RxTuplesLaws.SeptetSplitsFlatten` | rxtuples/src/main/java/com/pacoworks/rxtuples2/RxTuples.java:258-325 | for every split constructor of arity 7, on homogeneous tuples, the result's elements are exactly the left part's elements followed by the right part's (a bare value counting as one element) |
| `RxTuplesLaws.OctetSplitsFlatten` | rxtuples/src/main/java/com/pacoworks/rxtuples2/RxTuples.java:341-421 | for every split constructor of arity 8, on homogeneous tuples, the result's elements are exactly the left part's elements followed by the right part's (a bare value counting as one element) |
| `RxTuplesLaws.TripletSingleFirstVersusLast` | rxtuples/src/main/java/com/pacoworks/rxtuples2/RxTuples.java:68-84 | the value-first and value-last constructors of arity 3 give equal tuples from the same value and tuple if and only if every element of the tuple equals the value |
| `RxTuplesLaws.QuartetSingleFirstVersusLast` | rxtuples/src/main/java/com/pacoworks/rxtuples2/RxTuples.java:99-127 | the value-first and value-last constructors of arity 4 give equal tuples from the same value and tuple if and only if every element of the tuple equals the value |
| `RxTuplesLaws.QuintetSingleFirstVersusLast` | rxtuples/src/main/java/com/pacoworks/rxtuples2/RxTuples.java:142-180 | the value-first and value-last constructors of arity 5 give equal tuples from the same value and tuple if and only if every element of the tuple equals the value |
| `RxTuplesLaws.SextetSingleFirstVersusLast` | rxtuples/src/main/java/com/pacoworks/rxtuples2/RxTuples.java:195-243 | the value-first and value-last constructors of arity 6 give equal tuples from the same value and tuple if and only if every element of the tuple equals the value |
| `RxTuplesLaws.SeptetSingleFirstVersusLast` | rxtuples/src/main/java/com/pacoworks/rxtuples2/RxTuples.java:258-325 | the value-first and value-last constructors of arity 7 give equal tuples from the same value and tuple if and only if every element of the tuple equals the value |
| `RxTuplesLaws.OctetSingleFirstVersusLast` | rxtuples/src/main/java/com/pacoworks/rxtuples2/RxTuples.java:341-421 | the value-first and value-last constructors of arity 8 give equal tuples from the same value and tuple if and only if every element of the tuple equals the value |
| `RxTuplesLaws.Chain` | rxtuples2/src/test/java/com/pacoworks/rxtuples2/RxTuplesTest.java:53-67 | growing a pair one value at a time with the value-last constructors, up to an octet, yields exactly the full octet of the eight values in order |
| `Combinators.PartsMakeArity` | rxtuples/src/main/java/com/pacoworks/rxtuples2/RxTuples.java:47-421 | every factory builds an arity between 2 and 8; each argument is a bare value or a tuple smaller than the result; the argument arities add up to the result's arity; a full constructor takes one bare value per position |
| `Combinators.SplitOf` | rxtuples/src/main/java/com/pacoworks/rxtuples2/RxTuples.java:68-421 | for every arity n in 3..8 and every k in 1..n-1 there is a split factory whose arguments have arities k and n - k |
| `Combinators.FullOf` | rxtuples/src/main/java/com/pacoworks/rxtuples2/RxTuples.java:47-338 | for every arity n in 2..8 there is a full constructor of n bare values |
| `Combinators.FactoriesAreUnique` | rxtuples/src/main/java/com/pacoworks/rxtuples2/RxTuples.java:47-421 | every factory is the one `SplitOf` or `FullOf` gives for its shape, so each ordered split and each arity has exactly one factory (27 split factories, 7 full constructors) |
| `Combinators.Apply` | rxtuples/src/main/java/com/pacoworks/rxtuples2/RxTuples.java:47-421 | invoking any factory on homogeneous arguments of the right shapes yields a tuple of exactly the factory's arity |
| `Combinators.ApplyFlattens` | rxtuples/src/main/java/com/pacoworks/rxtuples2/RxTuples.java:47-421 | for every factory, the elements of the result are the concatenation of the arguments' elements in argument order: nothing is dropped, duplicated or reordered |
| `Combinators.SplitsAgree` | rxtuples/src/main/java/com/pacoworks/rxtuples2/RxTuples.java:59-421 | for every arity n in 3..8 and every way k of splitting n elements, the split factory applied to the two slices and the full constructor applied to the elements all give back exactly those elements |
| `Combinators.SingleFirstVersusLast` | rxtuples/src/main/java/com/pacoworks/rxtuples2/RxTuples.java:68-421 | for every arity n in 3..8, the value-first and the value-last factory agree on a value and an (n-1)-tuple if and only if every element of the tuple equals the value |
| `RxTuplesTest.TestWarmup` | rxtuples2/src/test/java/com/pacoworks/rxtuples2/RxTuplesTest.java:69-82 | the chain of combiners gives the all-1 and the all-10 octet from the first and last values of the range, and the full quartet constructor the quartet 1..4 |
| `RxTuplesTest.ChainBuildsResOctet` | rxtuples2/src/test/java/com/pacoworks/rxtuples2/RxTuplesTest.java:48-67 | the test's chain of combiners applied to 1..8 builds exactly the reference octet `RES_OCTET` (1, ..., 8) |
| `RxTuplesTest.TestToPair` | rxtuples2/src/test/java/com/pacoworks/rxtuples2/RxTuplesTest.java:84-87 | `ToPair(1, 2)` is the pair (1, 2) |
| `RxTuplesTest.TestToTriplet` | rxtuples2/src/test/java/com/pacoworks/rxtuples2/RxTuplesTest.java:89-99 | the full, value-last and value-first constructors all give the triplet (1, 2, 3) |
| `RxTuplesTest.TestToQuartet` | rxtuples2/src/test/java/com/pacoworks/rxtuples2/RxTuplesTest.java:101-116 | all four quartet constructors give (1, 2, 3, 4) from the test's inputs |
| `RxTuplesTest.TestToQuintet` | rxtuples2/src/test/java/com/pacoworks/rxtuples2/RxTuplesTest.java:118-139 | all five quintet constructors give (1, ..., 5) from the test's inputs |
| `RxTuplesTest.TestToSextet` | rxtuples2/src/test/java/com/pacoworks/rxtuples2/RxTuplesTest.java:141-166 | all six sextet constructors give (1, ..., 6) from the test's inputs |
| `RxTuplesTest.TestToSeptet` | rxtuples2/src/test/java/com/pacoworks/rxtuples2/RxTuplesTest.java:168-196 | all seven septet constructors give (1, ..., 7) from the test's inputs |
| `RxTuplesTest.TestToOctet` | rxtuples2/src/test/java/com/pacoworks/rxtuples2/RxTuplesTest.java:198-231 | all eight octet constructors give (1, ..., 8) from the test's inputs |
## Left out

- RxJava's `BiFunction` and `Function3` ... `Function8` interfaces, and the
  anonymous classes implementing them, belong to another library. Each
  factory and the `apply` of the object it returns are one Dafny function.
  Calling `toX()` and then `apply(...)` is a single call here.
- The javatuples internals (`with`, `getValueN`, `equals`, `hashCode`) are
  library code and are not part of this model. Datatypes with named fields
  and Dafny's structural equality stand in for them.
- Java's `null` elements: javatuples accepts `null` in any position, and
  Dafny values have no `null`. A position's type can hold an explicit
  "absent" value if one is needed. The combinators only copy elements, so
  null elements change nothing.
- A `null` tuple argument: every split combinator reads its tuple
  arguments through `getValueN()`, so in Java a `null` tuple argument makes
  it throw `NullPointerException`. For example,
  `toTripletFromSingle().apply(1, null)` fails at `objects.getValue0()`.
  Dafny datatype values cannot be null, so the model covers only non-null
  tuple arguments. That error path is not modelled.
- The test's reactive plumbing is not modelled: `Observable.range`,
  `zipWith`, `combineLatest`, `just`, `blockingFirst`, `blockingLast`.
  `RxTuplesTest.TestWarmup` keeps only the element values that test checks.
- Thread safety and reentrancy: every combinator is a pure function, and
  the model has no concurrency to check.
- Explicit type witnesses and the compile-time rejection of ill-typed calls
  come from Java's type checker. Dafny's type checker enforces the same
  arities and element types.
- Combinators.Apply: stated on tuples whose positions all have one element
  type, because it ranges over every factory at once. The `...SplitsAgree`
  lemmas in `RxTuplesLaws` state agreement for arbitrary element types.
- Combinators.ApplyFlattens: homogeneous element types only, for the same
  reason.
- Combinators.SplitsAgree: homogeneous element types only, for the same
  reason.
- Combinators.SingleFirstVersusLast: homogeneous element types only, for
  the same reason.
