/** The tuple combinators.

    The library is a class with no state and no instances; each public static
    factory returns a small function object whose `apply` builds one tuple.
    Here each factory together with its `apply` is one total function: the
    arguments of `apply` are the function's parameters and the tuple it builds
    is the result.

    For every target arity N there is a full constructor (`ToPair`, ...,
    `ToOctet`) taking the N elements separately, and for N >= 3 one split
    constructor for every ordered split (k, N - k), 1 <= k < N, of the elements
    into two parts.  A part of arity 1 is a bare value, every other part is a
    tuple.  The split constructor's name says what its LEFT part is:
    `...FromSingle` takes the bare value first and an (N - 1)-tuple after it;
    `...FromPair`, `...FromTriplet`, ... take a tuple of that arity first.  So
    `To<N>From<N - 1>` is the one that takes an (N - 1)-tuple and then a bare
    value.  Every body copies the left part's elements and then the right
    part's, each in its own order. */
module RxTuples {
  import opened Tuples

  // Arity 2

  function ToPair<T, U>(t: T, t2: U): (r: Pair<T, U>)
  {
    Pair(t, t2)
  }

  // Arity 3

  function ToTriplet<A, B, C>(a: A, b: B, c: C): (r: Triplet<A, B, C>)
  {
    Triplet(a, b, c)
  }

  function ToTripletFromSingle<A, B, T>(first: T, rest: Pair<A, B>): (r: Triplet<T, A, B>)
  {
    Triplet(first, rest.v0, rest.v1)
  }

  function ToTripletFromPair<A, B, T>(init: Pair<A, B>, last: T): (r: Triplet<A, B, T>)
  {
    Triplet(init.v0, init.v1, last)
  }

  // Arity 4

  function ToQuartet<A, B, C, D>(a: A, b: B, c: C, d: D): (r: Quartet<A, B, C, D>)
  {
    Quartet(a, b, c, d)
  }

  function ToQuartetFromSingle<A, B, C, T>(first: T, rest: Triplet<A, B, C>): (r: Quartet<T, A, B, C>)
  {
    Quartet(first, rest.v0, rest.v1, rest.v2)
  }

  function ToQuartetFromPair<A, B, C, D>(left: Pair<A, B>, right: Pair<C, D>): (r: Quartet<A, B, C, D>)
  {
    Quartet(left.v0, left.v1, right.v0, right.v1)
  }

  function ToQuartetFromTriplet<A, B, C, T>(init: Triplet<A, B, C>, last: T): (r: Quartet<A, B, C, T>)
  {
    Quartet(init.v0, init.v1, init.v2, last)
  }

  // Arity 5

  function ToQuintet<A, B, C, D, E>(a: A, b: B, c: C, d: D, e: E): (r: Quintet<A, B, C, D, E>)
  {
    Quintet(a, b, c, d, e)
  }

  function ToQuintetFromSingle<A, B, C, D, T>(first: T, rest: Quartet<A, B, C, D>): (r: Quintet<T, A, B, C, D>)
  {
    Quintet(first, rest.v0, rest.v1, rest.v2, rest.v3)
  }

  function ToQuintetFromPair<A, B, C, D, E>(left: Pair<A, B>, right: Triplet<C, D, E>): (r: Quintet<A, B, C, D, E>)
  {
    Quintet(left.v0, left.v1, right.v0, right.v1, right.v2)
  }

  function ToQuintetFromTriplet<A, B, C, D, E>(left: Triplet<A, B, C>, right: Pair<D, E>): (r: Quintet<A, B, C, D, E>)
  {
    Quintet(left.v0, left.v1, left.v2, right.v0, right.v1)
  }

  function ToQuintetFromQuartet<A, B, C, D, T>(init: Quartet<A, B, C, D>, last: T): (r: Quintet<A, B, C, D, T>)
  {
    Quintet(init.v0, init.v1, init.v2, init.v3, last)
  }

  // Arity 6

  function ToSextet<A, B, C, D, E, F>(a: A, b: B, c: C, d: D, e: E, f: F): (r: Sextet<A, B, C, D, E, F>)
  {
    Sextet(a, b, c, d, e, f)
  }

  function ToSextetFromSingle<A, B, C, D, E, T>(first: T, rest: Quintet<A, B, C, D, E>): (r: Sextet<T, A, B, C, D, E>)
  {
    Sextet(first, rest.v0, rest.v1, rest.v2, rest.v3, rest.v4)
  }

  function ToSextetFromPair<A, B, C, D, E, F>(left: Pair<A, B>, right: Quartet<C, D, E, F>): (r: Sextet<A, B, C, D, E, F>)
  {
    Sextet(left.v0, left.v1, right.v0, right.v1, right.v2, right.v3)
  }

  function ToSextetFromTriplet<A, B, C, D, E, F>(left: Triplet<A, B, C>, right: Triplet<D, E, F>): (r: Sextet<A, B, C, D, E, F>)
  {
    Sextet(left.v0, left.v1, left.v2, right.v0, right.v1, right.v2)
  }

  function ToSextetFromQuartet<A, B, C, D, E, F>(left: Quartet<A, B, C, D>, right: Pair<E, F>): (r: Sextet<A, B, C, D, E, F>)
  {
    Sextet(left.v0, left.v1, left.v2, left.v3, right.v0, right.v1)
  }

  function ToSextetFromQuintet<A, B, C, D, E, T>(init: Quintet<A, B, C, D, E>, last: T): (r: Sextet<A, B, C, D, E, T>)
  {
    Sextet(init.v0, init.v1, init.v2, init.v3, init.v4, last)
  }

  // Arity 7

  function ToSeptet<A, B, C, D, E, F, G>(a: A, b: B, c: C, d: D, e: E, f: F, g: G): (r: Septet<A, B, C, D, E, F, G>)
  {
    Septet(a, b, c, d, e, f, g)
  }

  function ToSeptetFromSingle<A, B, C, D, E, F, T>(first: T, rest: Sextet<A, B, C, D, E, F>): (r: Septet<T, A, B, C, D, E, F>)
  {
    Septet(first, rest.v0, rest.v1, rest.v2, rest.v3, rest.v4, rest.v5)
  }

  function ToSeptetFromPair<A, B, C, D, E, F, G>(left: Pair<A, B>, right: Quintet<C, D, E, F, G>): (r: Septet<A, B, C, D, E, F, G>)
  {
    Septet(left.v0, left.v1, right.v0, right.v1, right.v2, right.v3, right.v4)
  }

  function ToSeptetFromTriplet<A, B, C, D, E, F, G>(left: Triplet<A, B, C>, right: Quartet<D, E, F, G>): (r: Septet<A, B, C, D, E, F, G>)
  {
    Septet(left.v0, left.v1, left.v2, right.v0, right.v1, right.v2, right.v3)
  }

  function ToSeptetFromQuartet<A, B, C, D, E, F, G>(left: Quartet<A, B, C, D>, right: Triplet<E, F, G>): (r: Septet<A, B, C, D, E, F, G>)
  {
    Septet(left.v0, left.v1, left.v2, left.v3, right.v0, right.v1, right.v2)
  }

  function ToSeptetFromQuintet<A, B, C, D, E, F, G>(left: Quintet<A, B, C, D, E>, right: Pair<F, G>): (r: Septet<A, B, C, D, E, F, G>)
  {
    Septet(left.v0, left.v1, left.v2, left.v3, left.v4, right.v0, right.v1)
  }

  function ToSeptetFromSextet<A, B, C, D, E, F, T>(init: Sextet<A, B, C, D, E, F>, last: T): (r: Septet<A, B, C, D, E, F, T>)
  {
    Septet(init.v0, init.v1, init.v2, init.v3, init.v4, init.v5, last)
  }

  // Arity 8

  function ToOctet<A, B, C, D, E, F, G, H>(a: A, b: B, c: C, d: D, e: E, f: F, g: G, h: H): (r: Octet<A, B, C, D, E, F, G, H>)
  {
    Octet(a, b, c, d, e, f, g, h)
  }

  function ToOctetFromSingle<A, B, C, D, E, F, G, T>(first: T, rest: Septet<A, B, C, D, E, F, G>): (r: Octet<T, A, B, C, D, E, F, G>)
  {
    Octet(first, rest.v0, rest.v1, rest.v2, rest.v3, rest.v4, rest.v5, rest.v6)
  }

  function ToOctetFromPair<A, B, C, D, E, F, G, H>(left: Pair<A, B>, right: Sextet<C, D, E, F, G, H>): (r: Octet<A, B, C, D, E, F, G, H>)
  {
    Octet(left.v0, left.v1, right.v0, right.v1, right.v2, right.v3, right.v4, right.v5)
  }

  function ToOctetFromTriplet<A, B, C, D, E, F, G, H>(left: Triplet<A, B, C>, right: Quintet<D, E, F, G, H>): (r: Octet<A, B, C, D, E, F, G, H>)
  {
    Octet(left.v0, left.v1, left.v2, right.v0, right.v1, right.v2, right.v3, right.v4)
  }

  function ToOctetFromQuartet<A, B, C, D, E, F, G, H>(left: Quartet<A, B, C, D>, right: Quartet<E, F, G, H>): (r: Octet<A, B, C, D, E, F, G, H>)
  {
    Octet(left.v0, left.v1, left.v2, left.v3, right.v0, right.v1, right.v2, right.v3)
  }

  function ToOctetFromQuintet<A, B, C, D, E, F, G, H>(left: Quintet<A, B, C, D, E>, right: Triplet<F, G, H>): (r: Octet<A, B, C, D, E, F, G, H>)
  {
    Octet(left.v0, left.v1, left.v2, left.v3, left.v4, right.v0, right.v1, right.v2)
  }

  function ToOctetFromSextet<A, B, C, D, E, F, G, H>(left: Sextet<A, B, C, D, E, F>, right: Pair<G, H>): (r: Octet<A, B, C, D, E, F, G, H>)
  {
    Octet(left.v0, left.v1, left.v2, left.v3, left.v4, left.v5, right.v0, right.v1)
  }

  function ToOctetFromSeptet<A, B, C, D, E, F, G, T>(init: Septet<A, B, C, D, E, F, G>, last: T): (r: Octet<A, B, C, D, E, F, G, T>)
  {
    Octet(init.v0, init.v1, init.v2, init.v3, init.v4, init.v5, init.v6, last)
  }
}
