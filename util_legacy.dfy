/** The older single-file `_util` module: `single` over an iterator and the
    `dbstr` type. */
module UtilLegacy {
  import opened Common
  import UtilPkg

  /** `single(xs)` steps the iterator at most twice: the outcome depends only
      on the first two elements the iterator yields, which is `prefix`. */
  function SingleOfPrefix<T>(prefix: seq<T>): (r: Result<T>)
    requires |prefix| <= 2
    ensures r.Ok? <==> |prefix| == 1
    ensures r.Ok? ==> r.value == prefix[0]
  {
    if prefix == [] then Err(Raised("ValueError", "No values present"))
    else if |prefix| == 2 then Err(Raised("ValueError", "Multiple values present"))
    else Ok(prefix[0])
  }

  /** What `single` consumes of a finite collection: at most two elements. */
  function Consumed<T>(xs: seq<T>): (p: seq<T>)
    ensures |p| <= 2 && |p| <= |xs| && p == xs[..|p|]
    ensures |p| == if |xs| < 2 then |xs| else 2
  {
    if |xs| < 2 then xs else xs[..2]
  }

  function Single<T>(xs: seq<T>): (r: Result<T>)
    ensures r.Ok? <==> |xs| == 1
    ensures r.Ok? ==> r.value == xs[0]
    ensures |xs| == 0 ==> r == Err(Raised("ValueError", "No values present"))
    ensures |xs| >= 2 ==> r == Err(Raised("ValueError", "Multiple values present"))
  {
    SingleOfPrefix(Consumed(xs))
  }

  /** Elements after the second are never looked at. */
  lemma SingleIgnoresTail<T>(xs: seq<T>, ys: seq<T>)
    requires |xs| >= 2
    ensures Single(xs + ys) == Single(xs)
  {
  }

  /** The legacy `single` agrees with the package one on every input. */
  lemma SingleAgrees<T>(xs: seq<T>)
    ensures Single(xs) == UtilPkg.Single(xs)
  {
  }

  /** `dbstr`: exactly the strings without a NUL character. */
  predicate IsDbstr(s: string) {
    0 as char !in s
  }

  lemma DbstrAgrees(s: string)
    ensures IsDbstr(s) <==> UtilPkg.IsDbstr(s)
  {
  }
}
