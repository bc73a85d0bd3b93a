/** The sequence combinator of the nested `for` loops of the modelled
    code: the concatenation of per-element results that stops at the
    first element that throws. */
module Sequences {
  import opened Wrappers

  /** The outputs of `f` (given the context `c`) on the elements in
      order, concatenated; the failure of the first element on which `f`
      fails. */
  function ConcatMap<C, A, B>(f: (C, A) -> Result<seq<B>>, c: C, xs: seq<A>): Result<seq<B>> {
    if xs == [] then Success([])
    else match ConcatMap(f, c, xs[..|xs| - 1])
      case Failure(e) => Failure(e)
      case Success(done) =>
        match f(c, xs[|xs| - 1])
        case Failure(e) => Failure(e)
        case Success(ys) => Success(done + ys)
  }

  /** Every element of `s` satisfies `P`. */
  predicate All<B>(P: B -> bool, s: seq<B>) {
    forall i :: 0 <= i < |s| ==> P(s[i])
  }

  lemma AllSingleton<B>(P: B -> bool, x: B)
    requires P(x)
    ensures All(P, [x])
  {
  }

  /** One more element that succeeds extends the output. */
  lemma ConcatMapNext<C, A, B>(f: (C, A) -> Result<seq<B>>, c: C, xs: seq<A>, i: nat, done: seq<B>, ys: seq<B>)
    requires i < |xs| && ConcatMap(f, c, xs[..i]) == Success(done) && f(c, xs[i]) == Success(ys)
    ensures ConcatMap(f, c, xs[..i + 1]) == Success(done + ys)
  {
    assert xs[..i + 1][..i] == xs[..i];
  }

  /** Once a prefix has failed, the whole sequence fails the same way. */
  lemma {:induction false} ConcatMapFailurePersists<C, A, B>(f: (C, A) -> Result<seq<B>>, c: C, xs: seq<A>, k: nat)
    requires k <= |xs| && ConcatMap(f, c, xs[..k]).Failure?
    ensures ConcatMap(f, c, xs) == ConcatMap(f, c, xs[..k])
    decreases |xs| - k
  {
    if k < |xs| {
      assert xs[..k + 1][..k] == xs[..k];
      ConcatMapFailurePersists(f, c, xs, k + 1);
    } else {
      assert xs[..k] == xs;
    }
  }

  /** The first element that fails, after a prefix that succeeded, decides
      the failure of the whole sequence. */
  lemma ConcatMapStops<C, A, B>(f: (C, A) -> Result<seq<B>>, c: C, xs: seq<A>, i: nat, done: seq<B>, e: string)
    requires i < |xs| && ConcatMap(f, c, xs[..i]) == Success(done) && f(c, xs[i]) == Failure(e)
    ensures ConcatMap(f, c, xs) == Failure(e)
  {
    assert xs[..i + 1][..i] == xs[..i];
    ConcatMapFailurePersists(f, c, xs, i + 1);
  }

  /** The concatenation succeeds exactly when `f` succeeds on every element. */
  lemma {:induction false} ConcatMapSucceeds<C, A, B>(f: (C, A) -> Result<seq<B>>, c: C, xs: seq<A>)
    ensures ConcatMap(f, c, xs).Success? <==> forall i :: 0 <= i < |xs| ==> f(c, xs[i]).Success?
    decreases |xs|
  {
    if xs != [] {
      var init := xs[..|xs| - 1];
      ConcatMapSucceeds(f, c, init);
      assert forall i :: 0 <= i < |init| ==> init[i] == xs[i];
    }
  }

  /** A property every output of `f` has is had by the whole output. */
  lemma {:induction false} ConcatMapAll<C, A, B>(f: (C, A) -> Result<seq<B>>, c: C, P: B -> bool, xs: seq<A>)
    requires forall i :: 0 <= i < |xs| && f(c, xs[i]).Success? ==> All(P, f(c, xs[i]).value)
    ensures ConcatMap(f, c, xs).Success? ==> All(P, ConcatMap(f, c, xs).value)
    decreases |xs|
  {
    if xs != [] {
      var init := xs[..|xs| - 1];
      assert forall i :: 0 <= i < |init| ==> init[i] == xs[i];
      ConcatMapAll(f, c, P, init);
      if ConcatMap(f, c, xs).Success? {
        var done, ys := ConcatMap(f, c, init).value, f(c, xs[|xs| - 1]).value;
        assert ConcatMap(f, c, xs).value == done + ys;
        assert forall j :: 0 <= j < |done + ys| ==> P((done + ys)[j]) by {
          forall j | 0 <= j < |done + ys|
            ensures P((done + ys)[j])
          {
            if j >= |done| {
              assert (done + ys)[j] == ys[j - |done|];
            }
          }
        }
      }
    }
  }

  /** Every failure of the concatenation is a failure of `f` on one of the
      elements. */
  lemma {:induction false} ConcatMapFailureFrom<C, A, B>(f: (C, A) -> Result<seq<B>>, c: C, xs: seq<A>)
    requires ConcatMap(f, c, xs).Failure?
    ensures exists i :: 0 <= i < |xs| && f(c, xs[i]) == Failure(ConcatMap(f, c, xs).error)
    decreases |xs|
  {
    var init := xs[..|xs| - 1];
    if ConcatMap(f, c, init).Failure? {
      ConcatMapFailureFrom(f, c, init);
      var i :| 0 <= i < |init| && f(c, init[i]) == Failure(ConcatMap(f, c, init).error);
      assert init[i] == xs[i];
    } else {
      assert f(c, xs[|xs| - 1]) == Failure(ConcatMap(f, c, xs).error);
    }
  }
}
