/** Facts about sequences without repeated elements, used by the lookup tables and the dedup loops. */
module Seqs {
  import opened Wrappers

  ghost predicate NoDup<T>(s: seq<T>) {
    forall i, j :: 0 <= i < j < |s| ==> s[i] != s[j]
  }

  ghost predicate Disjoint<T>(a: seq<T>, b: seq<T>) {
    forall x :: x in a ==> x !in b
  }

  /** Joining two repetition-free sequences with no common element gives a repetition-free sequence. */
  lemma NoDupAppend<T>(a: seq<T>, b: seq<T>)
    requires NoDup(a) && NoDup(b) && Disjoint(a, b)
    ensures NoDup(a + b)
  {
    forall i, j | 0 <= i < j < |a + b|
      ensures (a + b)[i] != (a + b)[j]
    {
      if i < |a| <= j {
        assert (a + b)[i] in a;
        assert (a + b)[j] in b;
      }
    }
  }

  lemma DisjointAppend<T>(a: seq<T>, b: seq<T>, c: seq<T>)
    requires Disjoint(a, b) && Disjoint(a, c)
    ensures Disjoint(a, b + c)
  {
  }

  /** The set of elements of a repetition-free sequence has as many elements as the sequence. */
  lemma {:induction false} CardOfNoDup<T>(s: seq<T>)
    requires NoDup(s)
    ensures |set x | x in s| == |s|
  {
    if s != [] {
      var rest := s[1..];
      assert NoDup(rest) by {
        forall i, j | 0 <= i < j < |rest| ensures rest[i] != rest[j] {
          assert rest[i] == s[i + 1] && rest[j] == s[j + 1];
        }
      }
      CardOfNoDup(rest);
      assert s[0] !in rest by {
        forall k | 0 <= k < |rest| ensures rest[k] != s[0] {
          assert rest[k] == s[k + 1];
        }
      }
      assert (set x | x in s) == {s[0]} + (set x | x in rest) by {
        assert s == [s[0]] + rest;
      }
    }
  }

  /** Applies `f` to every element, in order; `None` as soon as one application gives `None`. */
  function MapSome<T, U>(xs: seq<T>, f: T -> Option<U>): Option<seq<U>>
    decreases |xs|
  {
    if xs == [] then Some([])
    else
      var init := MapSome(xs[..|xs| - 1], f);
      var last := f(xs[|xs| - 1]);
      if init.None? || last.None? then None else Some(init.value + [last.value])
  }

  /** `MapSome` succeeds exactly when every application does, and then maps pointwise. */
  lemma {:induction false} MapSomeSpec<T, U>(xs: seq<T>, f: T -> Option<U>)
    ensures var r := MapSome(xs, f);
      (r.Some? <==> forall i :: 0 <= i < |xs| ==> f(xs[i]).Some?) &&
      (r.Some? ==> (|r.value| == |xs| && forall i :: 0 <= i < |xs| ==> r.value[i] == f(xs[i]).value))
    decreases |xs|
  {
    if xs != [] {
      var init := xs[..|xs| - 1];
      MapSomeSpec(init, f);
      assert forall i :: 0 <= i < |init| ==> init[i] == xs[i];
    }
  }

  /** Applies `f` to every element, in order; the first error stops the walk and is the result. */
  function MapResult<T, U>(xs: seq<T>, f: T -> Result<U>): Result<seq<U>>
    decreases |xs|
  {
    if xs == [] then Ok([])
    else
      var init :- MapResult(xs[..|xs| - 1], f);
      var last :- f(xs[|xs| - 1]);
      Ok(init + [last])
  }

  /** `MapResult` succeeds exactly when every application does, and then maps pointwise. */
  lemma {:induction false} MapResultSpec<T, U>(xs: seq<T>, f: T -> Result<U>)
    ensures var r := MapResult(xs, f);
      (r.Ok? <==> forall i :: 0 <= i < |xs| ==> f(xs[i]).Ok?) &&
      (r.Ok? ==> (|r.value| == |xs| && forall i :: 0 <= i < |xs| ==> r.value[i] == f(xs[i]).value))
    decreases |xs|
  {
    if xs != [] {
      var init := xs[..|xs| - 1];
      MapResultSpec(init, f);
      assert forall i :: 0 <= i < |init| ==> init[i] == xs[i];
    }
  }

  /** Once a prefix of the walk fails, the whole walk fails with the same error. */
  lemma {:induction false} MapResultErrExtends<T, U>(xs: seq<T>, n: nat, f: T -> Result<U>)
    requires n <= |xs| && MapResult(xs[..n], f).Err?
    ensures MapResult(xs, f) == MapResult(xs[..n], f)
    decreases |xs| - n
  {
    if n == |xs| {
      assert xs[..n] == xs;
    } else {
      assert xs[..n + 1][..n] == xs[..n];
      MapResultErrExtends(xs, n + 1, f);
    }
  }

  /** The walk's error is the one of the first element that fails. */
  lemma MapResultErrAt<T, U>(xs: seq<T>, i: nat, f: T -> Result<U>)
    requires i < |xs| && MapResult(xs[..i], f).Ok? && f(xs[i]).Err?
    ensures MapResult(xs, f) == Err(f(xs[i]).fault)
  {
    assert xs[..i + 1][..i] == xs[..i];
    MapResultErrExtends(xs, i + 1, f);
  }

  /** One more successful element extends a successful walk by its image. */
  lemma MapResultStep<T, U>(xs: seq<T>, i: nat, f: T -> Result<U>)
    requires i < |xs| && MapResult(xs[..i], f).Ok? && f(xs[i]).Ok?
    ensures MapResult(xs[..i + 1], f) == Ok(MapResult(xs[..i], f).value + [f(xs[i]).value])
  {
    assert xs[..i + 1][..i] == xs[..i];
  }

  /** Replaces every element by the sequence `f` makes of it, in order, and joins the results. */
  function ConcatMap<T, U>(xs: seq<T>, f: T -> seq<U>): seq<U>
    decreases |xs|
  {
    if xs == [] then [] else ConcatMap(xs[..|xs| - 1], f) + f(xs[|xs| - 1])
  }

  /** Each element's image takes the element's place: joining two lists joins their images. */
  lemma {:induction false} ConcatMapAppend<T, U>(a: seq<T>, b: seq<T>, f: T -> seq<U>)
    ensures ConcatMap(a + b, f) == ConcatMap(a, f) + ConcatMap(b, f)
    decreases |b|
  {
    if b == [] {
      assert a + b == a;
    } else {
      var init := b[..|b| - 1];
      ConcatMapAppend(a, init, f);
      assert (a + b)[..|a + b| - 1] == a + init;
      assert (a + b)[|a + b| - 1] == b[|b| - 1];
      assert ConcatMap(a, f) + ConcatMap(init, f) + f(b[|b| - 1]) ==
        ConcatMap(a, f) + (ConcatMap(init, f) + f(b[|b| - 1]));
    }
  }

  /** An element of one image is an element of the joined images. */
  lemma {:induction false} ConcatMapMember<T, U>(xs: seq<T>, f: T -> seq<U>, j: nat, y: U)
    requires j < |xs| && y in f(xs[j])
    ensures y in ConcatMap(xs, f)
    decreases |xs|
  {
    if j < |xs| - 1 {
      var init := xs[..|xs| - 1];
      assert init[j] == xs[j];
      ConcatMapMember(init, f, j, y);
    }
  }

  /** Elements that are their own image are kept as they are. */
  lemma {:induction false} ConcatMapSingletons<T>(xs: seq<T>, f: T -> seq<T>)
    requires forall i :: 0 <= i < |xs| ==> f(xs[i]) == [xs[i]]
    ensures ConcatMap(xs, f) == xs
    decreases |xs|
  {
    if xs != [] {
      ConcatMapSingletons(xs[..|xs| - 1], f);
    }
  }

  lemma ConcatMapStep<T, U>(xs: seq<T>, i: nat, f: T -> seq<U>)
    requires i < |xs|
    ensures ConcatMap(xs[..i + 1], f) == ConcatMap(xs[..i], f) + f(xs[i])
  {
    assert xs[..i + 1][..i] == xs[..i];
  }

  /** `[f(x) for x in xs]` */
  function Map<T, U>(xs: seq<T>, f: T -> U): (r: seq<U>)
    ensures |r| == |xs| && forall i :: 0 <= i < |xs| ==> r[i] == f(xs[i])
  {
    seq(|xs|, i requires 0 <= i < |xs| => f(xs[i]))
  }

  lemma MapAppend<T, U>(xs: seq<T>, x: T, f: T -> U)
    ensures Map(xs + [x], f) == Map(xs, f) + [f(x)]
  {
  }

  lemma MapConcat<T, U>(a: seq<T>, b: seq<T>, f: T -> U)
    ensures Map(a + b, f) == Map(a, f) + Map(b, f)
  {
    var l, r := Map(a + b, f), Map(a, f) + Map(b, f);
    forall i | 0 <= i < |l| ensures l[i] == r[i] {
      if i < |a| {
        assert (a + b)[i] == a[i];
      } else {
        assert (a + b)[i] == b[i - |a|];
      }
    }
  }

  /**
   * `[x for x in xs if p(x)]` where evaluating the condition may raise: the conditions are
   * evaluated in order and the first error escapes.
   */
  function FilterResult<T>(xs: seq<T>, p: T -> Result<bool>): Result<seq<T>>
    decreases |xs|
  {
    if xs == [] then Ok([])
    else
      var init :- FilterResult(xs[..|xs| - 1], p);
      var keep :- p(xs[|xs| - 1]);
      Ok(if keep then init + [xs[|xs| - 1]] else init)
  }

  /**
   * The filter succeeds exactly when every condition does; it then keeps exactly the
   * elements whose condition holds, and never more elements than it was given.
   */
  lemma {:induction false} FilterResultSpec<T>(xs: seq<T>, p: T -> Result<bool>)
    ensures var r := FilterResult(xs, p);
      (r.Ok? <==> forall i :: 0 <= i < |xs| ==> p(xs[i]).Ok?) &&
      (r.Ok? ==> |r.value| <= |xs| && forall x :: x in r.value <==> x in xs && p(x) == Ok(true))
    decreases |xs|
  {
    if xs != [] {
      var init := xs[..|xs| - 1];
      FilterResultSpec(init, p);
      assert forall i :: 0 <= i < |init| ==> init[i] == xs[i];
      assert xs == init + [xs[|xs| - 1]];
    }
  }

  /** Order is kept: filtering two lists one after the other filters their concatenation. */
  lemma {:induction false} FilterResultAppend<T>(a: seq<T>, b: seq<T>, p: T -> Result<bool>)
    requires FilterResult(a, p).Ok? && FilterResult(b, p).Ok?
    ensures FilterResult(a + b, p) == Ok(FilterResult(a, p).value + FilterResult(b, p).value)
    decreases |b|
  {
    if b == [] {
      assert a + b == a;
      assert FilterResult(a, p).value + [] == FilterResult(a, p).value;
    } else {
      var init := b[..|b| - 1];
      var x := b[|b| - 1];
      FilterResultAppend(a, init, p);
      assert (a + b)[..|a + b| - 1] == a + init;
      assert (a + b)[|a + b| - 1] == x;
      var fa, fi := FilterResult(a, p).value, FilterResult(init, p).value;
      assert fa + fi + [x] == fa + (fi + [x]);
    }
  }

  /** When every condition holds, the filter keeps the whole list. */
  lemma {:induction false} FilterResultAll<T>(xs: seq<T>, p: T -> Result<bool>)
    requires forall i :: 0 <= i < |xs| ==> p(xs[i]) == Ok(true)
    ensures FilterResult(xs, p) == Ok(xs)
    decreases |xs|
  {
    if xs != [] {
      var init := xs[..|xs| - 1];
      forall i | 0 <= i < |init| ensures p(init[i]) == Ok(true) {
        assert init[i] == xs[i];
      }
      FilterResultAll(init, p);
      assert p(xs[|xs| - 1]) == Ok(true);
      assert xs == init + [xs[|xs| - 1]];
    }
  }

  /** When no condition holds, the filter keeps nothing. */
  lemma {:induction false} FilterResultNone<T>(xs: seq<T>, p: T -> Result<bool>)
    requires forall i :: 0 <= i < |xs| ==> p(xs[i]) == Ok(false)
    ensures FilterResult(xs, p) == Ok([])
    decreases |xs|
  {
    if xs != [] {
      FilterResultNone(xs[..|xs| - 1], p);
    }
  }

  /** Once a prefix of the filter fails, the whole filter fails with the same error. */
  lemma {:induction false} FilterResultErrExtends<T>(xs: seq<T>, n: nat, p: T -> Result<bool>)
    requires n <= |xs| && FilterResult(xs[..n], p).Err?
    ensures FilterResult(xs, p) == FilterResult(xs[..n], p)
    decreases |xs| - n
  {
    if n == |xs| {
      assert xs[..n] == xs;
    } else {
      assert xs[..n + 1][..n] == xs[..n];
      FilterResultErrExtends(xs, n + 1, p);
    }
  }

  /** One more condition evaluated: the filter of a longer prefix. */
  lemma FilterResultStep<T>(xs: seq<T>, i: nat, p: T -> Result<bool>)
    requires i < |xs| && FilterResult(xs[..i], p).Ok?
    ensures p(xs[i]).Err? ==> FilterResult(xs, p) == Err(p(xs[i]).fault)
    ensures p(xs[i]).Ok? ==>
      FilterResult(xs[..i + 1], p) ==
      Ok(if p(xs[i]).value then FilterResult(xs[..i], p).value + [xs[i]] else FilterResult(xs[..i], p).value)
  {
    assert xs[..i + 1][..i] == xs[..i];
    if p(xs[i]).Err? {
      FilterResultErrExtends(xs, i + 1, p);
    }
  }
  /**
   * A loop that threads a state through `xs`, where each step may raise: the steps run in
   * order and the first error escapes.
   */
  function FoldResult<A, T>(xs: seq<T>, init: A, f: (A, T) -> Result<A>): Result<A>
    decreases |xs|
  {
    if xs == [] then Ok(init)
    else
      var acc :- FoldResult(xs[..|xs| - 1], init, f);
      f(acc, xs[|xs| - 1])
  }

  /** Once a prefix of the loop fails, the whole loop fails with the same error. */
  lemma {:induction false} FoldResultErrExtends<A, T>(xs: seq<T>, n: nat, init: A, f: (A, T) -> Result<A>)
    requires n <= |xs| && FoldResult(xs[..n], init, f).Err?
    ensures FoldResult(xs, init, f) == FoldResult(xs[..n], init, f)
    decreases |xs| - n
  {
    if n == |xs| {
      assert xs[..n] == xs;
    } else {
      assert xs[..n + 1][..n] == xs[..n];
      FoldResultErrExtends(xs, n + 1, init, f);
    }
  }

  /** One more step of the loop: its state is the step applied to the state before, and its error ends the loop. */
  lemma FoldResultStep<A, T>(xs: seq<T>, i: nat, init: A, f: (A, T) -> Result<A>)
    requires i < |xs| && FoldResult(xs[..i], init, f).Ok?
    ensures FoldResult(xs[..i + 1], init, f) == f(FoldResult(xs[..i], init, f).value, xs[i])
    ensures f(FoldResult(xs[..i], init, f).value, xs[i]).Err? ==>
      FoldResult(xs, init, f) == f(FoldResult(xs[..i], init, f).value, xs[i])
  {
    assert xs[..i + 1][..i] == xs[..i];
    if f(FoldResult(xs[..i], init, f).value, xs[i]).Err? {
      FoldResultErrExtends(xs, i + 1, init, f);
    }
  }

  /** The step of a loop that appends what `g` makes of each element to a list. */
  function AppendStep<T, U>(g: T -> Result<seq<U>>): (seq<U>, T) -> Result<seq<U>> {
    (acc: seq<U>, x: T) =>
      var more :- g(x);
      Ok(acc + more)
  }

  /** What `g` makes of an element, or nothing when it raises. */
  function Made<T, U>(g: T -> Result<seq<U>>): T -> seq<U> {
    x => if g(x).Ok? then g(x).value else []
  }

  /**
   * An appending loop raises exactly when some element's step does; otherwise it holds what
   * each element made, joined in element order.
   */
  lemma {:induction false} FoldAppendSpec<T, U>(xs: seq<T>, g: T -> Result<seq<U>>)
    ensures FoldResult(xs, [], AppendStep(g)).Ok? <==> forall i :: 0 <= i < |xs| ==> g(xs[i]).Ok?
    ensures FoldResult(xs, [], AppendStep(g)).Ok? ==> FoldResult(xs, [], AppendStep(g)).value == ConcatMap(xs, Made(g))
    decreases |xs|
  {
    if xs != [] {
      var init := xs[..|xs| - 1];
      FoldAppendSpec(init, g);
      assert forall i :: 0 <= i < |init| ==> init[i] == xs[i];
    }
  }

  /** Joining images of at most one element each gives no more elements than there were. */
  lemma {:induction false} ConcatMapShort<T, U>(xs: seq<T>, f: T -> seq<U>)
    requires forall i :: 0 <= i < |xs| ==> |f(xs[i])| <= 1
    ensures |ConcatMap(xs, f)| <= |xs|
    decreases |xs|
  {
    if xs != [] {
      ConcatMapShort(xs[..|xs| - 1], f);
    }
  }

  /** A property of the state that every step over an element of `xs` keeps holds after the whole loop. */
  lemma {:induction false} FoldResultInv<A, T>(xs: seq<T>, init: A, f: (A, T) -> Result<A>, p: A -> bool)
    requires p(init)
    requires forall a, x :: x in xs && p(a) && f(a, x).Ok? ==> p(f(a, x).value)
    ensures FoldResult(xs, init, f).Ok? ==> p(FoldResult(xs, init, f).value)
    decreases |xs|
  {
    if xs != [] {
      var front := xs[..|xs| - 1];
      assert forall x :: x in front ==> x in xs;
      FoldResultInv(front, init, f, p);
    }
  }

  /**
   * A loop whose every step adds what `g` makes of its element to a log `log` of the state:
   * after the loop the log has grown by the images of all elements, in order.
   */
  lemma {:induction false} FoldResultLog<A, T, L>(xs: seq<T>, init: A, f: (A, T) -> Result<A>, log: A -> seq<L>, g: T -> seq<L>)
    requires forall a, x :: x in xs && f(a, x).Ok? ==> log(f(a, x).value) == log(a) + g(x)
    ensures FoldResult(xs, init, f).Ok? ==> log(FoldResult(xs, init, f).value) == log(init) + ConcatMap(xs, g)
    decreases |xs|
  {
    if xs != [] {
      var front := xs[..|xs| - 1];
      assert forall x :: x in front ==> x in xs;
      FoldResultLog(front, init, f, log, g);
    }
  }
}
