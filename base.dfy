/** Value types shared by every command handler: Rust's `Option`, the
    `Result<T, String>` that every Tauri command returns, and the unsigned
    integer widths that appear in the handlers' data. */
module Base {

  datatype Option<+T> = None | Some(value: T) {
    function GetOr(default: T): T {
      match this
      case Some(v) => v
      case None => default
    }
  }

  /** Every handler reports failure as a plain message string. */
  datatype Result<+T> = Ok(value: T) | Err(error: string)

  /** Rust `u8`: battery levels and stream bytes. */
  type U8 = x: int | 0 <= x < 256

  /** Rust `u16`: TCP port numbers. */
  type U16 = x: int | 0 <= x < 65536

  /** Rust `u64`: seconds since the Unix epoch. */
  type U64 = x: int | 0 <= x < 0x1_0000_0000_0000_0000
}

/** Sequence combinators that the handlers' iterator chains and loops are
    built from, with the facts every parser relies on. */
module Seqs {
  import opened Base

  /** `iter.filter_map(f).collect()`, unfolded from the back so that a loop
      which pushes one element per step can be proved against it. */
  function FilterMap<T, U>(s: seq<T>, f: T -> Option<U>): (r: seq<U>)
    ensures |r| <= |s|
  {
    if s == [] then []
    else
      var last := f(s[|s| - 1]);
      FilterMap(s[..|s| - 1], f) + (if last.Some? then [last.value] else [])
  }

  lemma {:induction false} FilterMapAppend<T, U>(a: seq<T>, b: seq<T>, f: T -> Option<U>)
    ensures FilterMap(a + b, f) == FilterMap(a, f) + FilterMap(b, f)
    decreases |b|
  {
    if b == [] {
      assert a + b == a;
    } else {
      var n := |b| - 1;
      assert (a + b)[..|a + b| - 1] == a + b[..n];
      assert (a + b)[|a + b| - 1] == b[n];
      FilterMapAppend(a, b[..n], f);
    }
  }

  /** One more element adds what it maps to, if anything. */
  lemma FilterMapStep<T, U>(s: seq<T>, f: T -> Option<U>, i: nat)
    requires i < |s|
    ensures FilterMap(s[..i + 1], f) == FilterMap(s[..i], f) + (if f(s[i]).Some? then [f(s[i]).value] else [])
  {
    assert s[..i + 1][..i] == s[..i];
  }

  /** Everything `filter_map` yields was produced by some input. */
  lemma {:induction false} FilterMapSound<T, U>(s: seq<T>, f: T -> Option<U>, y: U)
    requires y in FilterMap(s, f)
    ensures exists i :: 0 <= i < |s| && f(s[i]) == Some(y)
  {
    var n := |s| - 1;
    if y in FilterMap(s[..n], f) {
      FilterMapSound(s[..n], f, y);
      var i :| 0 <= i < n && f(s[..n][i]) == Some(y);
      assert s[..n][i] == s[i];
    } else {
      assert f(s[n]) == Some(y);
    }
  }

  /** Every input that produces something contributes it to the output. */
  lemma {:induction false} FilterMapComplete<T, U>(s: seq<T>, f: T -> Option<U>, i: nat)
    requires i < |s| && f(s[i]).Some?
    ensures f(s[i]).value in FilterMap(s, f)
  {
    var n := |s| - 1;
    if i < n {
      FilterMapComplete(s[..n], f, i);
      assert s[..n][i] == s[i];
    }
  }

  /** A left fold, unfolded from the back like `FilterMap`: the state after
      a loop that applies `step` to each element in turn. */
  function Fold<S, T>(step: (S, T) -> S, init: S, xs: seq<T>): S
  {
    if xs == [] then init else step(Fold(step, init, xs[..|xs| - 1]), xs[|xs| - 1])
  }

  /** One more element is one more step. */
  lemma FoldStep<S, T>(step: (S, T) -> S, init: S, xs: seq<T>, i: nat)
    requires i < |xs|
    ensures Fold(step, init, xs[..i + 1]) == step(Fold(step, init, xs[..i]), xs[i])
  {
    assert xs[..i + 1][..i] == xs[..i];
  }

  /** `write` says what one element does to the part `proj` of the state:
      it overwrites it (`Some`) or leaves it alone (`None`). */
  ghost predicate Overwrites<S(!new), T(!new), A>(step: (S, T) -> S, proj: S -> A, write: T -> Option<A>)
  {
    forall s, x :: proj(step(s, x)) == if write(x).Some? then write(x).value else proj(s)
  }

  /** After the fold, that part of the state holds what the last writing
      element wrote. */
  lemma {:induction false} LastWriteWins<S(!new), T(!new), A>(step: (S, T) -> S, proj: S -> A, write: T -> Option<A>, init: S, xs: seq<T>, j: nat)
    requires Overwrites(step, proj, write)
    requires j < |xs| && write(xs[j]).Some?
    requires forall k :: j < k < |xs| ==> write(xs[k]).None?
    ensures proj(Fold(step, init, xs)) == write(xs[j]).value
    decreases |xs|
  {
    var n := |xs| - 1;
    if j < n {
      var front := xs[..n];
      forall k | j < k < |front| ensures write(front[k]).None? {
        assert front[k] == xs[k];
      }
      LastWriteWins(step, proj, write, init, front, j);
    }
  }

  /** With no writing element, that part of the state is never changed. */
  lemma {:induction false} NoWriteKeeps<S(!new), T(!new), A>(step: (S, T) -> S, proj: S -> A, write: T -> Option<A>, init: S, xs: seq<T>)
    requires Overwrites(step, proj, write)
    requires forall k :: 0 <= k < |xs| ==> write(xs[k]).None?
    ensures proj(Fold(step, init, xs)) == proj(init)
    decreases |xs|
  {
    if xs != [] {
      var front := xs[..|xs| - 1];
      forall k | 0 <= k < |front| ensures write(front[k]).None? {
        assert front[k] == xs[k];
      }
      NoWriteKeeps(step, proj, write, init, front);
    }
  }
}
