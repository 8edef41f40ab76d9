/** Filter-and-map over sequences: the shape of every Python loop in the core that
    appends `f(x)` to a list when `f(x)` is not `None`. */
module Seqs {
  import opened Wrappers

  /** Keeps, in order, the values `f` yields for the elements it does not reject.
      Defined from the end, so that it follows a loop that appends. */
  function FilterMap<A, B>(xs: seq<A>, f: A -> Option<B>): seq<B> {
    if xs == [] then []
    else
      var last := xs[|xs| - 1];
      FilterMap(xs[..|xs| - 1], f) + (if f(last).Some? then [f(last).value] else [])
  }

  /** The number of elements `f` does not reject. */
  function Accepted<A, B>(xs: seq<A>, f: A -> Option<B>): nat {
    if xs == [] then 0
    else Accepted(xs[..|xs| - 1], f) + (if f(xs[|xs| - 1]).Some? then 1 else 0)
  }

  /** Filtering a concatenation filters each part: the relative order of the input is kept. */
  lemma {:induction false} FilterMapAppend<A, B>(xs: seq<A>, ys: seq<A>, f: A -> Option<B>)
    ensures FilterMap(xs + ys, f) == FilterMap(xs, f) + FilterMap(ys, f)
  {
    if ys == [] {
      assert xs + ys == xs;
    } else {
      assert (xs + ys)[..|xs + ys| - 1] == xs + ys[..|ys| - 1];
      FilterMapAppend(xs, ys[..|ys| - 1], f);
    }
  }

  /** One output per accepted input, so never more outputs than inputs. */
  lemma {:induction false} FilterMapLength<A, B>(xs: seq<A>, f: A -> Option<B>)
    ensures |FilterMap(xs, f)| == Accepted(xs, f) <= |xs|
  {
    if xs != [] {
      FilterMapLength(xs[..|xs| - 1], f);
    }
  }

  /** A value is in the output exactly when some input yields it. */
  lemma {:induction false} FilterMapMember<A, B>(xs: seq<A>, f: A -> Option<B>, b: B)
    ensures b in FilterMap(xs, f) <==> exists i :: 0 <= i < |xs| && f(xs[i]) == Some(b)
  {
    if xs != [] {
      var init := xs[..|xs| - 1];
      FilterMapMember(init, f, b);
      if exists i :: 0 <= i < |init| && f(init[i]) == Some(b) {
        var i :| 0 <= i < |init| && f(init[i]) == Some(b);
        assert xs[i] == init[i];
      }
      if exists i :: 0 <= i < |xs| && f(xs[i]) == Some(b) {
        var i :| 0 <= i < |xs| && f(xs[i]) == Some(b);
        if i < |init| {
          assert f(init[i]) == Some(b);
        }
      }
    }
  }

  /** When `f` rejects every input the output is empty. */
  lemma {:induction false} FilterMapNone<A, B>(xs: seq<A>, f: A -> Option<B>)
    requires forall i :: 0 <= i < |xs| ==> f(xs[i]).None?
    ensures FilterMap(xs, f) == []
  {
    if xs != [] {
      FilterMapNone(xs[..|xs| - 1], f);
    }
  }

  /** Applies `f` to every element, in order, stopping at the first failure: the
      shape of a list comprehension whose element expression can raise. */
  function MapAll<A, B, E>(xs: seq<A>, f: A -> Result<B, E>): (r: Result<seq<B>, E>)
    ensures r.Ok? ==> |r.value| == |xs|
    ensures r.Ok? ==> forall i :: 0 <= i < |xs| ==> f(xs[i]) == Ok(r.value[i])
  {
    if xs == [] then Ok([])
    else
      var init :- MapAll(xs[..|xs| - 1], f);
      var last :- f(xs[|xs| - 1]);
      Ok(init + [last])
  }

  /** When every element succeeds, the results are exactly the values of `f`. */
  lemma {:induction false} MapAllSucceeds<A, B, E>(xs: seq<A>, f: A -> Result<B, E>, ys: seq<B>)
    requires |ys| == |xs|
    requires forall i :: 0 <= i < |xs| ==> f(xs[i]) == Ok(ys[i])
    ensures MapAll(xs, f) == Ok(ys)
  {
    if xs != [] {
      var n := |xs| - 1;
      MapAllSucceeds(xs[..n], f, ys[..n]);
      assert ys[..n] + [ys[n]] == ys;
    }
  }

  /** A failure is the error of the first element that fails. */
  lemma {:induction false} MapAllFails<A, B, E>(xs: seq<A>, f: A -> Result<B, E>)
    requires MapAll(xs, f).Err?
    ensures exists i :: 0 <= i < |xs| && f(xs[i]) == Err(MapAll(xs, f).error)
                     && forall j :: 0 <= j < i ==> f(xs[j]).Ok?
  {
    var n := |xs| - 1;
    var init := MapAll(xs[..n], f);
    if init.Err? {
      MapAllFails(xs[..n], f);
      var i :| 0 <= i < n && f(xs[..n][i]) == Err(init.error) && forall j :: 0 <= j < i ==> f(xs[..n][j]).Ok?;
      assert xs[..n][i] == xs[i];
      assert forall j :: 0 <= j < i ==> xs[..n][j] == xs[j];
    } else {
      assert forall j :: 0 <= j < n ==> f(xs[j]).Ok? by {
        forall j | 0 <= j < n ensures f(xs[j]).Ok? {
          assert xs[..n][j] == xs[j];
        }
      }
      assert f(xs[n]) == Err(MapAll(xs, f).error);
    }
  }
}
