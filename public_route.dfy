/** `PublicRoute` (src/routes/PublicRoute.tsx): the guard around the
    sign-in pages. One instance keeps a `hasMounted` ref across its renders;
    it shows the loader only on a first render that happens while the
    session is loading, then redirects a signed-in user to the dashboard. */
module PublicRoute {
  import opened Common
  import opened AuthSlice

  const DashboardPath := "/organization/home"

  /** What a render returns, given the ref's value before it. */
  function Decide(hasMounted: bool, user: Option<User>, loading: bool): (r: Rendered)
    ensures r == Loader <==> loading && !hasMounted
    ensures r != Loader ==> (r == Redirect(DashboardPath) <==> user.Some?)
    ensures r != Loader && user.None? ==> r == Children
  {
    if loading && !hasMounted then Loader
    else if user.Some? then Redirect(DashboardPath)
    else Children
  }

  /** One render's inputs: the store's `user` and `loading`. */
  datatype Render = Render(user: Option<User>, loading: bool)

  /** The outputs of a run of renders of one instance whose ref starts at
      `hasMounted`. After the first render the ref is always true. */
  function Outputs(hasMounted: bool, renders: seq<Render>): (out: seq<Rendered>)
    ensures |out| == |renders|
    ensures renders != [] ==> out[0] == Decide(hasMounted, renders[0].user, renders[0].loading)
    ensures forall i :: 1 <= i < |renders| ==> out[i] == Decide(true, renders[i].user, renders[i].loading)
    decreases |renders|
  {
    if renders == [] then []
    else
      var rest := Outputs(true, renders[1..]);
      assert forall i :: 0 <= i < |rest| ==> rest[i] == Decide(true, renders[i + 1].user, renders[i + 1].loading);
      [Decide(hasMounted, renders[0].user, renders[0].loading)] + rest
  }

  /** The number of loaders in a run of outputs. */
  function LoaderCount(out: seq<Rendered>): nat {
    if out == [] then 0 else (if out[0] == Loader then 1 else 0) + LoaderCount(out[1..])
  }

  /** An instance of the guard with its ref. */
  class PublicRouteInstance {
    var hasMounted: bool

    /** `useRef(false)`. */
    constructor ()
      ensures !hasMounted
    {
      hasMounted := false;
    }

    /** One render: both branches that reach the end of the loader test set
        the ref, so it is true after every render. */
    method Render(user: Option<User>, loading: bool) returns (r: Rendered)
      modifies this
      ensures hasMounted
      ensures r == Decide(old(hasMounted), user, loading)
    {
      if loading && !hasMounted {
        hasMounted := true;
        return Loader;
      }
      if !hasMounted {
        hasMounted := true;
      }
      if user.Some? {
        return Redirect(DashboardPath);
      }
      return Children;
    }

    /** A run of renders of this instance, one after the other: the outputs
        are those of `Outputs` from the ref's value before the run. */
    method RenderAll(renders: seq<Render>) returns (outs: seq<Rendered>)
      modifies this
      ensures outs == Outputs(old(hasMounted), renders)
      ensures renders != [] ==> hasMounted
      ensures renders == [] ==> hasMounted == old(hasMounted)
    {
      ghost var expected := Outputs(hasMounted, renders);
      outs := [];
      var i := 0;
      while i < |renders|
        invariant 0 <= i <= |renders|
        invariant |outs| == i
        invariant forall k :: 0 <= k < i ==> outs[k] == expected[k]
        invariant i > 0 ==> hasMounted
        invariant i == 0 ==> hasMounted == old(hasMounted)
      {
        var r := Render(renders[i].user, renders[i].loading);
        outs := outs + [r];
        i := i + 1;
      }
    }
  }

  /** Once mounted, an instance never shows the loader again. */
  lemma {:induction false} MountedShowsNoLoader(renders: seq<Render>)
    ensures LoaderCount(Outputs(true, renders)) == 0
  {
    if renders != [] {
      MountedShowsNoLoader(renders[1..]);
    }
  }

  /** An instance shows the loader at most once, and only on its first
      render, whatever the store does between renders. */
  lemma {:induction false} LoaderAtMostOnce(renders: seq<Render>)
    ensures LoaderCount(Outputs(false, renders)) <= 1
    ensures forall i :: 1 <= i < |renders| ==> Outputs(false, renders)[i] != Loader
  {
    if renders != [] {
      MountedShowsNoLoader(renders[1..]);
      var out := Outputs(false, renders);
      var rest := Outputs(true, renders[1..]);
      assert out[1..] == rest;
      assert LoaderCount(out) == (if out[0] == Loader then 1 else 0) + LoaderCount(rest);
      forall i | 1 <= i < |renders| ensures Outputs(false, renders)[i] != Loader {
        assert Outputs(false, renders)[i] == rest[i - 1];
        NoLoaderAt(rest, i - 1);
      }
    }
  }

  /** A run with no loaders has no loader at any position. */
  lemma {:induction false} NoLoaderAt(out: seq<Rendered>, i: nat)
    requires LoaderCount(out) == 0 && i < |out|
    ensures out[i] != Loader
  {
    if i > 0 {
      NoLoaderAt(out[1..], i - 1);
    }
  }
}
