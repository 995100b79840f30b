/**
 * What the fetch controller guarantees over any interleaving of starts,
 * resolutions, rejections and `setData` calls: single-step facts about the
 * guard, and properties of whole runs proved by induction on the events.
 */
module FetchProperties {
  import opened DataFetch
  import opened FetchControl

  /** The token the controller compares against after `es`: the last start in `es`, else the one it had. */
  function TokenAfter<D, E>(before: Option<int>, es: seq<Event<D, E>>): Option<int>
  {
    if LatestStart(es).Some? then LatestStart(es) else before
  }

  lemma RunSnoc<D, E>(takeEvery: bool, c: Ctl<D, E>, es: seq<Event<D, E>>, e: Event<D, E>)
    ensures Run(takeEvery, c, es + [e]) == Step(takeEvery, Run(takeEvery, c, es), e)
  {
  }

  // ---------------------------------------------------------------------
  // One event at a time

  /** Every start records its token and marks the state loading, even when it already was. */
  lemma StartSupersedes<D, E>(takeEvery: bool, c: Ctl<D, E>, t: int)
    ensures Step(takeEvery, c, Start(t)).lastToken == Some(t)
    ensures Step(takeEvery, c, Start(t)).state == State(true, c.state.error, c.state.data)
    ensures c.state.loading ==> Step(takeEvery, c, Start(t)).state == c.state
  {
  }

  /** Latest-wins: a resolution commits exactly when its token is the latest recorded one. */
  lemma LatestWinsGuard<D, E>(c: Ctl<D, E>, t: int, v: D)
    ensures Step(false, c, Succeed(t, v)).lastToken == c.lastToken
    ensures c.lastToken == Some(t) ==> Step(false, c, Succeed(t, v)).state == State(false, None, Some(v))
    ensures c.lastToken != Some(t) ==> Step(false, c, Succeed(t, v)) == c
  {
  }

  /** Take-every: every resolution commits, whatever its token. */
  lemma TakeEveryCommits<D, E>(c: Ctl<D, E>, t: int, v: D)
    ensures Step(true, c, Succeed(t, v)) == Ctl(State(false, None, Some(v)), c.lastToken)
  {
  }

  /** A rejection commits whatever its token and the policy, and keeps the held data. */
  lemma FailCommitsUnconditionally<D, E>(takeEvery: bool, c: Ctl<D, E>, t: int, err: E)
    ensures Step(takeEvery, c, Fail(t, err)) == Ctl(State(false, Some(err), c.state.data), c.lastToken)
  {
  }

  // ---------------------------------------------------------------------
  // Whole runs

  /** After any run the recorded token is that of the last start, or the earlier one when nothing started. */
  lemma {:induction false} RunRecordsLatestStart<D, E>(takeEvery: bool, c: Ctl<D, E>, es: seq<Event<D, E>>)
    ensures Run(takeEvery, c, es).lastToken == TokenAfter(c.lastToken, es)
    decreases |es|
  {
    if es != [] {
      RunRecordsLatestStart(takeEvery, c, es[..|es| - 1]);
    }
  }

  /** Under latest-wins, a fetch whose token is no longer the recorded one resolves without effect. */
  lemma StaleSuccessIgnored<D, E>(c: Ctl<D, E>, es: seq<Event<D, E>>, t: int, v: D)
    requires TokenAfter(c.lastToken, es) != Some(t)
    ensures Run(false, c, es + [Succeed(t, v)]) == Run(false, c, es)
  {
    RunRecordsLatestStart(false, c, es);
    RunSnoc(false, c, es, Succeed(t, v));
  }

  /** Under latest-wins, the most recently started fetch does commit when it resolves. */
  lemma LatestSuccessCommits<D, E>(c: Ctl<D, E>, es: seq<Event<D, E>>, t: int, v: D)
    requires TokenAfter(c.lastToken, es) == Some(t)
    ensures Run(false, c, es + [Succeed(t, v)]).state == State(false, None, Some(v))
    ensures Run(false, c, es + [Succeed(t, v)]).lastToken == Some(t)
  {
    RunRecordsLatestStart(false, c, es);
    RunSnoc(false, c, es, Succeed(t, v));
  }

  /** The last start is at or after any start of the run. */
  lemma {:induction false} LatestStartIsLast<D, E>(es: seq<Event<D, E>>, k: int)
    requires 0 <= k < |es| && es[k].Start?
    ensures exists i :: k <= i < |es| && es[i].Start? && LatestStart(es) == Some(es[i].token)
    decreases |es|
  {
    var n := |es| - 1;
    if es[n].Start? {
      assert k <= n && LatestStart(es) == Some(es[n].token);
    } else {
      var p := es[..n];
      LatestStartIsLast(p, k);
      var i :| k <= i < |p| && p[i].Start? && LatestStart(p) == Some(p[i].token);
      assert es[i] == p[i];
    }
  }

  /** Starts of a run that read pairwise different clock values. */
  ghost predicate DistinctStartTokens<D, E>(es: seq<Event<D, E>>)
  {
    forall a, b :: 0 <= a < b < |es| && es[a].Start? && es[b].Start? ==> es[a].token != es[b].token
  }

  /**
   * With distinct tokens, the guard does its job: a fetch that was followed
   * by another start never commits its result under latest-wins.
   */
  lemma SupersededFetchNeverCommits<D, E>(c: Ctl<D, E>, es: seq<Event<D, E>>, j: int, k: int, v: D)
    requires 0 <= j < k < |es| && es[j].Start? && es[k].Start?
    requires DistinctStartTokens(es)
    ensures Run(false, c, es + [Succeed(es[j].token, v)]) == Run(false, c, es)
  {
    LatestStartIsLast(es, k);
    var i :| k <= i < |es| && es[i].Start? && LatestStart(es) == Some(es[i].token);
    assert es[j].token != es[i].token;
    StaleSuccessIgnored(c, es, es[j].token, v);
  }

  /**
   * Under latest-wins, once a fetch has started, loading stays true until
   * that fetch settles or some fetch fails: stale resolutions and `setData`
   * leave it alone.
   */
  lemma {:induction false} LoadingUntilLatestSettles<D, E>(c: Ctl<D, E>, es: seq<Event<D, E>>, j: int)
    requires 0 <= j < |es| && es[j].Start?
    requires forall k :: j < k < |es| ==>
      !es[k].Start? && !es[k].Fail? && !(es[k].Succeed? && es[k].token == es[j].token)
    ensures Run(false, c, es).state.loading
    ensures Run(false, c, es).lastToken == Some(es[j].token)
    decreases |es|
  {
    var n := |es| - 1;
    if j < n {
      var p := es[..n];
      assert forall k :: j < k < |p| ==> p[k] == es[k];
      LoadingUntilLatestSettles(c, p, j);
    }
  }

  /** The asymmetry of the source: a stale fetch's rejection still ends loading, while the latest fetch runs on. */
  lemma StaleFailureEndsLoading<D, E>(takeEvery: bool, c: Ctl<D, E>, es: seq<Event<D, E>>, t: int, err: E)
    requires TokenAfter(c.lastToken, es).Some? && TokenAfter(c.lastToken, es) != Some(t)
    ensures !Run(takeEvery, c, es + [Fail(t, err)]).state.loading
    ensures Run(takeEvery, c, es + [Fail(t, err)]).state.error == Some(err)
    ensures Run(takeEvery, c, es + [Fail(t, err)]).lastToken == TokenAfter(c.lastToken, es)
  {
    RunRecordsLatestStart(takeEvery, c, es);
    RunSnoc(takeEvery, c, es, Fail(t, err));
  }

  /** Once the data is `Some`, no run of events brings it back to `None`. */
  lemma {:induction false} HeldDataNeverErased<D, E>(takeEvery: bool, c: Ctl<D, E>, es: seq<Event<D, E>>)
    requires c.state.data.Some?
    ensures Run(takeEvery, c, es).state.data.Some?
    decreases |es|
  {
    if es != [] {
      HeldDataNeverErased(takeEvery, c, es[..|es| - 1]);
    }
  }

  /** Event `i` of `es` writes `d` into the data under latest-wins. */
  ghost predicate CommitsData<D, E>(c: Ctl<D, E>, es: seq<Event<D, E>>, i: int, d: D)
    requires 0 <= i < |es|
  {
    match es[i]
    case Succeed(t, v) => v == d && TokenAfter(c.lastToken, es[..i]) == Some(t)
    case SetData(u) => Payload(u, Run(false, c, es[..i]).state.data) == d
    case _ => false
  }

  /**
   * Under latest-wins, the data held after any run is the initial data, or
   * was written by a fetch that was the most recently started one when it
   * resolved, or by `setData`.
   */
  lemma {:induction false} DataComesFromLatestFetch<D, E>(c: Ctl<D, E>, es: seq<Event<D, E>>, d: D)
    requires Run(false, c, es).state.data == Some(d)
    ensures c.state.data == Some(d) || exists i :: 0 <= i < |es| && CommitsData(c, es, i, d)
    decreases |es|
  {
    if es != [] {
      var n := |es| - 1;
      var p := es[..n];
      var r := Run(false, c, p);
      if r.state.data == Some(d) {
        DataComesFromLatestFetch(c, p, d);
        if c.state.data != Some(d) {
          var i :| 0 <= i < |p| && CommitsData(c, p, i, d);
          assert es[..i] == p[..i];
          assert CommitsData(c, es, i, d);
        }
      } else {
        RunRecordsLatestStart(false, c, p);
        assert es[..n] == p;
        assert CommitsData(c, es, n, d);
      }
    }
  }

  /** An error held after any run was already held, or is the reason of some rejection in the run. */
  lemma {:induction false} ErrorComesFromFailure<D, E>(takeEvery: bool, c: Ctl<D, E>, es: seq<Event<D, E>>, err: E)
    requires Run(takeEvery, c, es).state.error == Some(err)
    ensures c.state.error == Some(err) || exists i :: 0 <= i < |es| && es[i].Fail? && es[i].reason == err
    decreases |es|
  {
    if es != [] {
      var n := |es| - 1;
      var p := es[..n];
      if Run(takeEvery, c, p).state.error == Some(err) {
        ErrorComesFromFailure(takeEvery, c, p, err);
        if c.state.error != Some(err) {
          var i :| 0 <= i < |p| && p[i].Fail? && p[i].reason == err;
          assert es[i] == p[i];
        }
      } else {
        assert es[n].Fail? && es[n].reason == err;
      }
    }
  }

  /**
   * Take-every: the data after a run is the value of the last resolution,
   * whatever the order the fetches started in, as long as no `setData` came after it.
   */
  lemma {:induction false} TakeEveryLastResolutionWins<D, E>(c: Ctl<D, E>, es: seq<Event<D, E>>, k: int)
    requires 0 <= k < |es| && es[k].Succeed?
    requires forall i :: k < i < |es| ==> es[i].Start? || es[i].Fail?
    ensures Run(true, c, es).state.data == Some(es[k].value)
    decreases |es|
  {
    var n := |es| - 1;
    if k < n {
      var p := es[..n];
      assert forall i :: k < i < |p| ==> p[i] == es[i];
      TakeEveryLastResolutionWins(c, p, k);
    }
  }

  // ---------------------------------------------------------------------
  // The scenario of the hook's supersession test

  /**
   * A mounted hook whose mount fetch (token t1) resolves to `fail` after a
   * second fetch (token t2) has started and resolved to `pass`: `fail` is
   * never the held data, at any point of the run, and the run ends with `pass`.
   */
  lemma SupersededMountFetchNeverSeen<D, E>(initialData: Option<D>, truthy: D -> bool, t1: int, t2: int, fail: D, pass: D)
    requires t1 != t2 && fail != pass && initialData != Some(fail)
    ensures
      var c0: Ctl<D, E> := Ctl(InitialState(initialData, truthy), None);
      var es: seq<Event<D, E>> := [Start(t1), Start(t2), Succeed(t2, pass), Succeed(t1, fail)];
      && (forall k :: 0 <= k <= |es| ==> Run(false, c0, es[..k]).state.data != Some(fail))
      && Run(false, c0, es).state == State(false, None, Some(pass))
  {
    var c0: Ctl<D, E> := Ctl(InitialState(initialData, truthy), None);
    var es: seq<Event<D, E>> := [Start(t1), Start(t2), Succeed(t2, pass), Succeed(t1, fail)];
    assert es[..0] == [];
    assert es[..1] == [Start(t1)];
    assert es[..2] == [Start(t1), Start(t2)];
    assert es[..3] == [Start(t1), Start(t2), Succeed(t2, pass)];
    assert es[..4] == es;
    assert es[..3][..2] == es[..2] && es[..2][..1] == es[..1] && es[..1][..0] == [];
  }

  /**
   * The supersession test read against the code: `fireFetch` takes no
   * argument, so the second fetch runs the hook's own function too, which
   * resolves to `fail` after the same delay as the mount fetch. Whether the
   * two clock readings differ or not, the run ends holding `fail`.
   */
  lemma SupersessionTestAsWritten<D, E>(initialData: Option<D>, truthy: D -> bool, t1: int, t2: int, fail: D)
    ensures
      var c0: Ctl<D, E> := Ctl(InitialState(initialData, truthy), None);
      var es: seq<Event<D, E>> := [Start(t1), Start(t2), Succeed(t1, fail), Succeed(t2, fail)];
      Run(false, c0, es).state == State(false, None, Some(fail))
  {
    var c0: Ctl<D, E> := Ctl(InitialState(initialData, truthy), None);
    var es: seq<Event<D, E>> := [Start(t1), Start(t2), Succeed(t1, fail), Succeed(t2, fail)];
    assert es[..1] == [Start(t1)] && es[..1][..0] == [];
    assert es[..2][..1] == es[..1] && es[..3][..2] == es[..2] && es[..4] == es;
    assert Run(false, c0, es[..1]).lastToken == Some(t1);
    assert Run(false, c0, es[..2]).lastToken == Some(t2);
    assert Run(false, c0, es[..3]).lastToken == Some(t2);
  }

  /**
   * The token is a clock reading in milliseconds: two fetches started within
   * the same millisecond share it, and the first one's late result then
   * overwrites the second's.
   */
  lemma SameMillisecondStartsDefeatGuard<D, E>(initialData: Option<D>, truthy: D -> bool, t: int, fail: D, pass: D)
    ensures
      var c0: Ctl<D, E> := Ctl(InitialState(initialData, truthy), None);
      var es: seq<Event<D, E>> := [Start(t), Start(t), Succeed(t, pass), Succeed(t, fail)];
      Run(false, c0, es).state.data == Some(fail)
  {
    var c0: Ctl<D, E> := Ctl(InitialState(initialData, truthy), None);
    var es: seq<Event<D, E>> := [Start(t), Start(t), Succeed(t, pass), Succeed(t, fail)];
    assert es[..1] == [Start(t)] && es[..1][..0] == [];
    assert es[..2][..1] == es[..1] && es[..3][..2] == es[..2] && es[..4] == es;
    assert Run(false, c0, es[..1]).lastToken == Some(t);
    assert Run(false, c0, es[..2]).lastToken == Some(t);
    assert Run(false, c0, es[..3]).lastToken == Some(t);
  }
}
