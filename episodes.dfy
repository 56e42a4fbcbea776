/**
 * Runs of the reconciler: interleavings of notifications and timer
 * expiries. A stretch during which timerStarted stays true is one
 * quiescence episode; these lemmas show that the server is put to sleep at
 * most once per episode and that a new timer needs a cancel first.
 */
module Episodes {
  import opened Wrappers
  import opened Durations
  import opened Lookups
  import opened Debounce

  /** A change notification (with the cluster's answers and the period a
      started timer would get), or the current timer's channel delivering. */
  datatype Event =
    | Notify(req: ObjectKey, cluster: Cluster, duration: Duration)
    | Expiry

  ghost function Apply(s: State, e: Event): State {
    match e
    case Notify(req, cluster, duration) => Next(s, req, cluster, duration)
    case Expiry => Expire(s)
  }

  /** The state after the events `es`, first to last. */
  ghost function Run(s: State, es: seq<Event>): State
    decreases |es|
  {
    if es == [] then s else Run(Apply(s, es[0]), es[1..])
  }

  /** The number of times the server is put to sleep during `es`. */
  ghost function Sleeps(s: State, es: seq<Event>): nat
    decreases |es|
  {
    if es == [] then 0
    else (if es[0].Expiry? && Fires(s) then 1 else 0) + Sleeps(Apply(s, es[0]), es[1..])
  }

  /** An event that clears timerStarted: the true-to-false cancel. */
  ghost predicate Cancels(s: State, e: Event) {
    s.timerStarted && !Apply(s, e).timerStarted
  }

  /** No event of `es` cancels, in the states the run passes through. */
  ghost predicate NoCancel(s: State, es: seq<Event>)
    decreases |es|
  {
    es == [] || (!Cancels(s, es[0]) && NoCancel(Apply(s, es[0]), es[1..]))
  }

  /** Every run from a reachable state stays reachable. */
  lemma {:induction false} RunKeepsInv(s: State, es: seq<Event>)
    requires Inv(s)
    ensures Inv(Run(s, es))
    decreases |es|
  {
    if es != [] {
      match es[0] {
        case Notify(req, cluster, duration) => NextKeepsInv(s, req, cluster, duration);
        case Expiry => ExpireKeepsInv(s);
      }
      RunKeepsInv(Apply(s, es[0]), es[1..]);
    }
  }

  /** Once timerStarted holds and the timer no longer runs (it expired),
      no run without a cancel puts the server to sleep or changes the
      timer: re-arming goes only through a true-to-false cancel. */
  lemma {:induction false} NoRearmWithoutCancel(s: State, es: seq<Event>)
    requires s.timerStarted && !Fires(s)
    requires NoCancel(s, es)
    ensures Sleeps(s, es) == 0
    ensures Run(s, es).timer == s.timer && Run(s, es).timerStarted
    decreases |es|
  {
    if es != [] {
      var s' := Apply(s, es[0]);
      assert s'.timerStarted;
      assert s'.timer == s.timer;
      NoRearmWithoutCancel(s', es[1..]);
    }
  }

  /** Within one episode (timerStarted throughout) the server is put to
      sleep at most once. */
  lemma {:induction false} AtMostOneSleepPerEpisode(s: State, es: seq<Event>)
    requires Inv(s) && s.timerStarted
    requires NoCancel(s, es)
    ensures Sleeps(s, es) <= 1
    decreases |es|
  {
    if es != [] {
      var s' := Apply(s, es[0]);
      assert s'.timerStarted;
      if es[0].Expiry? && Fires(s) {
        NoRearmWithoutCancel(s', es[1..]);
      } else {
        match es[0] {
          case Notify(req, cluster, duration) => NextKeepsInv(s, req, cluster, duration);
          case Expiry => ExpireKeepsInv(s);
        }
        AtMostOneSleepPerEpisode(s', es[1..]);
      }
    }
  }

  /** A new episode can sleep again: after a cancel, the next rise of the
      aggregate starts a fresh timer, whether or not the last one expired. */
  lemma RearmAfterCancel(s: State, req1: ObjectKey, c1: Cluster, req2: ObjectKey, c2: Cluster, d: Duration)
    requires Inv(s) && s.timerStarted
    requires Processed(s, req1, c1) && !Quiescent(s.deployments, c1)
    requires Processed(s, req2, c2) && Quiescent(s.deployments, c2)
    ensures !Next(s, req1, c1, d).timerStarted
    ensures Next(Next(s, req1, c1, d), req2, c2, d).timer == Some(Timer(d, Running))
    ensures Fires(Next(Next(s, req1, c1, d), req2, c2, d))
  {
    var s1 := Next(s, req1, c1, d);
    assert s1.deployments == s.deployments;
    CancelsOnFall(s, false, d);
    assert Processed(s1, req2, c2);
  }
}
