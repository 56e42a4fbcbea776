/**
 * Concrete runs over the watch set {a/b, c/d}: quiescence arms the timer,
 * a scale-up cancels it, an expiry sleeps once and only a scale-up followed
 * by a new quiescence re-arms, and a failed lookup does not cancel.
 */
module Scenarios {
  import opened Wrappers
  import opened Durations
  import opened WatchSet
  import opened Lookups
  import opened Debounce
  import opened Episodes

  const AB := ObjectKey("a", "b")
  const CD := ObjectKey("c", "d")

  function Watched(): set<string> {
    {"a/b", "c/d"}
  }

  /** The cluster with a/b at `ab` and c/d at `cd`; every other lookup is
      NotFound. */
  function Cluster2(ab: GetResult, cd: GetResult): Cluster {
    k => if k == AB then ab else if k == CD then cd else NotFound
  }

  function Zero(): GetResult {
    Found(Some(0))
  }

  lemma WatchedKeysLocate()
    ensures Key("a", "b") == "a/b" && Key("c", "d") == "c/d"
    ensures Locate("a/b") == AB && Locate("c/d") == CD
  {
    assert Key("a", "b") == "a/b";
    assert Key("c", "d") == "c/d";
    CutKey("a", "b");
    CutKey("c", "d");
  }

  /** The aggregate over {a/b, c/d} is the AND over the two lookups. */
  lemma QuiescentOfTwo(ab: GetResult, cd: GetResult)
    ensures Quiescent(Watched(), Cluster2(ab, cd)) <==> !ScaledUp(ab) && !ScaledUp(cd)
  {
    WatchedKeysLocate();
    var cluster := Cluster2(ab, cd);
    assert cluster(Locate("a/b")) == ab && cluster(Locate("c/d")) == cd;
    assert forall k :: k in Watched() ==> k == "a/b" || k == "c/d";
    assert "a/b" in Watched() && "c/d" in Watched();
  }

  /** Both deployments at zero: the aggregate rises and a timer starts with
      the configured period. */
  lemma BothZeroStartsTimer(d: Duration)
    ensures var s := Next(Initial(Watched()), AB, Cluster2(Zero(), Zero()), d);
      s.allZero && s.timerStarted && s.timer == Some(Timer(d, Running))
  {
    WatchedKeysLocate();
    QuiescentOfTwo(Zero(), Zero());
  }

  /** While that timer runs, c/d reports 3 replicas: the timer is stopped,
      the aggregate falls, and no expiry can put the server to sleep. */
  lemma ScaleUpCancels(d: Duration)
    ensures var s1 := Next(Initial(Watched()), AB, Cluster2(Zero(), Zero()), d);
      var s2 := Next(s1, CD, Cluster2(Zero(), Found(Some(3))), d);
      && !s2.allZero && !s2.timerStarted
      && s2.timer == Some(Timer(d, Stopped))
      && Sleeps(s2, [Expiry]) == 0
  {
    BothZeroStartsTimer(d);
    WatchedKeysLocate();
    QuiescentOfTwo(Zero(), Found(Some(3)));
  }

  /** The timer expires: the server sleeps once. A later all-zero
      notification leaves the stored aggregate true and so starts nothing;
      a scale-up and a return to zero start a fresh timer. */
  lemma ExpiryThenNewEpisode(d: Duration)
    ensures var s1 := Next(Initial(Watched()), AB, Cluster2(Zero(), Zero()), d);
      && Sleeps(s1, [Expiry]) == 1
      && Run(s1, [Expiry, Notify(AB, Cluster2(Zero(), Zero()), d)]).timer == Some(Timer(d, Expired))
      && Run(s1, [Expiry, Notify(CD, Cluster2(Zero(), Found(Some(3))), d),
                  Notify(CD, Cluster2(Zero(), Zero()), d)]).timer == Some(Timer(d, Running))
  {
    BothZeroStartsTimer(d);
    WatchedKeysLocate();
    QuiescentOfTwo(Zero(), Zero());
    QuiescentOfTwo(Zero(), Found(Some(3)));
    var zero := Cluster2(Zero(), Zero());
    var up := Cluster2(Zero(), Found(Some(3)));
    var s1 := Next(Initial(Watched()), AB, zero, d);
    var s2 := Expire(s1);
    assert s2 == s1.(timer := Some(Timer(d, Expired)));
    var quiet := [Notify(AB, zero, d)];
    assert [Expiry, Notify(AB, zero, d)][1..] == quiet;
    assert Run(s2, quiet) == Run(Next(s2, AB, zero, d), []);
    assert Next(s2, AB, zero, d) == s2;

    var s3 := Next(s2, CD, up, d);
    assert s3 == s2.(allZero := false, timerStarted := false);
    var again := [Notify(CD, zero, d)];
    assert [Expiry, Notify(CD, up, d), Notify(CD, zero, d)][1..] == [Notify(CD, up, d)] + again;
    assert ([Notify(CD, up, d)] + again)[1..] == again;
    assert Run(s3, again) == Run(Next(s3, CD, zero, d), []);
    assert Next(s3, CD, zero, d).timer == Some(Timer(d, Running));
  }

  /** A transient failure looking up a/b while c/d is at zero keeps the
      aggregate true: no spurious cancel. */
  lemma FailedLookupKeepsQuiescence(d: Duration)
    ensures var s1 := Next(Initial(Watched()), AB, Cluster2(Zero(), Zero()), d);
      Next(s1, CD, Cluster2(Failed, Zero()), d) == s1
    ensures Quiescent(Watched(), Cluster2(Failed, Zero()))
  {
    BothZeroStartsTimer(d);
    WatchedKeysLocate();
    QuiescentOfTwo(Failed, Zero());
  }

  /** No earlier reading is kept for a failed lookup: with a/b last read at
      3 replicas, a failed lookup of a/b while c/d is at zero counts as
      quiescent, and the timer starts. */
  lemma FailedLookupForgetsScaleUp(d: Duration)
    ensures var s1 := Next(Initial(Watched()), AB, Cluster2(Found(Some(3)), Zero()), d);
      var s2 := Next(s1, CD, Cluster2(Failed, Zero()), d);
      && !s1.allZero
      && s2.allZero && s2.timer == Some(Timer(d, Running))
  {
    WatchedKeysLocate();
    QuiescentOfTwo(Found(Some(3)), Zero());
    QuiescentOfTwo(Failed, Zero());
  }
}
