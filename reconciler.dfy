/**
 * The DeploymentReconciler: one object whose three fields Reconcile and
 * startTimer update in place. The API client, the process environment and
 * time.ParseDuration are passed in as values; Snapshot() reads the fields
 * as a Debounce.State so that every method is tied to the functions that
 * specify it.
 */
module Reconciler {
  import opened Wrappers
  import opened Strings
  import opened WatchSet
  import opened Durations
  import opened Lookups
  import opened Debounce

  /**
   * The loop that recomputes the aggregate. Keys are visited in an order
   * the model leaves open, as a Go map's are; a failed lookup is skipped
   * and the first positive count ends the loop.
   */
  method ComputeAllZero(watched: set<string>, cluster: Cluster) returns (allZero: bool)
    ensures allZero == Quiescent(watched, cluster)
  {
    allZero := true;
    var remaining := watched;
    while remaining != {}
      invariant remaining <= watched
      invariant allZero
      invariant forall k :: k in watched - remaining ==> !ScaledUp(cluster(Locate(k)))
      decreases remaining
    {
      var nsName :| nsName in remaining;
      remaining := remaining - {nsName};
      var c := Cut(nsName, '/');
      var d := cluster(ObjectKey(c.before, c.after));
      if d.NotFound? || d.Failed? {
        continue;
      }
      if d.replicas.Some? && d.replicas.value > 0 {
        allZero := false;
        break;
      }
    }
  }

  class DeploymentReconciler {
    /** The watched `namespace/name` keys, fixed when the object is built. */
    const deployments: set<string>
    var allZero: bool
    var timer: Option<Timer>
    var timerStarted: bool

    ghost function Snapshot(): State
      reads this
    {
      State(deployments, allZero, timer, timerStarted)
    }

    ghost predicate Valid()
      reads this
    {
      Inv(Snapshot())
    }

    /** The reconciler as main builds it: the parsed watch set and the zero
        value of every other field. */
    constructor (deployments: set<string>)
      ensures Snapshot() == Initial(deployments)
      ensures Valid()
    {
      this.deployments := deployments;
      allZero := false;
      timer := None;
      timerStarted := false;
    }

    /**
     * Handles one change notification about `req`. `cluster` answers the
     * API lookups, `durationEnv` is the TIMER_DURATION value and `parse`
     * is time.ParseDuration. `err` is the error handed back to the
     * controller runtime: a failed lookup other than NotFound.
     */
    method Reconcile(req: ObjectKey, cluster: Cluster, durationEnv: string, parse: Parser)
      returns (err: bool)
      modifies this
      ensures err <==> cluster(req).Failed?
      ensures Snapshot() == Next(old(Snapshot()), req, cluster, EffectiveDuration(durationEnv, parse))
      ensures old(Valid()) ==> Valid()
    {
      ghost var before := Snapshot();
      ghost var duration := EffectiveDuration(durationEnv, parse);
      var got := cluster(req);
      if got.NotFound? || got.Failed? {
        return got.Failed?;
      }
      // The fetched object's namespace and name are those of req.
      if Key(req.namespace, req.name) !in deployments {
        return false;
      }

      var now := ComputeAllZero(deployments, cluster);

      if now && !allZero {
        if !timerStarted {
          StartTimer(durationEnv, parse);
        }
      } else if !now && allZero {
        if timer.Some? {
          timer := Some(Stop(timer.value));
          timerStarted := false;
        }
      }
      allZero := now;

      assert Snapshot() == Transition(before, now, duration);
      if Inv(before) {
        NextKeepsInv(before, req, cluster, duration);
      }
      return false;
    }

    /** Starts a timer for the configured period and records that it was
        started; the allZero flag and the watch set are untouched. */
    method StartTimer(durationEnv: string, parse: Parser)
      modifies this
      ensures timer == Some(Timer(EffectiveDuration(durationEnv, parse), Running))
      ensures timerStarted
      ensures allZero == old(allZero)
    {
      var duration := EffectiveDuration(durationEnv, parse);
      timer := Some(Timer(duration, Running));
      timerStarted := true;
    }

    /** The timer's channel delivering. `sleep` says whether the server is
        put to sleep now: only when the current timer is still running. */
    method Fire() returns (sleep: bool)
      modifies this
      ensures sleep == Fires(old(Snapshot()))
      ensures Snapshot() == Expire(old(Snapshot()))
      ensures old(Valid()) ==> Valid()
    {
      sleep := timer.Some? && timer.value.state.Running?;
      if sleep {
        timer := Some(timer.value.(state := Expired));
      }
      if old(Valid()) {
        ExpireKeepsInv(old(Snapshot()));
      }
    }
  }
}
