/**
 * The reconciler's state and the effect of one notification on it, as
 * values: the stored aggregate `allZero`, the flag `timerStarted` and the
 * optional sleep timer. The class in module Reconciler is proved to follow
 * these functions; the properties of the debounce are proved here.
 */
module Debounce {
  import opened Wrappers
  import opened Durations
  import opened WatchSet
  import opened Lookups

  /** The life of a time.Timer: counting down, stopped before it expired,
      or expired (its channel delivered and the server was put to sleep). */
  datatype TimerState = Running | Stopped | Expired

  datatype Timer = Timer(duration: Duration, state: TimerState)

  /** time.Timer.Stop: a running timer is stopped; stopping a stopped or
      expired timer changes nothing. */
  function Stop(t: Timer): (t': Timer)
    ensures t'.duration == t.duration && !t'.state.Running?
    ensures !t.state.Running? ==> t' == t
  {
    if t.state.Running? then t.(state := Stopped) else t
  }

  /** The fields of a DeploymentReconciler; `timer` None is a nil pointer. */
  datatype State = State(
    deployments: set<string>,
    allZero: bool,
    timer: Option<Timer>,
    timerStarted: bool)

  /** A freshly built reconciler: Go's zero values for the three fields. */
  function Initial(deployments: set<string>): State {
    State(deployments, false, None, false)
  }

  /** What every reachable state satisfies: timerStarted implies there is
      a timer, it holds exactly while the stored aggregate is true, and a
      timer that is still counting down is the one timerStarted refers to. */
  ghost predicate Inv(s: State) {
    && (s.timerStarted ==> s.timer.Some?)
    && s.timerStarted == s.allZero
    && (s.timer.Some? && s.timer.value.state.Running? ==> s.timerStarted)
  }

  /** A notification gets past the two early returns: the requested
      deployment was read, and it is one of the watched keys. The key is
      built from `req`; the code builds it from the fetched object's
      namespace and name, which equal those of `req` whenever the Get
      succeeds. */
  predicate Processed(s: State, req: ObjectKey, cluster: Cluster) {
    cluster(req).Found? && Key(req.namespace, req.name) in s.deployments
  }

  /** The state-change part of a reconcile, given the freshly computed
      aggregate `now`: start the timer on a rise when none was started,
      stop it on a fall when there is one, then store `now`. */
  function Transition(s: State, now: bool, duration: Duration): State {
    var s1 :=
      if now && !s.allZero then
        if !s.timerStarted then s.(timer := Some(Timer(duration, Running)), timerStarted := true)
        else s
      else if !now && s.allZero then
        if s.timer.Some? then s.(timer := Some(Stop(s.timer.value)), timerStarted := false)
        else s
      else s;
    s1.(allZero := now)
  }

  /** One notification about `req`, with the cluster answering lookups as
      `cluster` and `duration` the period a started timer gets. */
  ghost function Next(s: State, req: ObjectKey, cluster: Cluster, duration: Duration): State {
    if Processed(s, req, cluster) then Transition(s, Quiescent(s.deployments, cluster), duration)
    else s
  }

  /** The running timer's channel delivers: the server is put to sleep. */
  predicate Fires(s: State) {
    s.timer.Some? && s.timer.value.state.Running?
  }

  /** The timer expiring; nothing else changes, timerStarted included. */
  function Expire(s: State): (s': State)
    ensures !Fires(s')
    ensures s'.deployments == s.deployments && s'.allZero == s.allZero
    ensures s'.timerStarted == s.timerStarted
    ensures !Fires(s) ==> s' == s
  {
    if Fires(s) then s.(timer := Some(s.timer.value.(state := Expired))) else s
  }

  lemma InitialInv(deployments: set<string>)
    ensures Inv(Initial(deployments))
    ensures !Fires(Initial(deployments))
  {
  }

  /** A failed lookup of the requested deployment, or a deployment that is
      not watched, leaves allZero, timer and timerStarted as they were. */
  lemma IgnoredNotification(s: State, req: ObjectKey, cluster: Cluster, duration: Duration)
    requires cluster(req).NotFound? || cluster(req).Failed?
             || Key(req.namespace, req.name) !in s.deployments
    ensures Next(s, req, cluster, duration) == s
  {
  }

  /** After a processed notification the stored aggregate is the freshly
      computed one, and the watch set is unchanged. */
  lemma StoresAggregate(s: State, req: ObjectKey, cluster: Cluster, duration: Duration)
    requires Processed(s, req, cluster)
    ensures Next(s, req, cluster, duration).allZero == Quiescent(s.deployments, cluster)
    ensures Next(s, req, cluster, duration).deployments == s.deployments
  {
  }

  /** timerStarted goes from false to true exactly on a rise of the
      aggregate while it was false, and then a new timer runs for
      `duration`. */
  lemma StartsOnlyOnRise(s: State, now: bool, duration: Duration)
    ensures (!s.timerStarted && Transition(s, now, duration).timerStarted) <==>
      (now && !s.allZero && !s.timerStarted)
    ensures !s.timerStarted && Transition(s, now, duration).timerStarted ==>
      Transition(s, now, duration).timer == Some(Timer(duration, Running))
  {
  }

  /** A fall of the aggregate while a timer exists stops that timer and
      clears timerStarted. */
  lemma CancelsOnFall(s: State, now: bool, duration: Duration)
    requires !now && s.allZero && s.timer.Some?
    ensures Transition(s, now, duration).timer == Some(Stop(s.timer.value))
    ensures !Transition(s, now, duration).timerStarted
    ensures !Fires(Transition(s, now, duration))
  {
  }

  /** The timer changes only on a rise with no timer started, or on a fall
      with a timer present. */
  lemma TimerChangesOnlyOnEdges(s: State, now: bool, duration: Duration)
    requires Transition(s, now, duration).timer != s.timer
    ensures (now && !s.allZero && !s.timerStarted) || (!now && s.allZero && s.timer.Some?)
  {
  }

  /** When the computed aggregate equals the stored one, neither the timer
      nor timerStarted changes. */
  lemma SteadyAggregateIsNoOp(s: State, now: bool, duration: Duration)
    requires now == s.allZero
    ensures Transition(s, now, duration) == s
  {
  }

  /** Replaying a notification against an unchanged cluster changes
      nothing more. */
  lemma ReplayIsIdempotent(s: State, req: ObjectKey, cluster: Cluster, duration: Duration)
    ensures Next(Next(s, req, cluster, duration), req, cluster, duration) ==
            Next(s, req, cluster, duration)
  {
  }

  /** In a reachable state the two inner guards always hold: a rise always
      starts a timer and a fall always stops one, so the debounce has
      exactly two edges. */
  lemma EdgesAreTight(s: State, now: bool, duration: Duration)
    requires Inv(s)
    ensures now && !s.allZero ==> Transition(s, now, duration).timer == Some(Timer(duration, Running))
    ensures !now && s.allZero ==>
      && s.timer.Some?
      && Transition(s, now, duration).timer == Some(Stop(s.timer.value))
      && !Transition(s, now, duration).timerStarted
  {
  }

  /** Every notification keeps the invariant. */
  lemma NextKeepsInv(s: State, req: ObjectKey, cluster: Cluster, duration: Duration)
    requires Inv(s)
    ensures Inv(Next(s, req, cluster, duration))
  {
  }

  /** The timer expiring keeps the invariant. */
  lemma ExpireKeepsInv(s: State)
    requires Inv(s)
    ensures Inv(Expire(s))
  {
  }

  /** A timer is never replaced while it still runs: whenever a notification
      installs a new timer, the old one (if any) had stopped or expired. */
  lemma NoRunningTimerReplaced(s: State, req: ObjectKey, cluster: Cluster, duration: Duration)
    requires Inv(s)
    requires Fires(s)
    ensures var s' := Next(s, req, cluster, duration);
      s'.timer == s.timer || s'.timer == Some(Stop(s.timer.value))
  {
  }
}
