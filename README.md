# KubeSnooze reconciler, modelled in Dafny

KubeSnooze watches a fixed set of Kubernetes deployments. When every watched
deployment desires zero replicas (or leaves the count unset), it starts a
timer. When the timer expires it suspends the server. A scale-up before then
stops the timer. This project models the part of `main.go` that carries that
logic and proves its properties:

- the `DeploymentReconciler` object with its fields `allZero`, `timer` and
  `timerStarted`, its `Reconcile` method, `startTimer`, and the timer's expiry;
- the loop that recomputes the aggregate "every watched deployment has nil or
  zero desired replicas";
- the parsing of the `WATCHED_DEPLOYMENTS` list and the split of each kept key
  into namespace and name;
- the one-hour fallback for `TIMER_DURATION`.

Modules, one per component:

- `Strings` (strings.dfy): Go's `strings.Split`, `strings.Count` and
  `strings.Cut` for a one-character separator, and `Join` as the inverse of
  `Split`.
- `WatchSet` (watchset.dfy): the `namespace/name` key, the parse loop in
  `main`, and the round trip between a key and its two halves.
- `Durations` (durations.dfy): `time.Duration` as a signed 64-bit count of
  nanoseconds, and the fallback.
- `Lookups` (lookups.dfy): the API client's point lookup as a function
  `Cluster` from `ObjectKey` to `NotFound | Failed | Found(replicas)`, where
  `replicas` is an optional `int32`. Also the aggregate `Quiescent`.
- `Debounce` (debounce.dfy): the reconciler's fields as a value `State`. One
  notification is the function `Next`, a timer expiry is `Expire`, and
  `Inv` is the invariant of every reachable state.
- `Reconciler` (reconciler.dfy): the class `DeploymentReconciler`, whose
  methods update the fields in place. `Reconcile` and `Fire` are proved to
  move `Snapshot()` exactly as `Next` and `Expire` say. The constructor
  yields `Initial`. `StartTimer`'s postconditions give the new `timer`,
  `timerStarted` and `allZero` directly. `ComputeAllZero` is the aggregate
  loop, proved against `Quiescent`.
- `Episodes` (episodes.dfy): runs of notifications and expiries. It proves
  that the server sleeps at most once per episode (a stretch in which
  `timerStarted` stays true) and that re-arming needs a cancel first.
- `Scenarios` (scenarios.dfy): concrete runs over the watch set `{a/b, c/d}`.

Behaviour of the code that the model follows:

- A failed lookup is left out of that reconcile's AND. No per-deployment
  reading is kept. So a deployment last read at 3 replicas whose lookup
  then fails counts as quiescent (`Scenarios.FailedLookupForgetsScaleUp`).
  The inner `map[string]bool` values of the watch map are never read, so the
  watch set is a `set<string>`.
- There is no generation token. Cancelling is `time.Timer.Stop`, and the
  model's timer states (`Running`, `Stopped`, `Expired`) make a stopped
  timer unable to fire.
- After an expiry `timerStarted` stays true and `allZero` stays true. Later
  all-zero notifications start nothing. A new timer starts only after a
  scale-up (the true-to-false cancel clears `timerStarted`) followed by a
  new quiescence (`Episodes.NoRearmWithoutCancel`,
  `Scenarios.ExpiryThenNewEpisode`).
- In every reachable state `timerStarted == allZero`, so the inner guards
  `!r.timerStarted` and `r.timer != nil` always hold when reached
  (`Debounce.EdgesAreTight`).

## Model

| member | source | states |
|---|---|---|
| `Strings.Count` | main.go:144 | `strings.Count` for one character: the number of its occurrences, never more than the length. |
| `Strings.CountIsMultiplicity` | main.go:144 | The count equals the character's multiplicity in the string's multiset. |
| `Strings.Split` | main.go:143 | There is at least one piece, there is one more piece than there are separators, and no piece holds the separator. |
| `Strings.Join` | main.go:143 | The inverse of `Split`: the pieces with the separator between neighbours. It is the partner of the two round-trip lemmas below. |
| `Strings.JoinSplit` | main.go:143 | Joining the pieces of a split with the separator gives the original string back. |
| `Strings.SplitJoin` | main.go:143 | Joining pieces that hold no separator and splitting the result gives the same pieces back. |
| `Strings.CountPositive` | main.go:144 | A character occurs in a string exactly when its count there is positive. |
| `Strings.Cut` | main.go:56 | Reports found exactly when the separator occurs. If found, the string is before + separator + after, and before holds no separator. If not, it is the whole string and an empty rest. |
| `WatchSet.Key` | main.go:49 | The `namespace/name` key that `fmt.Sprintf("%s/%s", ...)` builds for the fetched deployment. |
| `WatchSet.WellFormed` | main.go:144 | The test that keeps a list entry: exactly one `/` in it. |
| `WatchSet.KeyRoundTrip` | main.go:56 | A key with exactly one `/` cuts into two halves without `/`, and `ns + "/" + name` gives the key back. |
| `WatchSet.CutKey` | main.go:49 | A namespace and a name without `/` form a key with exactly one `/`, and that key cuts back into the same namespace and name. |
| `WatchSet.ParseWatched` | main.go:136-149 | An empty value is the fatal case. Otherwise the result holds exactly the comma-separated entries that contain exactly one `/`. |
| `WatchSet.ParsedKeysRoundTrip` | main.go:143-149 | Every kept key is one of the comma pieces, holds no comma, and round-trips through the cut at `/`. |
| `Durations.EffectiveDuration` | main.go:87-90 | The timer period is the parsed value when parsing succeeds, and exactly one hour when it fails. So it is one hour exactly when parsing fails or yields one hour. |
| `Lookups.ScaledUp` | main.go:62 | The loop's exit test: the lookup succeeded, replicas is non-nil, and the count is positive. |
| `Lookups.Locate` | main.go:56-58 | The object a watched key is looked up under, as cut at its first `/`. If the key has a `/`, rejoining the namespace and name gives the key back, and the namespace has no `/`. Without a `/` it is the whole key with an empty name. |
| `Lookups.Quiescent` | main.go:54-66 | The reference definition of the aggregate: no watched key's lookup reads a positive count. Failed lookups are left out of the AND. |
| `Lookups.QuiescentCases` | main.go:54-66 | The aggregate holds exactly when every watched deployment that was read has a nil or non-positive count. It fails exactly when some watched deployment was read with a positive count. |
| `Lookups.FailedLookupSkipped` | main.go:58-61 | A watched key whose lookup fails does not change the aggregate: it is the same as over the other keys. |
| `Lookups.QuiescentUnion` | main.go:55-66 | The aggregate over a union is the AND of the aggregates, so visiting order does not matter. |
| `Lookups.RequestedCounts` | main.go:49-66 | A watched deployment that is notified and read with a positive count makes the aggregate false. |
| `Reconciler.ComputeAllZero` | main.go:53-66 | The loop, in any visiting order and with its skip and early exit, returns exactly the aggregate. |
| `Reconciler.DeploymentReconciler.constructor` | main.go:175-178 | The new object holds the watch set, `allZero` is false, there is no timer, and `timerStarted` is false. The invariant holds. |
| `Reconciler.DeploymentReconciler.Reconcile` | main.go:39-84 | Returns an error exactly when the first lookup fails with something other than NotFound. The new fields are `Next` of the old ones. The invariant is kept. |
| `Reconciler.DeploymentReconciler.StartTimer` | main.go:86-93 | A running timer for the effective period is installed, `timerStarted` becomes true, and `allZero` is untouched. |
| `Reconciler.DeploymentReconciler.Fire` | main.go:94-97 | The server sleeps exactly when the current timer is running. That timer becomes expired, nothing else changes, and the invariant is kept. |
| `Debounce.Initial` | main.go:175-178 | The state `main` builds: the parsed watch set and Go's zero values (`allZero` false, a nil `timer`, `timerStarted` false). |
| `Debounce.Inv` | main.go:69-93 | The invariant of every reachable state: `timerStarted` implies a timer exists, `timerStarted` equals `allZero`, and a running timer implies `timerStarted`. |
| `Debounce.Stop` | main.go:76 | `time.Timer.Stop`: the duration is kept and the timer no longer runs. A timer that was not running is left as it was. |
| `Debounce.Transition` | main.go:68-81 | The state change after the aggregate is computed: start the timer on a rise with none started, stop it on a fall with a timer present, then store the new aggregate. |
| `Debounce.Next` | main.go:39-84 | One `Reconcile`: the state is unchanged unless the requested lookup succeeds and the deployment is watched. Otherwise it is `Transition` with the freshly computed `Quiescent`. |
| `Debounce.Fires` | main.go:94-97 | The goroutine's wait on the timer channel ends and `sleepServer` runs only while the current timer is running. |
| `Debounce.Expire` | main.go:94-97 | The timer expiring: afterwards nothing can fire. `allZero`, `timerStarted` and the watch set are kept. A state with no running timer is left unchanged. |
| `Debounce.InitialInv` | main.go:175-178 | The initial state satisfies the invariant and has no timer that could fire. |
| `Debounce.IgnoredNotification` | main.go:44-51 | When the requested lookup fails or the deployment is not watched, `allZero`, `timer` and `timerStarted` all stay as they were. |
| `Debounce.StoresAggregate` | main.go:81 | After a processed notification, the stored `allZero` is the freshly computed aggregate, and the watch set is unchanged. |
| `Debounce.StartsOnlyOnRise` | main.go:69-73 | `timerStarted` goes from false to true exactly when the aggregate rises while it was false. The new timer then runs for the given period. |
| `Debounce.CancelsOnFall` | main.go:74-79 | A fall while a timer exists stops that timer and clears `timerStarted`. Nothing can then fire. |
| `Debounce.TimerChangesOnlyOnEdges` | main.go:68-80 | The timer changes only on a rise with no timer started, or on a fall with a timer present. |
| `Debounce.SteadyAggregateIsNoOp` | main.go:68-81 | When the computed aggregate equals the stored one, the state does not change. |
| `Debounce.ReplayIsIdempotent` | main.go:39-84 | A second identical notification against the same cluster leaves the state as the first one left it. |
| `Debounce.EdgesAreTight` | main.go:69-79 | In a reachable state, every rise starts a timer, and every fall finds a timer, stops it and clears `timerStarted`. |
| `Debounce.NextKeepsInv` | main.go:68-81 | Every notification keeps the invariant: timerStarted implies a timer, timerStarted equals allZero, and a running timer implies timerStarted. |
| `Debounce.ExpireKeepsInv` | main.go:94-97 | An expiry keeps the invariant. |
| `Debounce.NoRunningTimerReplaced` | main.go:71-72 | A running timer is never replaced by a new one. A notification either leaves it or stops it. |
| `Episodes.RunKeepsInv` | main.go:39-97 | Any interleaving of notifications and expiries from a reachable state keeps the invariant. |
| `Episodes.NoRearmWithoutCancel` | main.go:92-97 | After an expiry, and as long as no event clears `timerStarted`, the server is not put to sleep again and the timer does not change. |
| `Episodes.AtMostOneSleepPerEpisode` | main.go:92-97 | While `timerStarted` stays true, the server is put to sleep at most once. |
| `Episodes.RearmAfterCancel` | main.go:69-79 | A fall followed by a rise clears `timerStarted` and then starts a fresh running timer. |
| `Scenarios.QuiescentOfTwo` | main.go:54-66 | Over `{a/b, c/d}`, the aggregate is the AND of the two lookups. |
| `Scenarios.BothZeroStartsTimer` | main.go:69-73 | When both deployments are at zero, the aggregate rises and a timer starts for the configured period. |
| `Scenarios.ScaleUpCancels` | main.go:74-79 | When c/d reports 3 replicas during the countdown, the timer is stopped, the aggregate falls, and an expiry does not put the server to sleep. |
| `Scenarios.ExpiryThenNewEpisode` | main.go:69-97 | An expiry sleeps once, and a later all-zero notification does not re-arm. A scale-up followed by a return to zero starts a fresh timer. |
| `Scenarios.FailedLookupKeepsQuiescence` | main.go:58-61 | A failed lookup of a/b while c/d is at zero does not cancel the timer. |
| `Scenarios.FailedLookupForgetsScaleUp` | main.go:54-66 | With a/b last read at 3 replicas, a failed lookup of a/b and a zero c/d make the aggregate true and start the timer. |

## Left out

- The Kubernetes client, the controller-runtime manager, controller registration and the health and ready endpoints (main.go:155-191) are framework calls. `r.Get` becomes the `Cluster` function.
- The lookups inside one `Reconcile` are answered by one `Cluster` snapshot. The model does not capture the cluster changing between those lookups.
- The goroutine and the wait on the timer channel (main.go:94-97) involve concurrency and real time. Expiry is the abstract event `Fire`/`Expire`, with no clock. The model does not capture the goroutine reading `r.timer` after the field has been replaced, or a stopped timer's goroutine staying blocked.
- `sleepServer` writing `/sys/power/state` (main.go:100-108) is an OS side effect. The model has only the `sleep` result of `Fire`.
- `loadEnv`, `os.Getenv`, `os.Exit` and logging (main.go:110-124, main.go:131-153) are environment and I/O plumbing. The `TIMER_DURATION` value is a parameter of `Reconcile`. An empty `WATCHED_DEPLOYMENTS` is the `None` result of `ParseWatched`, not a process exit.
- The grammar of `time.ParseDuration` belongs to a library that is not part of this model. The parser is an abstract `Parser` function.
- `Reconcile`'s `ctrl.Result` is always empty and is not modelled.
- `Strings.Split`, `Strings.Count` and `Strings.Cut` cover only the one-character separators `,` and `/` that the code uses. They do not model Go's general string separators.
