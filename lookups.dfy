/**
 * What the reconciler sees of the cluster: a point lookup of a deployment
 * by namespace and name, and the aggregate "every watched deployment has
 * nil or zero desired replicas" computed from those lookups.
 */
module Lookups {
  import opened Wrappers
  import opened Strings
  import opened WatchSet

  /** Go's int32, the type of a deployment's spec.replicas. */
  newtype int32 = x: int | -0x8000_0000 <= x < 0x8000_0000

  /** client.ObjectKey: the namespace and name of an object. */
  datatype ObjectKey = ObjectKey(namespace: string, name: string)

  /** The outcome of one lookup through the API client: the object was not
      found, the lookup failed otherwise, or the deployment was read and
      its desired replica count is nil or a number. */
  datatype GetResult =
    | NotFound
    | Failed
    | Found(replicas: Option<int32>)

  /** The answers the API client gives during one reconcile. */
  type Cluster = ObjectKey -> GetResult

  /** A lookup that read a deployment with a positive desired count. */
  predicate ScaledUp(g: GetResult) {
    g.Found? && g.replicas.Some? && g.replicas.value > 0
  }

  /** The object a watched key is looked up under: the key cut at its first
      `/` into namespace and name. */
  function Locate(k: string): (key: ObjectKey)
    ensures '/' in k ==> Key(key.namespace, key.name) == k && '/' !in key.namespace
    ensures '/' !in k ==> key == ObjectKey(k, "")
  {
    var c := Cut(k, '/');
    ObjectKey(c.before, c.after)
  }

  /** The aggregate: no watched deployment whose lookup succeeded desires a
      positive number of replicas. A failed lookup is simply left out. */
  ghost predicate Quiescent(watched: set<string>, cluster: Cluster) {
    forall k :: k in watched ==> !ScaledUp(cluster(Locate(k)))
  }

  /** Quiescent with ScaledUp unfolded, and its De Morgan dual: the
      aggregate holds exactly when every watched deployment that was read
      has nil or non-positive replicas, whatever the failed lookups are,
      and fails exactly when some watched deployment was read with a
      positive count. This documents the reference predicate in the terms
      of the nil check and the `> 0` test; it adds no fact about the
      reconciler beyond the definition. */
  lemma QuiescentCases(watched: set<string>, cluster: Cluster)
    ensures Quiescent(watched, cluster) <==>
      forall k :: k in watched && cluster(Locate(k)).Found? ==>
        cluster(Locate(k)).replicas.None? || cluster(Locate(k)).replicas.value <= 0
    ensures !Quiescent(watched, cluster) <==>
      exists k :: k in watched && ScaledUp(cluster(Locate(k)))
  {
  }

  /** A watched key whose lookup fails takes no part in the aggregate: it
      is the same as over the other keys alone. */
  lemma FailedLookupSkipped(watched: set<string>, cluster: Cluster, k: string)
    requires k in watched
    requires cluster(Locate(k)).NotFound? || cluster(Locate(k)).Failed?
    ensures Quiescent(watched, cluster) == Quiescent(watched - {k}, cluster)
  {
  }

  /** The aggregate is a logical AND: it splits over a union of watch sets,
      so the order the keys are visited in does not matter. */
  lemma QuiescentUnion(a: set<string>, b: set<string>, cluster: Cluster)
    ensures Quiescent(a + b, cluster) <==> Quiescent(a, cluster) && Quiescent(b, cluster)
  {
  }

  /** The deployment a notification is about takes part in the aggregate:
      when it is watched and read with a positive count, the aggregate is
      false. */
  lemma RequestedCounts(watched: set<string>, cluster: Cluster, req: ObjectKey)
    requires '/' !in req.namespace && '/' !in req.name
    requires Key(req.namespace, req.name) in watched
    requires ScaledUp(cluster(req))
    ensures !Quiescent(watched, cluster)
  {
    CutKey(req.namespace, req.name);
    assert Locate(Key(req.namespace, req.name)) == req;
  }
}
