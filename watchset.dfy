/**
 * The set of watched deployments: the comma-separated `namespace/name`
 * list read once at start-up, and the correspondence between a watched
 * key and the namespace and name it names.
 */
module WatchSet {
  import opened Wrappers
  import opened Strings

  /** The key under which a deployment is watched: `namespace/name`. */
  function Key(namespace: string, name: string): string {
    namespace + "/" + name
  }

  /** A well-formed entry of the list: exactly one `/`. */
  predicate WellFormed(entry: string) {
    Count(entry, '/') == 1
  }

  /** Splitting a well-formed key at its `/` and joining the two halves
      again gives the key back, and neither half holds a `/`. */
  lemma KeyRoundTrip(k: string)
    requires WellFormed(k)
    ensures Cut(k, '/').found
    ensures Key(Cut(k, '/').before, Cut(k, '/').after) == k
    ensures '/' !in Cut(k, '/').before && '/' !in Cut(k, '/').after
  {
    CountPositive(k, '/');
    var r := Cut(k, '/');
    CountConcat(r.before + ['/'], r.after, '/');
    CountConcat(r.before, ['/'], '/');
    CountPositive(r.before, '/');
    CountPositive(r.after, '/');
    assert Count(['/'], '/') == 1;
  }

  /** Conversely, a namespace and a name without `/` make a well-formed key
      that cuts back into exactly that namespace and name. */
  lemma CutKey(namespace: string, name: string)
    requires '/' !in namespace && '/' !in name
    ensures WellFormed(Key(namespace, name))
    ensures Cut(Key(namespace, name), '/') == CutResult(namespace, name, true)
  {
    var k := Key(namespace, name);
    CountConcat(namespace + "/", name, '/');
    CountConcat(namespace, "/", '/');
    CountPositive(namespace, '/');
    CountPositive(name, '/');
    assert Count("/", '/') == 1;
    CutPrefix(namespace, name);
  }

  /** Cutting `a/b` where `a` holds no `/` stops at that `/`. */
  lemma {:induction false} CutPrefix(a: string, b: string)
    requires '/' !in a
    ensures Cut(a + "/" + b, '/') == CutResult(a, b, true)
    decreases |a|
  {
    if |a| == 0 {
      assert a + "/" + b == "/" + b;
      assert ("/" + b)[1..] == b;
    } else {
      var s := a + "/" + b;
      assert s[0] == a[0] && s[1..] == a[1..] + "/" + b;
      CutPrefix(a[1..], b);
      assert [a[0]] + a[1..] == a;
    }
  }

  /**
   * The parsing of the WATCHED_DEPLOYMENTS value at start-up. An empty
   * value is a fatal configuration error (None). Otherwise the value is
   * split at every comma and exactly the entries with one `/` are kept;
   * the others are reported and skipped.
   */
  method ParseWatched(env: string) returns (watched: Option<set<string>>)
    ensures watched.None? <==> env == ""
    ensures watched.Some? ==>
      forall d :: d in watched.value <==> d in Split(env, ',') && WellFormed(d)
  {
    if env == "" {
      return None;
    }
    var parts := Split(env, ',');
    var keys: set<string> := {};
    for i := 0 to |parts|
      invariant forall d :: d in keys <==> d in parts[..i] && WellFormed(d)
    {
      var d := parts[i];
      if Count(d, '/') != 1 {
        continue;
      }
      keys := keys + {d};
    }
    assert parts[..|parts|] == parts;
    return Some(keys);
  }

  /** Every watched key cuts into the namespace and name it was written
      from, so the lookup in the reconcile loop names that deployment. */
  lemma ParsedKeysRoundTrip(env: string, watched: set<string>, k: string)
    requires forall d :: d in watched <==> d in Split(env, ',') && WellFormed(d)
    requires k in watched
    ensures k in Split(env, ',') && ',' !in k
    ensures Cut(k, '/').found && Key(Cut(k, '/').before, Cut(k, '/').after) == k
  {
    KeyRoundTrip(k);
  }
}
