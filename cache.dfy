/** The connection-scoped cache (connection/cache.go).  The wrapped
    ristretto store is a map from effective key to entry; whether ristretto
    admits a write is its own policy, so it arrives as an `Admission`
    argument.  Keys are scoped by the connection key the execution context
    may carry (the MD5 digest of the caller's connections). */
module Connection {
  import opened Wrappers
  import opened Text

  /** What this file reads from a `context.Context`: the value stored under
      the key "CacheConnectionKey", if there is one. */
  datatype Context = Context(connectionKey: Option<string>)

  /** Go's `time.Duration`, in nanoseconds. */
  type Duration = int

  const Hour: Duration := 3_600_000_000_000

  /** `addConnectionKey`: the key the store is addressed with.  Without a
      connection key it is the logical key itself; with one, the logical
      key followed by "-" and then exactly the connection key. */
  function AddConnectionKey(ctx: Context, key: string): (effective: string)
    ensures ctx.connectionKey.None? ==> effective == key
    ensures ctx.connectionKey.Some? ==>
      HasPrefix(effective, key + "-") && effective[|key| + 1..] == ctx.connectionKey.value
  {
    match ctx.connectionKey
    case None => key
    case Some(connKey) =>
      var effective := key + "-" + connKey;
      assert effective[..|key + "-"|] == key + "-";
      effective
  }

  /** Isolation: for one logical key, two contexts that differ in their
      connection key (or in having one) address different entries. */
  lemma ScopesSeparateKey(ctx1: Context, ctx2: Context, key: string)
    requires ctx1 != ctx2
    ensures AddConnectionKey(ctx1, key) != AddConnectionKey(ctx2, key)
  {
  }

  /** When connection keys all have one length (MD5 digests are 32 hex
      digits), a scoped key names its logical key and its scope uniquely. */
  lemma ScopedKeyDeterminesBoth(key1: string, conn1: string, key2: string, conn2: string)
    requires |conn1| == |conn2|
    requires AddConnectionKey(Context(Some(conn1)), key1) == AddConnectionKey(Context(Some(conn2)), key2)
    ensures key1 == key2 && conn1 == conn2
  {
    var e := key1 + "-" + conn1;
    assert e == key2 + "-" + conn2;
    assert |key1| == |key2|;
    assert key1 == e[..|key1|] == key2;
    assert conn1 == e[|key1| + 1..] == conn2;
  }

  /** The limit of that isolation: a caller without a connection key can
      name an entry another caller stored under a connection key. */
  lemma UnscopedKeyCanNameScopedEntry(key: string, connKey: string)
    ensures AddConnectionKey(Context(None), key + "-" + connKey) == AddConnectionKey(Context(Some(connKey)), key)
  {
  }

  /** One stored item and the TTL it was given. */
  datatype Entry<V> = Entry(value: V, ttl: Duration)

  /** The store's decision on a write: refused, or taken into its buffers,
      after which the policy may still drop it (`retained` false). */
  datatype Admission = Rejected | Admitted(retained: bool)

  /** The value a store holds under an effective key. */
  function Lookup<V>(store: map<string, Entry<V>>, effective: string): Option<V> {
    if effective in store then Some(store[effective].value) else None
  }

  /** The store after a write under `effective` with the given admission. */
  function Written<V>(store: map<string, Entry<V>>, effective: string, value: V, ttl: Duration, admission: Admission): map<string, Entry<V>> {
    if admission == Admitted(true) then store[effective := Entry(value, ttl)] else store
  }

  /** A write under one context's scope never changes what a `Get` under a
      different context's scope sees for the same logical key. */
  lemma WriteInvisibleToOtherScope<V>(store: map<string, Entry<V>>, ctx: Context, other: Context, key: string, value: V, admission: Admission)
    requires ctx != other
    ensures Lookup(Written(store, AddConnectionKey(ctx, key), value, Hour, admission), AddConnectionKey(other, key))
         == Lookup(store, AddConnectionKey(other, key))
  {
    ScopesSeparateKey(ctx, other, key);
  }

  /** A write that the store keeps is what a `Get` under the same scope sees. */
  lemma WriteVisibleToSameScope<V>(store: map<string, Entry<V>>, ctx: Context, key: string, value: V)
    ensures Lookup(Written(store, AddConnectionKey(ctx, key), value, Hour, Admitted(true)), AddConnectionKey(ctx, key)) == Some(value)
  {
  }

  /** A refused write changes nothing. */
  lemma RejectedWriteStoresNothing<V>(store: map<string, Entry<V>>, effective: string, value: V, ttl: Duration)
    ensures Written(store, effective, value, ttl, Rejected) == store
  {
  }

  /** `Delete` takes the raw key, so under a connection key it misses the
      entry that `Set` made for the same logical key. */
  lemma DeleteMissesScopedEntry<V>(store: map<string, Entry<V>>, connKey: string, key: string, value: V)
    ensures var ctx := Context(Some(connKey));
            var stored := Written(store, AddConnectionKey(ctx, key), value, Hour, Admitted(true));
            Lookup(stored - {key}, AddConnectionKey(ctx, key)) == Some(value)
  {
    var ctx := Context(Some(connKey));
    ScopesSeparateKey(ctx, Context(None), key);
  }

  /** `Cache`: the ristretto store behind a pointer. */
  class Cache<V> {
    var store: map<string, Entry<V>>

    /** `NewCache`: an empty store. */
    constructor ()
      ensures store == map[]
    {
      store := map[];
    }

    /** `SetWithTTL`: writes under the key as given; the answer is whether
        the store took the write, and a refused write stores nothing. */
    method SetWithTTL(key: string, value: V, ttl: Duration, admission: Admission) returns (accepted: bool)
      modifies this
      ensures accepted == admission.Admitted?
      ensures store == Written(old(store), key, value, ttl, admission)
    {
      accepted := admission.Admitted?;
      if admission == Admitted(true) {
        store := store[key := Entry(value, ttl)];
      }
    }

    /** `Set`: writes under the scoped key with a TTL of one hour. */
    method Set(ctx: Context, key: string, value: V, admission: Admission) returns (accepted: bool)
      modifies this
      ensures accepted == admission.Admitted?
      ensures store == Written(old(store), AddConnectionKey(ctx, key), value, Hour, admission)
    {
      var effective := AddConnectionKey(ctx, key);
      accepted := SetWithTTL(effective, value, Hour, admission);
    }

    /** `Get`: looks up the scoped key only. */
    method Get(ctx: Context, key: string) returns (value: Option<V>, found: bool)
      ensures found <==> AddConnectionKey(ctx, key) in store
      ensures value == Lookup(store, AddConnectionKey(ctx, key))
    {
      var effective := AddConnectionKey(ctx, key);
      found := effective in store;
      value := if found then Some(store[effective].value) else None;
    }

    /** `Delete`: removes the raw key, with no connection scoping. */
    method Delete(key: string)
      modifies this
      ensures store == old(store) - {key}
    {
      store := store - {key};
    }
  }
}
