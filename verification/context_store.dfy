/** Per-user context stores: a dictionary from user id to that user's
    key/value dictionary. The operations are defined once on the map and
    shared by the websocket store and the form filler's store. */
module UserContext {
  import opened Wrappers

  type Store<V> = map<string, map<string, V>>

  /** `store.get(user_id, {})` */
  function Context<V>(s: Store<V>, userId: string): (ctx: map<string, V>)
    ensures userId in s ==> ctx == s[userId]
    ensures userId !in s ==> ctx == map[]
  {
    if userId in s then s[userId] else map[]
  }

  /** `store.get(user_id, {}).get(key)` */
  function Lookup<V>(s: Store<V>, userId: string, key: string): (r: Option<V>)
    ensures r.Some? <==> userId in s && key in s[userId]
    ensures r.Some? ==> r.value == s[userId][key]
  {
    var ctx := Context(s, userId);
    if key in ctx then Some(ctx[key]) else None
  }

  /** `store.setdefault(user_id, {})[key] = value` */
  function Updated<V>(s: Store<V>, userId: string, key: string, value: V): Store<V> {
    s[userId := Context(s, userId)[key := value]]
  }

  /** `store.pop(user_id, None)` */
  function WithoutUser<V>(s: Store<V>, userId: string): Store<V> {
    s - {userId}
  }

  /** Removing one key of one user, if present; the user's entry stays. */
  function WithoutKey<V>(s: Store<V>, userId: string, key: string): Store<V> {
    if userId in s && key in s[userId] then s[userId := s[userId] - {key}] else s
  }

  /** A write that happens only when the user already has an entry. */
  function Replaced<V>(s: Store<V>, userId: string, key: string, value: V): Store<V> {
    if userId in s then s[userId := s[userId][key := value]] else s
  }

  /** After an update the key reads back as the value, and every other
      user and key reads as before. */
  lemma UpdatedReadsBack<V>(s: Store<V>, userId: string, key: string, value: V)
    ensures Lookup(Updated(s, userId, key, value), userId, key) == Some(value)
    ensures forall u, k :: u != userId || k != key ==>
      Lookup(Updated(s, userId, key, value), u, k) == Lookup(s, u, k)
    ensures Updated(s, userId, key, value).Keys == s.Keys + {userId}
  {
  }

  /** Of two writes to the same key, the last one wins. */
  lemma UpdatedTwice<V>(s: Store<V>, userId: string, key: string, first: V, second: V)
    ensures Updated(Updated(s, userId, key, first), userId, key, second) == Updated(s, userId, key, second)
  {
    var ctx := Context(s, userId);
    assert ctx[key := first][key := second] == ctx[key := second];
  }

  /** Deleting a user forgets all of its keys and no other user's;
      deleting an absent user changes nothing. */
  lemma WithoutUserEffect<V>(s: Store<V>, userId: string)
    ensures Context(WithoutUser(s, userId), userId) == map[]
    ensures forall u, k :: u != userId ==> Lookup(WithoutUser(s, userId), u, k) == Lookup(s, u, k)
    ensures userId !in s ==> WithoutUser(s, userId) == s
  {
  }

  /** Deleting a key removes only that key of that user. */
  lemma WithoutKeyEffect<V>(s: Store<V>, userId: string, key: string)
    ensures Lookup(WithoutKey(s, userId, key), userId, key) == None
    ensures forall u, k :: u != userId || k != key ==>
      Lookup(WithoutKey(s, userId, key), u, k) == Lookup(s, u, k)
    ensures WithoutKey(s, userId, key).Keys == s.Keys
  {
  }

  /** Replacing writes exactly like an update for a known user and is a
      no-op for an unknown one. */
  lemma ReplacedEffect<V>(s: Store<V>, userId: string, key: string, value: V)
    ensures userId in s ==> Replaced(s, userId, key, value) == Updated(s, userId, key, value)
    ensures userId !in s ==> Replaced(s, userId, key, value) == s
  {
  }

  /** The functions the websocket context store module defines. */
  const StoreNames: set<string> := {"get_context", "update_context", "delete_context", "dump_context"}

  /** `from <module> import <names>`: ImportError unless the module
      defines every name. */
  function ImportFrom(defined: set<string>, names: seq<string>): (r: Result<()>)
    ensures r.Ok? <==> forall i :: 0 <= i < |names| ==> names[i] in defined
    ensures r.Err? ==> r.error == ImportError
  {
    if forall i :: 0 <= i < |names| ==> names[i] in defined then Ok(()) else Err(ImportError)
  }

  /** The websocket handlers' shared store (the module-level
      `user_context_store`). */
  class ContextStore<V> {
    var store: Store<V>

    constructor()
      ensures store == map[]
    {
      store := map[];
    }

    /** `get_context`: the user's entries, {} for an unknown user. */
    function GetContext(userId: string): (r: map<string, V>)
      reads this
      ensures userId in store ==> r == store[userId]
      ensures userId !in store ==> r == map[]
      ensures forall k :: k in r <==> Lookup(store, userId, k).Some?
    {
      Context(store, userId)
    }

    /** `update_context` */
    method UpdateContext(userId: string, key: string, value: V)
      modifies this
      ensures store == Updated(old(store), userId, key, value)
    {
      store := store[userId := Context(store, userId)[key := value]];
    }

    /** `delete_context` */
    method DeleteContext(userId: string)
      modifies this
      ensures store == WithoutUser(old(store), userId)
    {
      store := store - {userId};
    }

    /** The `delete_context_key` the multistep service imports from this
        store, with the form filler store's meaning. */
    method DeleteContextKey(userId: string, key: string)
      modifies this
      ensures store == WithoutKey(old(store), userId, key)
    {
      if userId in store && key in store[userId] {
        store := store[userId := store[userId] - {key}];
      }
    }

    /** `dump_context`: a copy of the user's entries. */
    function DumpContext(userId: string): (ctx: map<string, V>)
      reads this
      ensures forall k :: k in ctx <==> Lookup(store, userId, k).Some?
      ensures forall k :: k in ctx ==> Lookup(store, userId, k) == Some(ctx[k])
    {
      Context(store, userId)
    }
  }
}
