/** The form filler's own per-user context store. */
module FormContextStore {
  import opened Wrappers
  import opened UserContext

  class FormContext<V> {
    var store: Store<V>

    constructor()
      ensures store == map[]
    {
      store := map[];
    }

    /** `get_context`: the user's entries, {} for an unknown user. */
    function GetContext(userId: string): (ctx: map<string, V>)
      reads this
      ensures userId !in store ==> ctx == map[]
      ensures userId in store ==> ctx == store[userId]
      ensures forall k :: k in ctx ==> Lookup(store, userId, k) == Some(ctx[k])
    {
      Context(store, userId)
    }

    /** `get_context_key`: None for an unknown user or key. */
    function GetContextKey(userId: string, key: string): (r: Option<V>)
      reads this
      ensures r.None? <==> userId !in store || key !in store[userId]
      ensures r.Some? ==> r.value == store[userId][key]
    {
      Lookup(store, userId, key)
    }

    /** `update_context` */
    method UpdateContext(userId: string, key: string, value: V)
      modifies this
      ensures store == Updated(old(store), userId, key, value)
    {
      store := store[userId := Context(store, userId)[key := value]];
    }

    /** `delete_context` */
    method DeleteContext(userId: string)
      modifies this
      ensures store == WithoutUser(old(store), userId)
    {
      store := store - {userId};
    }

    /** `delete_context_key` */
    method DeleteContextKey(userId: string, key: string)
      modifies this
      ensures store == WithoutKey(old(store), userId, key)
    {
      var userData := Context(store, userId);
      if userId in store && key in userData {
        store := store[userId := userData - {key}];
      }
    }

    /** `dump_context`: a copy of the user's entries. */
    function DumpContext(userId: string): (ctx: map<string, V>)
      reads this
      ensures ctx == GetContext(userId)
    {
      map k | k in Context(store, userId) :: Context(store, userId)[k]
    }

    /** `replace_context` */
    method ReplaceContext(userId: string, key: string, value: V)
      modifies this
      ensures store == Replaced(old(store), userId, key, value)
    {
      if userId in store {
        store := store[userId := store[userId][key := value]];
      }
    }
  }
}
