/**
 * The conversation store: an append-only message list, a list of saved
 * favourite commands and a free-form context map. Each action replaces one
 * field of the store with a value computed from its old value; the others
 * stay as they were. Ids and timestamps, which the source draws from
 * `crypto.randomUUID` and `Date.now`, are parameters.
 */
module ChatStore {
  import opened Json

  datatype Role = User | Assistant | System

  datatype ChatMessage = ChatMessage(id: string, role: Role, content: string, timestamp: int)

  datatype Favorite = Favorite(id: string, query: string, description: string, timestamp: int)

  /** `favorites.filter((f) => f.id !== id)` */
  function WithoutId(favorites: seq<Favorite>, id: string): (kept: seq<Favorite>)
    ensures |kept| <= |favorites|
    ensures forall f :: f in kept <==> f in favorites && f.id != id
  {
    if favorites == [] then []
    else if favorites[0].id == id then WithoutId(favorites[1..], id)
    else [favorites[0]] + WithoutId(favorites[1..], id)
  }

  /** Removing an id distributes over concatenation, so the kept favourites keep their order. */
  lemma {:induction false} WithoutIdAppend(a: seq<Favorite>, b: seq<Favorite>, id: string)
    ensures WithoutId(a + b, id) == WithoutId(a, id) + WithoutId(b, id)
  {
    if a == [] {
      assert a + b == b;
    } else {
      assert (a + b)[0] == a[0] && (a + b)[1..] == a[1..] + b;
      WithoutIdAppend(a[1..], b, id);
    }
  }

  /** Removing an id that no favourite carries changes nothing. */
  lemma {:induction false} WithoutAbsentId(favorites: seq<Favorite>, id: string)
    requires forall f :: f in favorites ==> f.id != id
    ensures WithoutId(favorites, id) == favorites
  {
    if favorites != [] {
      assert favorites == [favorites[0]] + favorites[1..];
      WithoutAbsentId(favorites[1..], id);
    }
  }

  /** Removing the same id twice is the same as removing it once. */
  lemma WithoutIdIdempotent(favorites: seq<Favorite>, id: string)
    ensures WithoutId(WithoutId(favorites, id), id) == WithoutId(favorites, id)
  {
    WithoutAbsentId(WithoutId(favorites, id), id);
  }

  /** `{ ...context, ...newContext }`: a shallow merge in which `patch` wins. */
  function Merged(context: map<string, Value>, patch: map<string, Value>): (r: map<string, Value>)
    ensures r.Keys == context.Keys + patch.Keys
    ensures forall k :: k in patch ==> r[k] == patch[k]
    ensures forall k :: k in context && k !in patch ==> r[k] == context[k]
  {
    context + patch
  }

  /** Of two successive updates of the same key, the later value wins. */
  lemma LaterUpdateWins(context: map<string, Value>, key: string, first: Value, second: Value)
    ensures Merged(Merged(context, map[key := first]), map[key := second])
         == Merged(context, map[key := second])
  {
  }

  /** Applying two patches in turn is applying their merge once. */
  lemma MergeSequential(context: map<string, Value>, p: map<string, Value>, q: map<string, Value>)
    ensures Merged(Merged(context, p), q) == Merged(context, Merged(p, q))
  {
  }

  /** The store (`useChatStore`): three fields, each replaced by one of the actions. */
  class ChatState {
    var messages: seq<ChatMessage>
    var favorites: seq<Favorite>
    var context: map<string, Value>

    /** The store starts empty. */
    constructor ()
      ensures messages == [] && favorites == [] && context == map[]
    {
      messages := [];
      favorites := [];
      context := map[];
    }

    /** Appends one message with the given role and content at the end. */
    method AddMessage(role: Role, content: string, id: string, timestamp: int)
      modifies this
      ensures messages == old(messages) + [ChatMessage(id, role, content, timestamp)]
      ensures favorites == old(favorites) && context == old(context)
    {
      messages := messages + [ChatMessage(id, role, content, timestamp)];
    }

    /** Appends one favourite built from `query` and `description` at the end. */
    method AddFavorite(query: string, description: string, id: string, timestamp: int)
      modifies this
      ensures favorites == old(favorites) + [Favorite(id, query, description, timestamp)]
      ensures messages == old(messages) && context == old(context)
    {
      favorites := favorites + [Favorite(id, query, description, timestamp)];
    }

    /** Drops every favourite with this id, keeping the rest in order. */
    method RemoveFavorite(id: string)
      modifies this
      ensures favorites == WithoutId(old(favorites), id)
      ensures (forall f :: f in old(favorites) ==> f.id != id) ==> favorites == old(favorites)
      ensures messages == old(messages) && context == old(context)
    {
      favorites := WithoutId(favorites, id);
      if forall f :: f in old(favorites) ==> f.id != id {
        WithoutAbsentId(old(favorites), id);
      }
    }

    method ClearMessages()
      modifies this
      ensures messages == []
      ensures favorites == old(favorites) && context == old(context)
    {
      messages := [];
    }

    /** Shallow-merges `newContext` into the context. */
    method UpdateContext(newContext: map<string, Value>)
      modifies this
      ensures context == Merged(old(context), newContext)
      ensures messages == old(messages) && favorites == old(favorites)
    {
      context := Merged(context, newContext);
    }

    method ClearContext()
      modifies this
      ensures context == map[]
      ensures messages == old(messages) && favorites == old(favorites)
    {
      context := map[];
    }
  }
}
