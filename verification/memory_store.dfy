/** The two vector tables, `user_knowledge` and `user_slang`: one row per
    (user, text) with a mention counter, upserted on every store, searched
    through a similarity RPC, listed and deleted per user. */
module VectorStore {
  import opened Wrappers
  import opened PyValues

  /** What the `metadata` column holds: a JSON object written as a dict, the
      text `json.dumps` made of a dict (a JSON string, which readers decode
      back to that dict), the JSON text of some other value (which decodes
      to that value), or any other value another writer left there; text
      in `MetaOther` is not JSON. */
  datatype Metadata =
    | MetaDict(d: Record)
    | MetaJson(d: Record)
    | MetaJsonOther(v: Value)
    | MetaOther(v: Value)

  /** `generate_embedding` returns `None` when the embedding call fails. */
  type Embedding = Option<seq<real>>

  datatype Row = Row(id: nat, userId: string, text: string, embedding: Embedding,
                     metadata: Metadata, mentionCount: int)

  datatype TableKind = Knowledge | Slang

  /** What the finders return: the RPC rows or a `{"message": ...}` dict. */
  datatype SearchReply = Matches(rows: seq<Record>) | Message(message: string)

  predicate Matches(r: Row, userId: string, text: string) {
    r.userId == userId && r.text == text
  }

  /** The index of the first row for (user, text), as `existing.data[0]`. */
  function Find(rows: seq<Row>, userId: string, text: string): (r: Option<nat>)
    ensures r.Some? ==> r.value < |rows| && Matches(rows[r.value], userId, text)
    ensures r.Some? ==> forall j :: 0 <= j < r.value ==> !Matches(rows[j], userId, text)
    ensures r.None? ==> forall j :: 0 <= j < |rows| ==> !Matches(rows[j], userId, text)
  {
    if rows == [] then None
    else if Matches(rows[0], userId, text) then Some(0)
    else match Find(rows[1..], userId, text)
      case None => None
      case Some(i) => Some(i + 1)
  }

  /** The table after storing `text` for `userId`: the existing row gets its
      count raised by one and the new metadata (its embedding is kept);
      otherwise a row with count 1 is appended. */
  function Upserted(rows: seq<Row>, nextId: nat, userId: string, text: string,
                    metadata: Metadata, embedding: Embedding): seq<Row>
  {
    match Find(rows, userId, text)
    case Some(i) => rows[i := rows[i].(mentionCount := rows[i].mentionCount + 1, metadata := metadata)]
    case None => rows + [Row(nextId, userId, text, embedding, metadata, 1)]
  }

  /** At most one row per (user, text), and ids unique and below the next id. */
  predicate TableInvariant(rows: seq<Row>, nextId: nat) {
    (forall i :: 0 <= i < |rows| ==> rows[i].id < nextId) &&
    (forall i, j :: 0 <= i < j < |rows| ==> rows[i].id != rows[j].id) &&
    (forall i, j :: 0 <= i < j < |rows| ==>
      !Matches(rows[j], rows[i].userId, rows[i].text))
  }

  /** A store leaves exactly one row for (user, text), carrying the new
      metadata and a count one higher than before (1 if it was new); every
      other row is unchanged, and the invariant holds again. */
  lemma UpsertEffect(rows: seq<Row>, nextId: nat, userId: string, text: string,
                     metadata: Metadata, embedding: Embedding)
    requires TableInvariant(rows, nextId)
    ensures var after := Upserted(rows, nextId, userId, text, metadata, embedding);
      TableInvariant(after, nextId + 1) &&
      (exists k :: 0 <= k < |after| && Matches(after[k], userId, text) &&
        after[k].metadata == metadata &&
        after[k].mentionCount == (match Find(rows, userId, text)
                                  case Some(i) => rows[i].mentionCount + 1
                                  case None => 1)) &&
      (forall k :: 0 <= k < |rows| && !Matches(rows[k], userId, text) ==> after[k] == rows[k])
  {
    var after := Upserted(rows, nextId, userId, text, metadata, embedding);
    match Find(rows, userId, text)
    case Some(i) =>
      assert Matches(after[i], userId, text);
    case None =>
      assert Matches(after[|rows|], userId, text);
  }

  /** Storing the same text twice adds at most one row: the second store
      only raises the count. */
  lemma UpsertTwiceAddsOneRow(rows: seq<Row>, nextId: nat, userId: string, text: string,
                              m1: Metadata, m2: Metadata, e1: Embedding, e2: Embedding)
    ensures var once := Upserted(rows, nextId, userId, text, m1, e1);
      |Upserted(once, nextId + 1, userId, text, m2, e2)| == |once| <= |rows| + 1
  {
    var once := Upserted(rows, nextId, userId, text, m1, e1);
    match Find(rows, userId, text)
    case None =>
      assert Matches(once[|rows|], userId, text);
    case Some(i) =>
      assert Matches(once[i], userId, text);
  }

  /** The rows of one user, at most `limit` of them, in table order. */
  function UserRows(rows: seq<Row>, userId: string): (r: seq<Row>)
    ensures |r| <= |rows|
    ensures forall k :: 0 <= k < |r| ==> r[k].userId == userId && r[k] in rows
    ensures forall k :: 0 <= k < |rows| && rows[k].userId == userId ==> rows[k] in r
  {
    if rows == [] then []
    else (if rows[0].userId == userId then [rows[0]] else []) + UserRows(rows[1..], userId)
  }

  /** The rows left after deleting those matching both the user and the id. */
  function Without(rows: seq<Row>, userId: string, id: nat): (r: seq<Row>)
    ensures forall k :: 0 <= k < |r| ==> r[k] in rows && !(r[k].userId == userId && r[k].id == id)
    ensures forall k :: 0 <= k < |rows| && !(rows[k].userId == userId && rows[k].id == id) ==> rows[k] in r
  {
    if rows == [] then []
    else (if rows[0].userId == userId && rows[0].id == id then [] else [rows[0]]) + Without(rows[1..], userId, id)
  }

  class VectorTable {
    const kind: TableKind
    var rows: seq<Row>
    var nextId: nat

    predicate Valid()
      reads this
    {
      TableInvariant(rows, nextId)
    }

    constructor(kind: TableKind)
      ensures this.kind == kind && rows == [] && Valid()
    {
      this.kind := kind;
      rows := [];
      nextId := 0;
    }

    /** `store_user_knowledge` / `store_user_slang` (and the upsert inside
        the memory services' `store_memory`): `ok` is false when a database
        call raises, which leaves the table as it was. */
    method Upsert(userId: string, text: string, metadata: Metadata, embedding: Embedding, ok: bool)
      returns (r: Result<()>)
      requires Valid()
      modifies this
      ensures Valid()
      ensures !ok ==> r == Err(TransportError) && rows == old(rows)
      ensures ok ==> r == Ok(()) && rows == Upserted(old(rows), old(nextId), userId, text, metadata, embedding)
    {
      if !ok {
        return Err(TransportError);
      }
      UpsertEffect(rows, nextId, userId, text, metadata, embedding);
      match Find(rows, userId, text) {
        case Some(i) =>
          rows := rows[i := rows[i].(mentionCount := rows[i].mentionCount + 1, metadata := metadata)];
        case None =>
          rows := rows + [Row(nextId, userId, text, embedding, metadata, 1)];
      }
      nextId := nextId + 1;
      r := Ok(());
    }

    function NothingStoredMessage(): string {
      if kind == Knowledge then "No knowledge stored for this user." else "No slang stored for this user."
    }

    function NothingSimilarMessage(): string {
      if kind == Knowledge then "No similar knowledge found." else "No similar slang found."
    }

    /** `find_similar_knowledge` / `find_similar_slang`: `rpc` is the
        outcome of the similarity RPC, which is only called when the user
        has rows. */
    function FindSimilar(userId: string, rpc: Result<seq<Record>>): (r: Result<SearchReply>)
      reads this
      ensures UserRows(rows, userId) == [] ==> r == Ok(Message(NothingStoredMessage()))
      ensures UserRows(rows, userId) != [] && rpc == Ok([]) ==> r == Ok(Message(NothingSimilarMessage()))
      ensures r.Ok? && r.value.Matches? ==> rpc == Ok(r.value.rows) && r.value.rows != []
      ensures UserRows(rows, userId) != [] && rpc.Ok? && rpc.value != [] ==> r == Ok(Matches(rpc.value))
      ensures UserRows(rows, userId) != [] && rpc.Err? ==> r == Err(rpc.error)
      ensures r.Err? ==> rpc.Err?
    {
      if UserRows(rows, userId) == [] then Ok(Message(NothingStoredMessage()))
      else match rpc
        case Err(e) => Err(e)
        case Ok(data) => Ok(if data == [] then Message(NothingSimilarMessage()) else Matches(data))
    }

    /** `get_user_knowledge_vectors` / `get_user_slang_vectors`: the user's
        first `limit` rows, or [] when the query fails (`ok` false, or a
        negative limit the database rejects). */
    function UserVectors(userId: string, limit: int, ok: bool): (r: seq<Row>)
      reads this
      ensures |r| <= (if limit < 0 then 0 else limit)
      ensures forall k :: 0 <= k < |r| ==> r[k].userId == userId && r[k] in rows
      ensures ok && limit >= |UserRows(rows, userId)| ==> r == UserRows(rows, userId)
      ensures !ok || limit < 0 ==> r == []
      ensures ok && limit >= 0 ==>
        |r| == (if limit < |UserRows(rows, userId)| then limit else |UserRows(rows, userId)|) &&
        r == UserRows(rows, userId)[..|r|]
    {
      if !ok || limit < 0 then []
      else SliceTo(UserRows(rows, userId), limit)
    }

    /** `remove_user_knowledge` / `remove_user_slang`: deletes the rows
        matching both the user and the id; `errorText` is the text of the
        exception when the call raises. */
    method Remove(userId: string, id: nat, ok: bool, errorText: string) returns (message: string)
      requires Valid()
      modifies this
      ensures Valid()
      ensures ok ==> rows == Without(old(rows), userId, id) && IsSubsequence(rows, old(rows))
      ensures !ok ==> rows == old(rows)
      ensures ok ==> message == (if kind == Knowledge then "Knowledge vector removed successfully."
                                 else "Slang vector removed successfully.")
      ensures !ok ==> message == (if kind == Knowledge then "Error removing knowledge vector: "
                                  else "Error removing slang vector: ") + errorText
    {
      if !ok {
        return (if kind == Knowledge then "Error removing knowledge vector: "
                else "Error removing slang vector: ") + errorText;
      }
      WithoutKeepsInvariant(rows, nextId, userId, id);
      WithoutIsSubsequence(rows, userId, id);
      rows := Without(rows, userId, id);
      message := if kind == Knowledge then "Knowledge vector removed successfully."
                 else "Slang vector removed successfully.";
    }
  }

  lemma ConsKeepsInvariant(x: Row, rest: seq<Row>, nextId: nat)
    requires TableInvariant(rest, nextId) && x.id < nextId
    requires forall k :: 0 <= k < |rest| ==> rest[k].id != x.id && !Matches(rest[k], x.userId, x.text)
    ensures TableInvariant([x] + rest, nextId)
  {
    var a := [x] + rest;
    assert forall k :: 1 <= k < |a| ==> a[k] == rest[k - 1];
  }

  lemma {:induction false} WithoutKeepsInvariant(rows: seq<Row>, nextId: nat, userId: string, id: nat)
    requires TableInvariant(rows, nextId)
    ensures TableInvariant(Without(rows, userId, id), nextId)
  {
    if rows != [] {
      var tail := rows[1..];
      assert TableInvariant(tail, nextId) by {
        assert forall k :: 0 <= k < |tail| ==> tail[k] == rows[k + 1];
      }
      WithoutKeepsInvariant(tail, nextId, userId, id);
      var rest := Without(tail, userId, id);
      if !(rows[0].userId == userId && rows[0].id == id) {
        forall k | 0 <= k < |rest|
          ensures rest[k].id != rows[0].id && !Matches(rest[k], rows[0].userId, rows[0].text)
        {
          assert rest[k] in tail;
          var j :| 0 <= j < |tail| && tail[j] == rest[k];
          assert rows[j + 1] == rest[k];
        }
        ConsKeepsInvariant(rows[0], rest, nextId);
        assert Without(rows, userId, id) == [rows[0]] + rest;
      } else {
        assert Without(rows, userId, id) == rest;
      }
    }
  }

  /** Deleting keeps the remaining rows in their order. */
  lemma {:induction false} WithoutIsSubsequence(rows: seq<Row>, userId: string, id: nat)
    ensures IsSubsequence(Without(rows, userId, id), rows)
  {
    if rows != [] {
      WithoutIsSubsequence(rows[1..], userId, id);
      var rest := Without(rows[1..], userId, id);
      if !(rows[0].userId == userId && rows[0].id == id) {
        var a := [rows[0]] + rest;
        assert Without(rows, userId, id) == a;
        assert a[1..] == rest;
      } else {
        assert Without(rows, userId, id) == rest;
      }
    }
  }
}
