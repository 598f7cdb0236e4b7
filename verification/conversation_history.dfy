/** The per-user conversation history kept in the `conversation_history`
    table: messages stored as JSON dicts, read back, appended to, cleared
    and replaced by a summary. The summarising agent is an oracle passed
    as a function; each database call may raise, which the flags
    `readOk`, `insertOk` and `writeOk` say. */
module ConversationHistory {
  import opened Wrappers
  import opened PyValues
  import opened IsoDate

  /** A Python `datetime`: one that names a real date and time. */
  type Timestamp = d: DateTime | Valid(d) witness Min

  /** `Message` */
  datatype Message = Message(role: string, content: string, createdAt: Timestamp, userId: Option<string>)

  /** `json.loads(m.model_dump_json())`: the dict stored for a message. */
  function Dump(m: Message): (d: Record)
    ensures d.Keys == {"role", "content", "created_at", "user_id"}
  {
    map["role" := VStr(m.role),
        "content" := VStr(m.content),
        "created_at" := VStr(Format(m.createdAt)),
        "user_id" := if m.userId.Some? then VStr(m.userId.value) else VNone]
  }

  /** `Message.from_dict`: a missing key raises KeyError, a non-string
      timestamp TypeError, an unparsable one ValueError, and a role,
      content or user id of the wrong type fails pydantic's validation. */
  function FromDict(d: Record): (r: Result<Message>)
    ensures r.Ok? ==> d.Keys >= {"role", "content", "created_at", "user_id"}
    ensures r.Ok? ==> d["role"] == VStr(r.value.role) && d["content"] == VStr(r.value.content)
    ensures r.Ok? ==> d["created_at"].VStr? && Parse(d["created_at"].s) == Some(r.value.createdAt)
    ensures r.Ok? ==> (r.value.userId.None? <==> d["user_id"] == VNone)
  {
    if "role" !in d || "content" !in d || "created_at" !in d then Err(KeyError)
    else if !d["created_at"].VStr? then Err(TypeError)
    else
      var createdAt := Parse(d["created_at"].s);
      if createdAt.None? then Err(ValueError)
      else if "user_id" !in d then Err(KeyError)
      else if !d["role"].VStr? || !d["content"].VStr? then Err(ValidationError)
      else if d["user_id"].VNone? then Ok(Message(d["role"].s, d["content"].s, createdAt.value, None))
      else if d["user_id"].VStr? then Ok(Message(d["role"].s, d["content"].s, createdAt.value, Some(d["user_id"].s)))
      else Err(ValidationError)
  }

  /** A stored message reads back as itself. */
  lemma FromDictDump(m: Message)
    ensures FromDict(Dump(m)) == Ok(m)
  {
    FormatParseRoundTrip(m.createdAt);
  }

  /** `[json.loads(msg.model_dump_json()) for msg in history]` */
  function DumpAll(history: seq<Message>): (ds: seq<Record>)
    ensures |ds| == |history|
  {
    if history == [] then [] else [Dump(history[0])] + DumpAll(history[1..])
  }

  /** `[Message.from_dict(msg) for msg in data]`: the first failing
      element's exception escapes. */
  function FromDictAll(ds: seq<Record>): (r: Result<seq<Message>>)
    ensures r.Ok? ==> |r.value| == |ds|
    ensures ds != [] && FromDict(ds[0]).Err? ==> r == Err(FromDict(ds[0]).error)
  {
    if ds == [] then Ok([])
    else
      var head := FromDict(ds[0]);
      if head.Err? then Err(head.error)
      else
        var rest := FromDictAll(ds[1..]);
        if rest.Err? then Err(rest.error) else Ok([head.value] + rest.value)
  }

  /** A stored history reads back as itself. */
  lemma {:induction false} FromDictAllDumpAll(history: seq<Message>)
    ensures FromDictAll(DumpAll(history)) == Ok(history)
  {
    if history != [] {
      var ds := DumpAll(history);
      assert ds[0] == Dump(history[0]) && ds[1..] == DumpAll(history[1..]);
      FromDictDump(history[0]);
      FromDictAllDumpAll(history[1..]);
      assert [history[0]] + history[1..] == history;
    }
  }

  /** The table: the `history` column of each user's row. */
  type Rows = map<string, seq<Record>>

  /** What `get_or_create_conversation_history` returns: the decoded
      history, or [] for a new user, a failed read or an undecodable
      history. */
  function Loaded(rows: Rows, userId: string, readOk: bool): seq<Message> {
    if readOk && userId in rows && FromDictAll(rows[userId]).Ok? then FromDictAll(rows[userId]).value else []
  }

  /** The table after `get_or_create_conversation_history`: a new user
      gets an empty row when the insert succeeds. */
  function Created(rows: Rows, userId: string, readOk: bool, insertOk: bool): Rows {
    if readOk && userId !in rows && insertOk then rows[userId := []] else rows
  }

  /** The table after `update_conversation_history`: only an existing row
      is rewritten, and a failed write is swallowed. */
  function Written(rows: Rows, userId: string, history: seq<Message>, writeOk: bool): Rows {
    if writeOk && userId in rows then rows[userId := DumpAll(history)] else rows
  }

  /** Reading never changes an existing user's history, and a new user's
      history reads back as [] afterwards (the row was created) or is
      still missing (the insert failed). */
  lemma CreatedFacts(rows: Rows, userId: string, readOk: bool, insertOk: bool)
    ensures userId in rows ==> Created(rows, userId, readOk, insertOk) == rows
    ensures userId !in rows ==> Loaded(rows, userId, readOk) == []
    ensures readOk && insertOk ==> (userId in Created(rows, userId, readOk, insertOk) &&
      Loaded(Created(rows, userId, readOk, insertOk), userId, true) == Loaded(rows, userId, true))
    ensures forall u :: u != userId ==> (u in rows <==> u in Created(rows, userId, readOk, insertOk))
  {
  }

  /** A written history of well-formed messages is what the next read
      returns, and no other user's row changes. */
  lemma WrittenReadsBack(rows: Rows, userId: string, history: seq<Message>)
    requires userId in rows
    ensures Loaded(Written(rows, userId, history, true), userId, true) == history
    ensures forall u :: u != userId && u in rows ==> Written(rows, userId, history, true)[u] == rows[u]
  {
    FromDictAllDumpAll(history);
  }

  /** The lines fed to the summariser: `role: content` of each message the
      user wrote. */
  function TranscriptLines(history: seq<Message>, userId: string): (lines: seq<string>)
    ensures |lines| <= |history|
  {
    if history == [] then []
    else
      var rest := TranscriptLines(history[1..], userId);
      if history[0].userId == Some(userId) then [history[0].role + ": " + history[0].content] + rest else rest
  }

  /** The summariser's prompt. */
  function SummaryPrompt(history: seq<Message>, userId: string): string {
    "Conversation:\n" + Join("\n", TranscriptLines(history, userId)) + "\n\n"
  }

  /** Only the user's own messages reach the summariser: a message of
      another user, or one without a user such as an earlier summary,
      anywhere in the history leaves the prompt as it is. */
  lemma {:induction false} TranscriptIgnoresOthers(front: seq<Message>, m: Message, back: seq<Message>, userId: string)
    requires m.userId != Some(userId)
    ensures TranscriptLines(front + [m] + back, userId) == TranscriptLines(front + back, userId)
    ensures SummaryPrompt(front + [m] + back, userId) == SummaryPrompt(front + back, userId)
  {
    if front == [] {
      assert front + [m] + back == [m] + back && front + back == back;
      assert ([m] + back)[1..] == back;
    } else {
      assert (front + [m] + back)[1..] == front[1..] + [m] + back;
      assert (front + back)[1..] == front[1..] + back;
      TranscriptIgnoresOthers(front[1..], m, back, userId);
    }
  }

  /** Every transcript line comes from one of the user's own messages, in
      order. */
  lemma {:induction false} TranscriptOfOwnMessages(history: seq<Message>, userId: string)
    requires forall m :: m in history ==> m.userId == Some(userId)
    ensures |TranscriptLines(history, userId)| == |history|
    ensures forall i :: 0 <= i < |history| ==>
      TranscriptLines(history, userId)[i] == history[i].role + ": " + history[i].content
  {
    if history != [] {
      assert forall m :: m in history[1..] ==> m in history;
      TranscriptOfOwnMessages(history[1..], userId);
    }
  }

  /** The role the summary is stored under (the summarising agent's name). */
  const SummaryRole := "Summary"

  class ConversationHistoryTable {
    var rows: Rows

    constructor(rows: Rows)
      ensures this.rows == rows
    {
      this.rows := rows;
    }

    /** `get_or_create_conversation_history` */
    method GetOrCreate(userId: string, readOk: bool, insertOk: bool) returns (history: seq<Message>)
      modifies this
      ensures history == Loaded(old(rows), userId, readOk)
      ensures rows == Created(old(rows), userId, readOk, insertOk)
    {
      if !readOk {
        return [];
      }
      if userId in rows {
        var decoded := FromDictAll(rows[userId]);
        if decoded.Err? {
          return [];
        }
        return decoded.value;
      }
      if insertOk {
        rows := rows[userId := []];
      }
      history := [];
    }

    /** `update_conversation_history` */
    method Update(userId: string, history: seq<Message>, writeOk: bool)
      modifies this
      ensures rows == Written(old(rows), userId, history, writeOk)
    {
      if writeOk && userId in rows {
        rows := rows[userId := DumpAll(history)];
      }
    }

    /** `append_message_to_history`: what was read, plus the new message
      (stamped `now` and with the user's id) at the end; that list is
      written back. A read that fails leaves [] to append to, so the
      write then replaces the stored history. */
    method Append(userId: string, role: string, content: string, now: Timestamp,
                  readOk: bool, insertOk: bool, writeOk: bool) returns (history: seq<Message>)
      modifies this
      ensures history == Loaded(old(rows), userId, readOk) + [Message(role, content, now, Some(userId))]
      ensures rows == Written(Created(old(rows), userId, readOk, insertOk), userId, history, writeOk)
    {
      history := GetOrCreate(userId, readOk, insertOk);
      history := history + [Message(role, content, now, Some(userId))];
      Update(userId, history, writeOk);
    }

    /** `clear_conversation_history`: True unless the write raises, even
      when there is no row to clear. */
    method Clear(userId: string, writeOk: bool) returns (ok: bool)
      modifies this
      ensures ok == writeOk
      ensures rows == Written(old(rows), userId, [], writeOk)
    {
      Update(userId, [], writeOk);
      ok := writeOk;
    }

    /** `replace_conversation_history_with_summary`: the summariser's
      answer, stripped, becomes the only stored message, with role
      "Summary", no user id and the time `now`. A failing summariser
      gives [] and leaves the history as it was. */
    method ReplaceWithSummary(userId: string, now: Timestamp, summarize: string -> Result<string>,
                              readOk: bool, insertOk: bool, writeOk: bool) returns (summary: seq<Message>)
      modifies this
      ensures var prompt := SummaryPrompt(Loaded(old(rows), userId, readOk), userId);
        (summarize(prompt).Err? ==> summary == [] && rows == Created(old(rows), userId, readOk, insertOk)) &&
        (summarize(prompt).Ok? ==>
          summary == [Message(SummaryRole, Strip(summarize(prompt).value), now, None)] &&
          rows == Written(Created(old(rows), userId, readOk, insertOk), userId, summary, writeOk))
    {
      var history := GetOrCreate(userId, readOk, insertOk);
      var answer := summarize(SummaryPrompt(history, userId));
      if answer.Err? {
        return [];
      }
      summary := [Message(SummaryRole, Strip(answer.value), now, None)];
      Update(userId, summary, writeOk);
    }
  }

  /** After a successful summary the stored history reads back as exactly
      the one summary message, and that message never reaches the next
      summary's prompt. */
  lemma SummaryReadsBack(rows: Rows, userId: string, summary: Message, later: seq<Message>)
    requires userId in rows && summary.userId.None?
    ensures Loaded(Written(rows, userId, [summary], true), userId, true) == [summary]
    ensures SummaryPrompt([summary] + later, userId) == SummaryPrompt(later, userId)
  {
    WrittenReadsBack(rows, userId, [summary]);
    TranscriptIgnoresOthers([], summary, later, userId);
    assert [] + [summary] + later == [summary] + later;
    assert [] + later == later;
  }

  /** An append after a successful read of a well-formed stored history
      leaves that history plus the new message; an append after a failed
      read that then writes leaves the new message alone. */
  lemma AppendEffect(rows: Rows, userId: string, m: Message, readOk: bool)
    requires userId in rows
    requires readOk ==> FromDictAll(rows[userId]).Ok?
    ensures var stored := Written(rows, userId, Loaded(rows, userId, readOk) + [m], true);
      (readOk ==> Loaded(stored, userId, true) == FromDictAll(rows[userId]).value + [m]) &&
      (!readOk ==> Loaded(stored, userId, true) == [m])
  {
    WrittenReadsBack(rows, userId, Loaded(rows, userId, readOk) + [m]);
  }
}
