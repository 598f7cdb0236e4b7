/** The improv form filler's bookkeeping: which required fields are still
    missing, the conversation history and the extracted values, kept in
    the form filler's context store under the keys "history" and
    "extracted_fields". The language-model agents are oracles: their
    answers arrive as parameters. */
module ImprovForms {
  import opened Wrappers
  import opened PyValues
  import opened UserContext
  import opened FormContextStore

  /** `RequiredField`; the Python type object is kept as its name. */
  datatype RequiredField = RequiredField(name: string, fieldType: string, description: string)

  /** `ImprovForm` */
  datatype ImprovForm = ImprovForm(name: string, requiredFields: seq<RequiredField>, theme: Option<string>,
                                   intro: Option<string>, outro: Option<string>)

  /** `Message` */
  datatype Message = Message(role: string, content: string)

  /** `ExtractedField` */
  datatype ExtractedField = ExtractedField(name: string, value: string)

  /** `ExtractionResults`, the extraction agent's answer. */
  datatype ExtractionResults = ExtractionResults(didExtract: bool, extractedFields: seq<ExtractedField>)

  /** What the orchestration keeps in its context: the message list under
      "history", the extracted values under "extracted_fields". */
  datatype Slot = History(messages: seq<Message>) | Fields(values: map<string, string>)

  /** Each key holds the kind of value the orchestration writes there. */
  predicate SlotsTyped(s: Store<Slot>) {
    forall u :: u in s ==>
      ("history" in s[u] ==> s[u]["history"].History?) &&
      ("extracted_fields" in s[u] ==> s[u]["extracted_fields"].Fields?)
  }

  /** `get_context_key(user_id, "history")` */
  function HistoryIn(s: Store<Slot>, userId: string): Option<seq<Message>> {
    var v := Lookup(s, userId, "history");
    if v.Some? && v.value.History? then Some(v.value.messages) else None
  }

  /** `get_context_key(user_id, "extracted_fields") or {}` */
  function FieldsIn(s: Store<Slot>, userId: string): map<string, string> {
    var v := Lookup(s, userId, "extracted_fields");
    if v.Some? && v.value.Fields? then v.value.values else map[]
  }

  /** The store after one message is appended to the user's history, a
      missing history counting as empty. */
  function Appended(s: Store<Slot>, userId: string, m: Message): Store<Slot> {
    Updated(s, userId, "history", History(HistoryIn(s, userId).GetOr([]) + [m]))
  }

  /** The missing fields after the extracted fields are removed one by
      one, as the loop of `extract_data` does. */
  function Remaining(missing: seq<RequiredField>, xs: seq<ExtractedField>): seq<RequiredField> {
    if xs == [] then missing
    else
      var last := xs[|xs| - 1];
      Filter((f: RequiredField) => f.name != last.name, Remaining(missing, xs[..|xs| - 1]))
  }

  /** The extracted values after the extracted fields are written one by
      one, as the loop of `extract_data` does. */
  function Recorded(fields: map<string, string>, xs: seq<ExtractedField>): map<string, string> {
    if xs == [] then fields
    else
      var last := xs[|xs| - 1];
      Recorded(fields, xs[..|xs| - 1])[last.name := last.value]
  }

  /** What `run_improv` answers once the agent has replied: the form's
      outro (or "") and a blank line before the reply when no field is
      missing, the bare reply otherwise. */
  function Reply(form: ImprovForm, missing: seq<RequiredField>, text: string): string {
    if missing == [] then form.outro.GetOr("") + "\n\n" + text else text
  }

  // -----------------------------------------------------------------------
  // What the bookkeeping promises

  /** Appending adds exactly one message at the end of the user's
      history and touches no other user or key. */
  lemma AppendedEffect(s: Store<Slot>, userId: string, m: Message)
    ensures HistoryIn(Appended(s, userId, m), userId) == Some(HistoryIn(s, userId).GetOr([]) + [m])
    ensures FieldsIn(Appended(s, userId, m), userId) == FieldsIn(s, userId)
    ensures forall u, k :: u != userId || k != "history" ==> Lookup(Appended(s, userId, m), u, k) == Lookup(s, u, k)
    ensures SlotsTyped(s) ==> SlotsTyped(Appended(s, userId, m))
  {
    UpdatedReadsBack(s, userId, "history", History(HistoryIn(s, userId).GetOr([]) + [m]));
  }

  /** A required field is still missing exactly when it was missing and
      no extracted field has its name. */
  lemma {:induction false} RemainingMeaning(missing: seq<RequiredField>, xs: seq<ExtractedField>, f: RequiredField)
    ensures f in Remaining(missing, xs) <==> f in missing && forall i :: 0 <= i < |xs| ==> xs[i].name != f.name
  {
    if xs != [] {
      var init := xs[..|xs| - 1];
      RemainingMeaning(missing, init, f);
      assert forall i :: 0 <= i < |init| ==> init[i] == xs[i];
    }
  }

  /** The missing fields keep their order and only ever shrink. */
  lemma {:induction false} RemainingShrinks(missing: seq<RequiredField>, xs: seq<ExtractedField>)
    ensures IsSubsequence(Remaining(missing, xs), missing)
  {
    if xs != [] {
      var init := xs[..|xs| - 1];
      RemainingShrinks(missing, init);
      SubsequenceTransitive(Remaining(missing, xs), Remaining(missing, init), missing);
    } else {
      SubsequenceReflexive(missing);
    }
  }

  /** Every extracted name ends up recorded with the value of its last
      occurrence; every other name keeps the value it had. */
  lemma {:induction false} RecordedMeaning(fields: map<string, string>, xs: seq<ExtractedField>)
    ensures forall i :: 0 <= i < |xs| ==> xs[i].name in Recorded(fields, xs)
    ensures forall i :: 0 <= i < |xs| && (forall j :: i < j < |xs| ==> xs[j].name != xs[i].name) ==>
      Recorded(fields, xs)[xs[i].name] == xs[i].value
    ensures forall k :: (forall i :: 0 <= i < |xs| ==> xs[i].name != k) ==>
      (k in Recorded(fields, xs) <==> k in fields) &&
      (k in fields ==> Recorded(fields, xs)[k] == fields[k])
  {
    if xs != [] {
      var init := xs[..|xs| - 1];
      RecordedMeaning(fields, init);
      assert forall i :: 0 <= i < |init| ==> init[i] == xs[i];
    }
  }

  /** Writing a slot with its own kind of value keeps the slots typed. */
  lemma UpdatedTyped(s: Store<Slot>, userId: string, key: string, v: Slot)
    requires SlotsTyped(s)
    requires key == "history" ==> v.History?
    requires key == "extracted_fields" ==> v.Fields?
    ensures SlotsTyped(Updated(s, userId, key, v))
  {
  }

  /** The finishing reply starts with the outro and ends with the agent's
      text; while fields are missing the reply is the text alone. */
  lemma ReplyFacts(form: ImprovForm, missing: seq<RequiredField>, text: string)
    ensures var outro := form.outro.GetOr("");
      missing == [] ==> (Reply(form, missing, text) == outro + "\n\n" + text &&
                         Reply(form, missing, text)[..|outro|] == outro &&
                         Reply(form, missing, text)[|outro| + 2..] == text)
    ensures missing != [] ==> Reply(form, missing, text) == text
  {
  }

  class FormOrchestration {
    const userId: string
    const form: ImprovForm
    const context: FormContext<Slot>
    var missingFields: seq<RequiredField>
    var inFlow: bool

    /** The missing fields are always some of the form's required fields,
        in the form's order, and every context slot holds its kind. */
    predicate Valid()
      reads this, context
    {
      IsSubsequence(missingFields, form.requiredFields) && SlotsTyped(context.store)
    }

    /** `__init__`: nothing is filled yet and no flow is running. */
    constructor(form: ImprovForm)
      ensures this.form == form && userId == "user"
      ensures missingFields == form.requiredFields && !inFlow
      ensures fresh(context) && context.store == map[]
      ensures Valid()
    {
      this.form := form;
      userId := "user";
      context := new FormContext();
      missingFields := form.requiredFields;
      inFlow := false;
      SubsequenceReflexive(form.requiredFields);
    }

    /** `reset` as written: the store has no `clear_context`, so the first
        statement raises and nothing is reset. */
    method ResetAsWritten() returns (r: Result<()>)
      requires Valid()
      ensures r == Err(AttributeError)
    {
      r := Err(AttributeError);
    }

    /** `reset` with the user's context deleted: the history and the
        extracted values are gone, every required field is missing again
        and no flow is running. */
    method Reset()
      requires Valid()
      modifies this, context
      ensures Valid()
      ensures context.store == WithoutUser(old(context.store), userId)
      ensures HistoryIn(context.store, userId) == None && FieldsIn(context.store, userId) == map[]
      ensures missingFields == form.requiredFields && !inFlow
    {
      context.DeleteContext(userId);
      missingFields := form.requiredFields;
      inFlow := false;
      SubsequenceReflexive(form.requiredFields);
    }

    /** `extract_data`: the user's input joins the history; `agent` is the
        extraction agent's answer, an error when its run fails. When it
        extracted something, each field's value is recorded and the field
        stops being missing. */
    method ExtractData(input: string, agent: Result<ExtractionResults>) returns (r: Result<ExtractionResults>)
      requires Valid()
      modifies this, context
      ensures Valid()
      ensures inFlow == old(inFlow)
      ensures IsSubsequence(missingFields, old(missingFields))
      ensures var s1 := Appended(old(context.store), userId, Message("user", input));
        (agent.Err? ==> r == Err(AgentError) && context.store == s1 && missingFields == old(missingFields)) &&
        (agent.Ok? && !agent.value.didExtract ==>
          r == agent && context.store == s1 && missingFields == old(missingFields)) &&
        (agent.Ok? && agent.value.didExtract ==>
          var xs := agent.value.extractedFields;
          r == agent && missingFields == Remaining(old(missingFields), xs) &&
          context.store == if xs == [] then s1
                           else Updated(s1, userId, "extracted_fields", Fields(Recorded(FieldsIn(s1, userId), xs))))
    {
      var got := context.GetContextKey(userId, "history");
      var history := if got.Some? && got.value.History? then got.value.messages else [];
      context.UpdateContext(userId, "history", History(history + [Message("user", input)]));
      ghost var s1 := context.store;
      AppendedEffect(old(context.store), userId, Message("user", input));
      SubsequenceReflexive(missingFields);
      if agent.Err? {
        return Err(AgentError);
      }
      var result := agent.value;
      if !result.didExtract {
        return Ok(result);
      }
      RecordExtracted(result.extractedFields);
      RemainingShrinks(old(missingFields), result.extractedFields);
      r := Ok(result);
    }

    /** The loop of `extract_data`: each extracted value is written into
        "extracted_fields" and fields of its name stop being missing. */
    method RecordExtracted(xs: seq<ExtractedField>)
      requires Valid()
      modifies this, context
      ensures Valid()
      ensures inFlow == old(inFlow)
      ensures missingFields == Remaining(old(missingFields), xs)
      ensures context.store == if xs == [] then old(context.store)
        else Updated(old(context.store), userId, "extracted_fields", Fields(Recorded(FieldsIn(old(context.store), userId), xs)))
    {
      ghost var s1 := context.store;
      ghost var fields0 := FieldsIn(s1, userId);
      var i := 0;
      while i < |xs|
        invariant 0 <= i <= |xs|
        invariant inFlow == old(inFlow)
        invariant missingFields == Remaining(old(missingFields), xs[..i])
        invariant context.store == if i == 0 then s1
                                   else Updated(s1, userId, "extracted_fields", Fields(Recorded(fields0, xs[..i])))
        invariant Valid()
      {
        var found := context.GetContextKey(userId, "extracted_fields");
        var current := if found.Some? && found.value.Fields? then found.value.values else map[];
        assert current == Recorded(fields0, xs[..i]);
        current := current[xs[i].name := xs[i].value];
        assert xs[..i + 1][..i] == xs[..i];
        ghost var before := context.store;
        context.UpdateContext(userId, "extracted_fields", Fields(current));
        UpdatedTyped(before, userId, "extracted_fields", Fields(current));
        if i > 0 {
          UpdatedTwice(s1, userId, "extracted_fields", Fields(Recorded(fields0, xs[..i])), Fields(current));
        }
        var name := xs[i].name;
        ghost var previous := missingFields;
        missingFields := Filter((f: RequiredField) => f.name != name, missingFields);
        SubsequenceTransitive(missingFields, previous, form.requiredFields);
        i := i + 1;
      }
      assert xs[..|xs|] == xs;
    }

    /** `run_improv`: `reply` is the improv agent's answer, an error when
        its run fails. A flow runs exactly while fields are missing. A
        history of at most one message opens with the intro, if the form
        has one; otherwise the reply (after the outro when the form is
        complete) is appended as the assistant's message and returned.
        Without any history, taking its length raises. */
    method RunImprov(input: string, reply: Result<string>) returns (r: Result<string>)
      requires Valid()
      modifies this, context
      ensures Valid()
      ensures inFlow <==> missingFields != []
      ensures missingFields == old(missingFields)
      ensures var h := HistoryIn(old(context.store), userId);
        (h.None? ==> r == Err(TypeError) && context.store == old(context.store)) &&
        (h.Some? && |h.value| <= 1 && form.intro.Some? ==>
          r == Ok(form.intro.value) &&
          context.store == Appended(old(context.store), userId, Message("assistant", form.intro.value))) &&
        (h.Some? && !(|h.value| <= 1 && form.intro.Some?) && reply.Err? ==>
          r == Err(AgentError) && context.store == old(context.store)) &&
        (h.Some? && !(|h.value| <= 1 && form.intro.Some?) && reply.Ok? ==>
          r == Ok(Reply(form, missingFields, reply.value)) &&
          context.store == Appended(old(context.store), userId, Message("assistant", r.value)))
    {
      inFlow := missingFields != [];
      var got := context.GetContextKey(userId, "history");
      if got.None? {
        return Err(TypeError);
      }
      var history := got.value.messages;
      if |history| <= 1 && form.intro.Some? {
        AppendedEffect(context.store, userId, Message("assistant", form.intro.value));
        context.UpdateContext(userId, "history", History(history + [Message("assistant", form.intro.value)]));
        return Ok(form.intro.value);
      }
      if reply.Err? {
        return Err(AgentError);
      }
      var result: string;
      if missingFields == [] {
        var outro := if form.outro.Some? then form.outro.value else "";
        result := outro + "\n\n" + reply.value;
      } else {
        result := reply.value;
      }
      AppendedEffect(context.store, userId, Message("assistant", result));
      context.UpdateContext(userId, "history", History(history + [Message("assistant", result)]));
      r := Ok(result);
    }
  }
}
