/** The multistep therapy service: a per-user state machine that starts a
    flow from the flow table, lets a judge decide after each user reply
    whether to move on, and finishes or aborts the flow, publishing its
    state to the websocket context store. */
module Multistep {
  import opened Wrappers
  import opened UserContext
  import opened MultistepFlows

  /** The flow table as the service consults it: `flow_id in flows` is
      `table(flow_id).Some?`. The service is built over `FlowOf`. */
  type Table = string -> Option<Flow>

  /** `MultistepMessage` */
  datatype Message = Message(role: string, content: string, stepIndex: Option<int>)

  /** The judge's verdict on a reply (`MultistepJudgement`). */
  datatype Judgement = Judgement(input: string, advance: bool, reason: string)

  /** `Multistep` */
  datatype State = State(goal: Option<string>, flowId: Option<string>, stepIndex: int, content: string,
                         advance: bool, done: bool, reason: string, previousSteps: seq<Message>)

  /** `get_flow`; `None` stands for a missing `flow_id`, which is never
      a key of the table. */
  function GetFlow(table: Table, flowId: Option<string>): (r: Result<Flow>)
    ensures r.Ok? <==> flowId.Some? && table(flowId.value).Some?
    ensures r.Err? ==> r.error == ValueError
    ensures r.Ok? ==> table(flowId.value) == Some(r.value)
  {
    if flowId.Some? && table(flowId.value).Some? then Ok(table(flowId.value).value) else Err(ValueError)
  }

  /** A flow id as an f-string renders it. */
  function IdText(flowId: Option<string>): string {
    if flowId.Some? then flowId.value else "None"
  }

  /** The state `start` creates. Without a flow id, `flow` is unbound at
      the point it is read, which raises; a flow without steps has no
      first step to show. */
  function Started(table: Table, goal: Option<string>, flowId: Option<string>): Result<State> {
    if flowId.None? then Err(NameError)
    else
      match GetFlow(table, flowId)
      case Err(e) => Err(e)
      case Ok(flow) =>
        if |flow.steps| == 0 then Err(IndexError)
        else
          var opening := "Starting " + flowId.value + ".";
          Ok(State(Some(goal.GetOr(flow.goal)), flowId, 0, flow.steps[0], false, false, opening,
                   [Message("assistant", opening, None)]))
  }

  /** The states the service can reach: a started flow is a known one,
      its index never negative and its transcript never empty (so the
      prompt built after each advance can read the last message). */
  predicate Reachable(table: Table, s: State) {
    s.flowId.Some? && table(s.flowId.value).Some? && s.stepIndex >= 0 && |s.previousSteps| > 0
  }

  /** `advance` on a reachable state: the index moves by one when the
      judge says so; past the last step the flow finishes. An empty flow
      id is falsy and skips the table. */
  function Advanced(table: Table, s: State, j: Judgement): State
    requires Reachable(table, s)
  {
    var index := if j.advance then s.stepIndex + 1 else s.stepIndex;
    var steps := table(s.flowId.value).value.steps;
    if s.flowId.value == "" then s.(stepIndex := index)
    else if index < |steps| then s.(stepIndex := index, content := steps[index])
    else Finished(s.(stepIndex := index))
  }

  /** `finish` */
  function Finished(s: State): State {
    s.(done := true, content := "Flow " + IdText(s.flowId) + " completed.")
  }

  /** `abort` */
  function Aborted(s: State): State {
    s.(done := true, content := "Flow " + IdText(s.flowId) + " aborted.")
  }

  /** `judge` after the checks: the verdict is recorded, the reply joins
      the transcript, then the flow advances. */
  function Judged(table: Table, s: State, userInput: string, j: Judgement): State
    requires Reachable(table, s)
  {
    Advanced(table, s.(advance := j.advance, reason := j.reason,
                       previousSteps := s.previousSteps + [Message("user", userInput, None)]), j)
  }

  /** `n` successive advances with the same verdict. */
  function Run(table: Table, s: State, j: Judgement, n: nat): (t: State)
    requires Reachable(table, s)
    ensures Reachable(table, t)
    decreases n
  {
    if n == 0 then s
    else
      AdvancedIndex(table, s, j);
      Run(table, Advanced(table, s, j), j, n - 1)
  }

  /** The service module's import line as written: the context store
      defines no `delete_context_key`, so loading the module raises
      ImportError before any of the service runs. With the function added
      to the store (`ContextStore.DeleteContextKey`) the import succeeds. */
  lemma ServiceImportAsWritten()
    ensures ImportFrom(StoreNames, ["delete_context_key", "update_context"]) == Err(ImportError)
    ensures ImportFrom(StoreNames + {"delete_context_key"}, ["delete_context_key", "update_context"]) == Ok(())
  {
    var names := ["delete_context_key", "update_context"];
    assert names[0] !in StoreNames;
  }

  // -----------------------------------------------------------------------
  // What the transitions promise

  /** `start` succeeds exactly for a known flow id with at least one step,
      and then sits on the first step with one assistant message, not
      done, with the goal given or else the flow's. */
  lemma StartedFacts(table: Table, goal: Option<string>, flowId: Option<string>)
    ensures Started(table, goal, flowId).Err? <==>
      flowId.None? || table(flowId.value).None? || |table(flowId.value).value.steps| == 0
    ensures flowId.None? ==> Started(table, goal, flowId) == Err(NameError)
    ensures flowId.Some? && table(flowId.value).None? ==> Started(table, goal, flowId) == Err(ValueError)
    ensures Started(table, goal, flowId).Ok? ==>
      var s := Started(table, goal, flowId).value;
      var flow := table(flowId.value).value;
      s.stepIndex == 0 && s.content == flow.steps[0] && !s.done && !s.advance &&
      s.goal == Some(if goal.Some? then goal.value else flow.goal) && s.flowId == flowId &&
      s.previousSteps == [Message("assistant", "Starting " + flowId.value + ".", None)] &&
      Reachable(table, s)
  {
  }

  /** The index grows by exactly one when the judge advances and stays
      put otherwise; the transcript, goal and flow are untouched. */
  lemma AdvancedIndex(table: Table, s: State, j: Judgement)
    requires Reachable(table, s)
    ensures Advanced(table, s, j).stepIndex == if j.advance then s.stepIndex + 1 else s.stepIndex
    ensures Advanced(table, s, j).previousSteps == s.previousSteps
    ensures Advanced(table, s, j).flowId == s.flowId && Advanced(table, s, j).goal == s.goal
    ensures Reachable(table, Advanced(table, s, j))
  {
  }

  /** After advancing in a flow with a non-empty id, the content is the
      current step while one is left; otherwise the flow is done and says
      it completed. */
  lemma AdvancedContent(table: Table, s: State, j: Judgement)
    requires Reachable(table, s) && s.flowId.value != ""
    ensures var t := Advanced(table, s, j);
      var steps := table(s.flowId.value).value.steps;
      (t.stepIndex < |steps| ==> t.content == steps[t.stepIndex] && t.done == s.done) &&
      (t.stepIndex >= |steps| ==> t.done && t.content == "Flow " + s.flowId.value + " completed.")
  {
  }

  /** Judging records the verdict and appends exactly the user's reply. */
  lemma JudgedFacts(table: Table, s: State, userInput: string, j: Judgement)
    requires Reachable(table, s)
    ensures var t := Judged(table, s, userInput, j);
      t.advance == j.advance && t.reason == j.reason &&
      t.previousSteps == s.previousSteps + [Message("user", userInput, None)] &&
      t.stepIndex == (if j.advance then s.stepIndex + 1 else s.stepIndex)
  {
  }

  /** Aborting marks the flow done with the aborted message and changes
      nothing else. */
  lemma AbortedFacts(s: State)
    ensures Aborted(s).done && Aborted(s).content == "Flow " + IdText(s.flowId) + " aborted."
    ensures Aborted(s) == s.(done := true, content := Aborted(s).content)
  {
  }

  /** Advancing verdicts walk a started flow one step at a time: after
      `n` of them, while steps are left, the state shows step `n` and is
      not done. */
  lemma {:induction false} AdvancesWalkSteps(table: Table, s: State, j: Judgement, n: nat)
    requires Reachable(table, s) && s.flowId.value != "" && j.advance && !s.done
    requires s.stepIndex + n < |table(s.flowId.value).value.steps|
    ensures var t := Run(table, s, j, n);
      t.stepIndex == s.stepIndex + n && !t.done && t.flowId == s.flowId &&
      (n > 0 ==> t.content == table(s.flowId.value).value.steps[t.stepIndex])
    decreases n
  {
    if n > 0 {
      AdvancedIndex(table, s, j);
      AdvancedContent(table, s, j);
      AdvancesWalkSteps(table, Advanced(table, s, j), j, n - 1);
      if n > 1 {
        assert Run(table, s, j, n) == Run(table, Advanced(table, s, j), j, n - 1);
      }
    }
  }

  /** As many advancing verdicts as a started flow has steps finish it. */
  lemma AdvancesFinish(table: Table, goal: Option<string>, id: string, j: Judgement)
    requires Started(table, goal, Some(id)).Ok? && id != "" && j.advance
    ensures var s := Started(table, goal, Some(id)).value;
      var n := |table(id).value.steps|;
      var t := Run(table, s, j, n);
      t.done && t.stepIndex == n && t.content == "Flow " + id + " completed."
  {
    var s := Started(table, goal, Some(id)).value;
    StartedFacts(table, goal, Some(id));
    var n := |table(id).value.steps|;
    AdvancesWalkSteps(table, s, j, n - 1);
    var u := Run(table, s, j, n - 1);
    RunLast(table, s, j, n - 1);
    AdvancedIndex(table, u, j);
    AdvancedContent(table, u, j);
  }

  /** One more advance after `n` is the run of `n + 1`. */
  lemma {:induction false} RunLast(table: Table, s: State, j: Judgement, n: nat)
    requires Reachable(table, s)
    ensures Run(table, s, j, n + 1) == Advanced(table, Run(table, s, j, n), j)
    decreases n
  {
    AdvancedIndex(table, s, j);
    if n > 0 {
      RunLast(table, Advanced(table, s, j), j, n - 1);
    }
  }

  class MultistepService {
    const userId: string
    /** The module-level `flows` table. */
    const table: Table
    var multistep: Option<State>
    /** The websocket context store the state is published to. */
    const context: ContextStore<State>

    /** `flows` is the table to serve, `FlowOf` in the application. */
    constructor(userId: string, context: ContextStore<State>, flows: Table)
      ensures this.userId == userId && this.context == context && table == flows && multistep == None
    {
      this.userId := userId;
      this.context := context;
      table := flows;
      multistep := None;
    }

    predicate Valid()
      reads this
    {
      multistep.Some? ==> Reachable(table, multistep.value)
    }

    /** The number of steps of a state's flow, 0 for one not in the table. */
    function StepCount(s: State): nat
      reads this
    {
      if s.flowId.Some? && table(s.flowId.value).Some? then |table(s.flowId.value).value.steps| else 0
    }

    /** `start`: publishes the new state under "multistep". */
    method Start(goal: Option<string>, flowId: Option<string>) returns (r: Result<State>)
      requires Valid()
      modifies this, context
      ensures Valid() && r == Started(table, goal, flowId)
      ensures r.Ok? ==> (multistep == Some(r.value) &&
        context.store == Updated(old(context.store), userId, "multistep", r.value))
      ensures r.Err? ==> multistep == old(multistep) && context.store == old(context.store)
    {
      if flowId.None? {
        return Err(NameError);
      }
      var found := GetFlow(table, flowId);
      if found.Err? {
        return Err(found.error);
      }
      var flow := found.value;
      var g := if goal.None? then flow.goal else goal.value;
      if |flow.steps| == 0 {
        return Err(IndexError);
      }
      var opening := "Starting " + flowId.value + ".";
      var s := State(Some(g), flowId, 0, flow.steps[0], false, false, opening,
                     [Message("assistant", opening, None)]);
      multistep := Some(s);
      context.UpdateContext(userId, "multistep", s);
      r := Ok(s);
    }

    /** `advance`; with no flow started the attribute access raises. */
    method Advance(j: Judgement) returns (r: Result<State>)
      requires Valid()
      modifies this, context
      ensures Valid()
      ensures old(multistep).None? ==> (r == Err(AttributeError) && multistep == None &&
        context.store == old(context.store))
      ensures old(multistep).Some? ==>
        var t := Advanced(table, old(multistep).value, j);
        r == Ok(t) && multistep == Some(t) &&
        context.store == Updated(old(context.store), userId, "multistep", t)
    {
      if multistep.None? {
        return Err(AttributeError);
      }
      var s := multistep.value;
      if j.advance {
        s := s.(stepIndex := s.stepIndex + 1);
      }
      multistep := Some(s);
      if s.flowId.value != "" {
        var flow := GetFlow(table, s.flowId).value;
        if s.stepIndex < |flow.steps| {
          s := s.(content := flow.steps[s.stepIndex]);
          multistep := Some(s);
        } else {
          var _ := Finish();
          s := multistep.value;
          UpdatedTwice(old(context.store), userId, "multistep", s, s);
        }
      }
      context.UpdateContext(userId, "multistep", s);
      r := Ok(s);
    }

    /** `judge`: `agent` is the judge's verdict, an error when its run
        fails. */
    method Judge(userInput: string, agent: Result<Judgement>) returns (r: Result<State>)
      requires Valid()
      modifies this, context
      ensures Valid()
      ensures old(multistep).None? ==> r == Err(ValueError)
      ensures old(multistep).Some? && old(multistep).value.stepIndex >= StepCount(old(multistep).value) ==>
        r == Err(IndexError)
      ensures (old(multistep).Some? && old(multistep).value.stepIndex < StepCount(old(multistep).value) &&
               agent.Err?) ==> r == Err(AgentError)
      ensures r.Err? ==> multistep == old(multistep) && context.store == old(context.store)
      ensures (old(multistep).Some? && old(multistep).value.stepIndex < StepCount(old(multistep).value) &&
               agent.Ok?) ==>
        var t := Judged(table, old(multistep).value, userInput, agent.value);
        r == Ok(t) && multistep == Some(t) &&
        context.store == Updated(old(context.store), userId, "multistep", t)
    {
      if multistep.None? {
        return Err(ValueError);
      }
      var flow := GetFlow(table, multistep.value.flowId).value;
      if multistep.value.stepIndex >= |flow.steps| {
        return Err(IndexError);
      }
      if agent.Err? {
        return Err(AgentError);
      }
      var judgement := agent.value;
      var s := multistep.value;
      multistep := Some(s.(advance := judgement.advance, reason := judgement.reason,
                           previousSteps := s.previousSteps + [Message("user", userInput, None)]));
      r := Advance(judgement);
    }

    /** `abort`: marks the flow done and removes it from the context. */
    method Abort() returns (r: Result<State>)
      requires Valid()
      modifies this, context
      ensures Valid()
      ensures old(multistep).None? ==> (r == Err(AttributeError) && multistep == None &&
        context.store == old(context.store))
      ensures old(multistep).Some? ==>
        r == Ok(Aborted(old(multistep).value)) && multistep == Some(Aborted(old(multistep).value)) &&
        context.store == WithoutKey(old(context.store), userId, "multistep")
    {
      if multistep.None? {
        return Err(AttributeError);
      }
      var s := multistep.value.(done := true, content := "Flow " + IdText(multistep.value.flowId) + " aborted.");
      multistep := Some(s);
      context.DeleteContextKey(userId, "multistep");
      r := Ok(s);
    }

    /** `finish`: marks the flow done and publishes it. */
    method Finish() returns (r: Result<State>)
      requires Valid()
      modifies this, context
      ensures Valid()
      ensures old(multistep).None? ==> (r == Err(AttributeError) && multistep == None &&
        context.store == old(context.store))
      ensures old(multistep).Some? ==>
        r == Ok(Finished(old(multistep).value)) && multistep == Some(Finished(old(multistep).value)) &&
        context.store == Updated(old(context.store), userId, "multistep", Finished(old(multistep).value))
    {
      if multistep.None? {
        return Err(AttributeError);
      }
      var s := multistep.value.(done := true, content := "Flow " + IdText(multistep.value.flowId) + " completed.");
      multistep := Some(s);
      context.UpdateContext(userId, "multistep", s);
      r := Ok(s);
    }
  }
}
