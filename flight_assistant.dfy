/**
 * The agent: the class-level tool list that every construction appends to, and the
 * reasoning/acting loop of `invoke`, which asks the agent for a step, runs the named tool on
 * the sanitized and parsed action input, records the observation, and stops at a finish.
 *
 * The language model with its prompt and output parser, `json.loads`, the tool functions and
 * `str` are supplied from outside as functions; the loop's own bookkeeping is what is modelled.
 */
module FlightAssistant {
  import opened Wrappers
  import opened Tools
  import JsonComments

  /** An action as the output parser yields it: tool name, raw action input, model text. */
  datatype AgentAction = AgentAction(tool: string, toolInput: string, log: string)

  /** What one agent call yields: an action to run, or the finish with its return values. */
  datatype AgentStep =
    | Action(action: AgentAction)
    | Finish(returnValues: map<string, string>, log: string)

  /** One entry of `intermediate_steps`: the action and the observation rendered as text. */
  datatype Entry = Entry(action: AgentAction, observation: string)

  /** What the prompt is filled with when the assistant is constructed. */
  datatype Prompt = Prompt(tools: seq<Tool>, toolNames: string, customerId: string,
                           customerName: string, language: string)

  /**
   * Prompt, model and output parser chained together: from the fixed prompt, the question and
   * the scratchpad so far to a parsed step, or the message of what was raised.
   */
  type Pipeline = (Prompt, string, seq<Entry>) -> Result<AgentStep, string>

  /** `self.agent`: the pipeline bound to the prompt of one construction. */
  datatype Agent = Agent(pipeline: Pipeline, prompt: Prompt) {
    function Next(question: string, steps: seq<Entry>): Result<AgentStep, string>
    {
      pipeline(prompt, question, steps)
    }
  }

  /** `json.loads` (None when it raises), calling a tool's function, and `str`. */
  datatype Env<!A, !V> = Env(loads: string -> Option<A>, call: (Tool, A) -> Result<V, string>, str: V -> string)

  /** Why an invocation raised instead of returning. */
  datatype Failure =
    | AgentFailed(message: string)      // the model call or the output parser raised
    | ToolNotFound(message: string)     // find_tool_by_name raised ValueError
    | InvalidActionInput(text: string)  // json.loads raised on the sanitized action input
    | ToolFailed(message: string)       // the tool function raised
    | MissingOutput                     // the finish's return values have no 'output'

  /**
   * How an invocation ends, with `intermediate_steps` as it stood at that moment. OutOfFuel
   * is the model's bound on the number of loop iterations; the source has no such bound.
   */
  datatype Outcome =
    | Finished(output: string, steps: seq<Entry>)
    | Failed(failure: Failure, steps: seq<Entry>)
    | OutOfFuel(steps: seq<Entry>)

  /** Running one action: from the action to the observation text, or why the step raised. */
  type Observer = AgentAction -> Result<string, Failure>

  /** Line 207 and 210: look the tool up, sanitize and parse the input, call it, render the result. */
  function Observe<A, V>(env: Env<A, V>, tools: seq<Tool>, a: AgentAction): Result<string, Failure>
  {
    match FindTool(tools, a.tool)
    case Failure(message) => Failure(ToolNotFound(message))
    case Success(tool) =>
      var text := JsonComments.RemoveJsonComments(a.toolInput);
      match env.loads(text)
      case None => Failure(InvalidActionInput(text))
      case Some(args) =>
        match env.call(tool, args)
        case Failure(message) => Failure(ToolFailed(message))
        case Success(v) => Success(env.str(v))
  }

  /** The observer of an assistant whose tool list is `tools`. */
  function ObserverOf<A, V>(env: Env<A, V>, tools: seq<Tool>): Observer
  {
    a => Observe(env, tools, a)
  }

  /** How the loop ends from scratchpad `steps` with at most `fuel` further agent calls. */
  function Run(agent: Agent, observe: Observer, question: string, steps: seq<Entry>, fuel: nat): Outcome
    decreases fuel
  {
    if fuel == 0 then OutOfFuel(steps)
    else match agent.Next(question, steps)
      case Failure(message) => Failed(AgentFailed(message), steps)
      case Success(Finish(returnValues, _)) =>
        if "output" in returnValues then Finished(returnValues["output"], steps)
        else Failed(MissingOutput, steps)
      case Success(Action(a)) =>
        match observe(a)
        case Failure(f) => Failed(f, steps)
        case Success(observation) =>
          Run(agent, observe, question, steps + [Entry(a, observation)], fuel - 1)
  }

  /** The scratchpad only grows, by at most one entry per agent call. */
  lemma {:induction false} RunExtends(agent: Agent, observe: Observer, question: string,
                                      steps: seq<Entry>, fuel: nat)
    ensures steps <= Run(agent, observe, question, steps, fuel).steps
    ensures |Run(agent, observe, question, steps, fuel).steps| <= |steps| + fuel
    decreases fuel
  {
    if fuel > 0 && agent.Next(question, steps).Success? && agent.Next(question, steps).value.Action? {
      var a := agent.Next(question, steps).value.action;
      if observe(a).Success? {
        var next := steps + [Entry(a, observe(a).value)];
        RunExtends(agent, observe, question, next, fuel - 1);
        assert steps <= next;
      }
    }
  }

  /**
   * `steps` extends `start` by entries each of which the loop records: the k-th agent call got
   * the question and exactly the first k entries, answered with that entry's action, and
   * running that action observed that entry's text.
   */
  ghost predicate IsTraceFrom(agent: Agent, observe: Observer, question: string,
                              start: seq<Entry>, steps: seq<Entry>)
  {
    start <= steps &&
    forall k :: |start| <= k < |steps| ==>
      agent.Next(question, steps[..k]) == Success(Action(steps[k].action)) &&
      observe(steps[k].action) == Success(steps[k].observation)
  }

  /** The agent, called on `steps`, finishes with `output` under the 'output' key. */
  ghost predicate FinishesWith(agent: Agent, question: string, steps: seq<Entry>, output: string)
  {
    var step := agent.Next(question, steps);
    step.Success? && step.value.Finish? &&
    "output" in step.value.returnValues && step.value.returnValues["output"] == output
  }

  /** The iteration that starts from `steps` raises `f`, so nothing is appended for it. */
  ghost predicate FailsWith(agent: Agent, observe: Observer, question: string, steps: seq<Entry>, f: Failure)
  {
    match agent.Next(question, steps)
    case Failure(message) => f == AgentFailed(message)
    case Success(Finish(returnValues, _)) => "output" !in returnValues && f == MissingOutput
    case Success(Action(a)) => observe(a) == Failure(f)
  }

  /** Every entry the loop appends is one completed action, in call order; nothing else is added. */
  lemma {:induction false} RunFollowsAgent(agent: Agent, observe: Observer, question: string,
                                           steps: seq<Entry>, fuel: nat)
    ensures IsTraceFrom(agent, observe, question, steps, Run(agent, observe, question, steps, fuel).steps)
    decreases fuel
  {
    var r := Run(agent, observe, question, steps, fuel);
    if fuel > 0 && agent.Next(question, steps).Success? && agent.Next(question, steps).value.Action? {
      var a := agent.Next(question, steps).value.action;
      if observe(a).Success? {
        var next := steps + [Entry(a, observe(a).value)];
        RunFollowsAgent(agent, observe, question, next, fuel - 1);
        RunExtends(agent, observe, question, next, fuel - 1);
        assert next <= r.steps;
        assert r.steps[..|steps|] == steps;
        assert r.steps[|steps|] == next[|steps|];
      }
    }
  }

  /** The loop returns only on a finish, and returns that finish's 'output'. */
  lemma {:induction false} RunFinished(agent: Agent, observe: Observer, question: string,
                                       steps: seq<Entry>, fuel: nat)
    requires Run(agent, observe, question, steps, fuel).Finished?
    ensures FinishesWith(agent, question, Run(agent, observe, question, steps, fuel).steps,
                         Run(agent, observe, question, steps, fuel).output)
    ensures |Run(agent, observe, question, steps, fuel).steps| < |steps| + fuel
    decreases fuel
  {
    if agent.Next(question, steps).Success? && agent.Next(question, steps).value.Action? {
      var a := agent.Next(question, steps).value.action;
      RunFinished(agent, observe, question, steps + [Entry(a, observe(a).value)], fuel - 1);
    }
  }

  /**
   * A failure propagates from the iteration that raised it: the returned scratchpad is the one
   * that iteration started from, with no entry for the failed step.
   */
  lemma {:induction false} RunFailed(agent: Agent, observe: Observer, question: string,
                                     steps: seq<Entry>, fuel: nat)
    requires Run(agent, observe, question, steps, fuel).Failed?
    ensures FailsWith(agent, observe, question, Run(agent, observe, question, steps, fuel).steps,
                      Run(agent, observe, question, steps, fuel).failure)
    ensures |Run(agent, observe, question, steps, fuel).steps| < |steps| + fuel
    decreases fuel
  {
    if agent.Next(question, steps).Success? && agent.Next(question, steps).value.Action? {
      var a := agent.Next(question, steps).value.action;
      if observe(a).Success? {
        RunFailed(agent, observe, question, steps + [Entry(a, observe(a).value)], fuel - 1);
      }
    }
  }

  /** Running out of fuel means every unit of fuel was spent on one completed action. */
  lemma {:induction false} RunOutOfFuel(agent: Agent, observe: Observer, question: string,
                                        steps: seq<Entry>, fuel: nat)
    requires Run(agent, observe, question, steps, fuel).OutOfFuel?
    ensures |Run(agent, observe, question, steps, fuel).steps| == |steps| + fuel
    decreases fuel
  {
    if fuel > 0 {
      var a := agent.Next(question, steps).value.action;
      RunOutOfFuel(agent, observe, question, steps + [Entry(a, observe(a).value)], fuel - 1);
    }
  }

  /** Replaying a trace: after the entries the agent and tools produce, the loop goes on from there. */
  lemma {:induction false} RunReplay(agent: Agent, observe: Observer, question: string,
                                     start: seq<Entry>, steps: seq<Entry>, fuel: nat)
    requires IsTraceFrom(agent, observe, question, start, steps)
    requires |steps| - |start| <= fuel
    ensures Run(agent, observe, question, start, fuel) ==
            Run(agent, observe, question, steps, fuel - (|steps| - |start|))
    decreases |steps| - |start|
  {
    if |start| < |steps| {
      var e := steps[|start|];
      TraceAdvance(agent, observe, question, start, steps);
      RunStep(agent, observe, question, start, e, fuel);
      RunReplay(agent, observe, question, start + [e], steps, fuel - 1);
      assert fuel - 1 - (|steps| - |start + [e]|) == fuel - (|steps| - |start|);
    } else {
      assert start == steps;
    }
  }

  lemma TraceAdvance(agent: Agent, observe: Observer, question: string, start: seq<Entry>, steps: seq<Entry>)
    requires IsTraceFrom(agent, observe, question, start, steps) && |start| < |steps|
    ensures agent.Next(question, start) == Success(Action(steps[|start|].action))
    ensures observe(steps[|start|].action) == Success(steps[|start|].observation)
    ensures IsTraceFrom(agent, observe, question, start + [steps[|start|]], steps)
  {
    assert steps[..|start|] == start;
    assert start + [steps[|start|]] == steps[..|start| + 1];
  }

  lemma RunStep(agent: Agent, observe: Observer, question: string, steps: seq<Entry>, e: Entry, fuel: nat)
    requires fuel > 0
    requires agent.Next(question, steps) == Success(Action(e.action))
    requires observe(e.action) == Success(e.observation)
    ensures Run(agent, observe, question, steps, fuel) == Run(agent, observe, question, steps + [e], fuel - 1)
  {
    assert Entry(e.action, e.observation) == e;
  }

  /**
   * An invocation returns `output` with scratchpad `steps` exactly when the agent and tools
   * produce `steps` from the empty scratchpad, the next agent call finishes with `output`,
   * and the fuel covers those calls.
   */
  lemma InvokeFinishesIff(agent: Agent, observe: Observer, question: string,
                          fuel: nat, output: string, steps: seq<Entry>)
    ensures Run(agent, observe, question, [], fuel) == Finished(output, steps) <==>
            (IsTraceFrom(agent, observe, question, [], steps) &&
             FinishesWith(agent, question, steps, output) && |steps| < fuel)
  {
    if Run(agent, observe, question, [], fuel) == Finished(output, steps) {
      RunFollowsAgent(agent, observe, question, [], fuel);
      RunFinished(agent, observe, question, [], fuel);
    }
    if IsTraceFrom(agent, observe, question, [], steps) &&
       FinishesWith(agent, question, steps, output) && |steps| < fuel {
      RunReplay(agent, observe, question, [], steps, fuel);
    }
  }

  /**
   * An action naming a tool that is not in the list ends the invocation with the lookup's
   * ValueError, before the input is parsed and with the scratchpad as it was.
   */
  lemma UnknownToolFails<A, V>(agent: Agent, env: Env<A, V>, tools: seq<Tool>, question: string,
                               steps: seq<Entry>, fuel: nat, a: AgentAction)
    requires fuel > 0 && agent.Next(question, steps) == Success(Action(a))
    requires forall i :: 0 <= i < |tools| ==> tools[i].name != a.tool
    ensures Run(agent, ObserverOf(env, tools), question, steps, fuel) ==
            Failed(ToolNotFound(NotFoundMessage(a.tool)), steps)
  {
  }

  /**
   * An action whose tool is found but whose sanitized input `json.loads` rejects ends the
   * invocation with that parse error, before the tool is called and with the scratchpad as it was.
   */
  lemma InvalidInputFails<A, V>(agent: Agent, env: Env<A, V>, tools: seq<Tool>, question: string,
                                steps: seq<Entry>, fuel: nat, a: AgentAction, i: int)
    requires fuel > 0 && agent.Next(question, steps) == Success(Action(a))
    requires IsFirstNamed(tools, a.tool, i)
    requires env.loads(JsonComments.RemoveJsonComments(a.toolInput)).None?
    ensures Run(agent, ObserverOf(env, tools), question, steps, fuel) ==
            Failed(InvalidActionInput(JsonComments.RemoveJsonComments(a.toolInput)), steps)
  {
    FirstNamedUnique(tools, a.tool, i);
  }

  /**
   * When the first tool with the action's name raises on the parsed input, the invocation ends
   * with that error and with the scratchpad as it was.
   */
  lemma ToolCallFails<A, V>(agent: Agent, env: Env<A, V>, tools: seq<Tool>, question: string,
                            steps: seq<Entry>, fuel: nat, a: AgentAction, i: int, args: A, message: string)
    requires fuel > 0 && agent.Next(question, steps) == Success(Action(a))
    requires IsFirstNamed(tools, a.tool, i)
    requires env.loads(JsonComments.RemoveJsonComments(a.toolInput)) == Some(args)
    requires env.call(tools[i], args) == Failure(message)
    ensures Run(agent, ObserverOf(env, tools), question, steps, fuel) == Failed(ToolFailed(message), steps)
  {
    FirstNamedUnique(tools, a.tool, i);
  }

  /**
   * When the first tool with the action's name returns v on the parsed input, the loop appends
   * the action with `str(v)` and goes on with one agent call fewer.
   */
  lemma ActionObserved<A, V>(agent: Agent, env: Env<A, V>, tools: seq<Tool>, question: string,
                             steps: seq<Entry>, fuel: nat, a: AgentAction, i: int, args: A, v: V)
    requires fuel > 0 && agent.Next(question, steps) == Success(Action(a))
    requires IsFirstNamed(tools, a.tool, i)
    requires env.loads(JsonComments.RemoveJsonComments(a.toolInput)) == Some(args)
    requires env.call(tools[i], args) == Success(v)
    ensures Run(agent, ObserverOf(env, tools), question, steps, fuel) ==
            Run(agent, ObserverOf(env, tools), question, steps + [Entry(a, env.str(v))], fuel - 1)
  {
    FirstNamedUnique(tools, a.tool, i);
  }

  /** Given enough fuel to end, more fuel changes nothing: fuel only cuts off endless runs. */
  lemma {:induction false} RunFuelMonotone(agent: Agent, observe: Observer, question: string,
                                           steps: seq<Entry>, fuel: nat, extra: nat)
    requires !Run(agent, observe, question, steps, fuel).OutOfFuel?
    ensures Run(agent, observe, question, steps, fuel + extra) == Run(agent, observe, question, steps, fuel)
    decreases fuel
  {
    if agent.Next(question, steps).Success? && agent.Next(question, steps).value.Action? {
      var a := agent.Next(question, steps).value.action;
      if observe(a).Success? {
        RunFuelMonotone(agent, observe, question, steps + [Entry(a, observe(a).value)], fuel - 1, extra);
      }
    }
  }

  /**
   * The body of the loop once the agent chose an action: find the tool, sanitize and parse
   * the action input, call the tool and render its result.
   */
  method Act<A, V>(env: Env<A, V>, tools: seq<Tool>, action: AgentAction) returns (r: Result<string, Failure>)
    ensures r == Observe(env, tools, action)
  {
    var found := FindToolByName(tools, action.tool);
    if found.Failure? {
      return Failure(ToolNotFound(found.error));
    }
    var text := JsonComments.RemoveJsonComments(action.toolInput);
    var args := env.loads(text);
    if args.None? {
      return Failure(InvalidActionInput(text));
    }
    var result := env.call(found.value, args.value);
    if result.Failure? {
      return Failure(ToolFailed(result.error));
    }
    return Success(env.str(result.value));
  }

  // ---------------------------------------------------------------------------------------
  // The classes

  /** The class attribute `tools`: one list shared by every assistant in the process. */
  class ToolRegistry {
    var tools: seq<Tool>

    /** The list only ever grows, so the three decorated tools stay at its front. */
    predicate Valid()
      reads this
    {
      DefaultTools() <= tools
    }

    constructor ()
      ensures Valid()
      ensures tools == DefaultTools()
      ensures Names(tools) == ["get_customer_feature", "get_scheduled_flights", "get_flight_detail"]
    {
      tools := DefaultTools();
    }
  }

  class TheFlightAssistant {
    const registry: ToolRegistry
    const customerId: string
    const toolNames: string
    const agent: Agent

    /**
     * Appends this construction's `search_qa` tool to the shared list, keeping every earlier
     * entry, and fixes the prompt with the tools and their names as they are now, the customer
     * id, and the customer's `name` and `language` features; `nameRows` and `languageRows` are
     * the rows the feature store answers for those two lookups.
     */
    constructor (registry: ToolRegistry, customerId: string, retriever: RetrieverId, pipeline: Pipeline,
                 nameRows: seq<map<string, string>>, languageRows: seq<map<string, string>>)
      requires registry.Valid()
      requires CustomerFeatureValue(nameRows).Success? && CustomerFeatureValue(languageRows).Success?
      modifies registry
      ensures registry.Valid()
      ensures registry.tools == old(registry.tools) + [SearchQa(retriever)]
      ensures this.registry == registry && this.customerId == customerId
      ensures toolNames == ToolNames(registry.tools)
      ensures ToolNames(DefaultTools()) <= toolNames
      ensures agent == Agent(pipeline, Prompt(registry.tools, toolNames, customerId,
                                              CustomerFeatureValue(nameRows).value,
                                              CustomerFeatureValue(languageRows).value))
    {
      registry.tools := registry.tools + [SearchQa(retriever)];
      this.registry := registry;
      this.customerId := customerId;
      var names := ToolNames(registry.tools);
      this.toolNames := names;
      assert registry.tools == DefaultTools() + registry.tools[|DefaultTools()|..];
      ToolNamesPrefix(DefaultTools(), registry.tools[|DefaultTools()|..]);
      this.agent := Agent(pipeline, Prompt(registry.tools, names, customerId,
                                           CustomerFeatureValue(nameRows).value,
                                           CustomerFeatureValue(languageRows).value));
    }

    /**
     * `invoke`: the loop, cut off after `fuel` agent calls. Its result is `Run` from the empty
     * scratchpad over the shared tool list as it stands at the call.
     */
    method Invoke<A, V>(env: Env<A, V>, question: string, fuel: nat) returns (r: Outcome)
      ensures r == Run(agent, ObserverOf(env, registry.tools), question, [], fuel)
    {
      var steps: seq<Entry> := [];
      var left := fuel;
      ghost var observe := ObserverOf(env, registry.tools);
      while left > 0
        invariant Run(agent, observe, question, [], fuel) == Run(agent, observe, question, steps, left)
      {
        var step := agent.Next(question, steps);
        if step.Failure? {
          return Failed(AgentFailed(step.error), steps);
        }
        if step.value.Finish? {
          if "output" !in step.value.returnValues {
            return Failed(MissingOutput, steps);
          }
          return Finished(step.value.returnValues["output"], steps);
        }
        var action := step.value.action;
        var observation := Act(env, registry.tools, action);
        if observation.Failure? {
          return Failed(observation.error, steps);
        }
        var entry := Entry(action, observation.value);
        RunStep(agent, observe, question, steps, entry, left);
        steps := steps + [entry];
        left := left - 1;
      }
      return OutOfFuel(steps);
    }
  }

  /** Each construction adds `, search_qa` to the names listed in the prompt. */
  lemma ToolNamesGrow(tools: seq<Tool>, retriever: RetrieverId)
    requires tools != []
    ensures ToolNames(tools + [SearchQa(retriever)]) == ToolNames(tools) + ", search_qa"
  {
    assert Names(tools + [SearchQa(retriever)]) == Names(tools) + ["search_qa"];
    JoinSnoc(Names(tools), "search_qa");
  }

  lemma DefaultToolNames()
    ensures ToolNames(DefaultTools()) ==
            "get_customer_feature" + ", " + "get_scheduled_flights" + ", " + "get_flight_detail"
  {
    var names := Names(DefaultTools());
    assert names == ["get_customer_feature", "get_scheduled_flights", "get_flight_detail"];
    assert names[1..] == ["get_scheduled_flights", "get_flight_detail"];
    assert names[1..][1..] == ["get_flight_detail"];
  }

  lemma TwoConstructionsNames(first: RetrieverId, second: RetrieverId)
    ensures ToolNames(DefaultTools() + [SearchQa(first)] + [SearchQa(second)]) ==
            ToolNames(DefaultTools()) + ", search_qa" + ", search_qa"
  {
    ToolNamesGrow(DefaultTools(), first);
    ToolNamesGrow(DefaultTools() + [SearchQa(first)], second);
  }

  /** The customer id the source hard-codes. */
  const CustomerId: string := "f08a6894-1863-491d-8116-3945fb915597"

  /**
   * Two assistants in one process: the second lists `search_qa` twice in its prompt, and a
   * lookup of `search_qa` through it finds the first assistant's retriever tool.
   */
  method TwoAssistantsShareTools(first: RetrieverId, second: RetrieverId, pipeline: Pipeline)
    returns (names: string, found: Result<Tool, string>)
    ensures names == "get_customer_feature" + ", " + "get_scheduled_flights" + ", " + "get_flight_detail" +
                     ", search_qa" + ", search_qa"
    ensures found == Success(SearchQa(first))
  {
    var registry := new ToolRegistry();
    var a := new TheFlightAssistant(registry, CustomerId, first, pipeline, [], []);
    var b := new TheFlightAssistant(registry, CustomerId, second, pipeline, [], []);
    assert registry.tools == DefaultTools() + [SearchQa(first)] + [SearchQa(second)];
    TwoConstructionsNames(first, second);
    DefaultToolNames();
    names := b.toolNames;
    found := FindToolByName(b.registry.tools, "search_qa");
    SearchQaResolvesToEarliest(first, [SearchQa(second)]);
  }
}
