/**
 * The command-line entry point (main.py): settings, agent creation from the
 * settings, the exit-word test, the extraction of the answer from the agent's
 * response, and the question loop with its two exception handlers.
 *
 * Reading a line is a sequence of input events; invoking the agent is an
 * oracle from the question and the recursion limit to what `agent.invoke`
 * returns or raises.
 */
module Cli {
  import opened Wrappers
  import opened Text
  import Config
  import AgentFactory
  import NasaSearch
  import McpClient

  const ExitWords := ["quit", "exit", "q"]

  /** `question.lower() in ['quit', 'exit', 'q']`: no stripping is done, so
      an exit command is exactly one or four characters long. */
  function IsExitCommand(question: string): (exit: bool)
    ensures exit ==> |question| == 1 || |question| == 4
  {
    Lower(question) in ExitWords
  }

  /** Case does not matter, but the words must be exact: any input starting
      or ending with white space is a question. */
  lemma ExitCommandShape(question: string)
    ensures question != [] && (IsSpace(question[0]) || IsSpace(question[|question| - 1])) ==> !IsExitCommand(question)
  {
    var l := Lower(question);
    if question != [] && IsExitCommand(question) {
      assert l[0] == LowerChar(question[0]) && l[|l| - 1] == LowerChar(question[|question| - 1]);
      assert l == "quit" || l == "exit" || l == "q";
    }
  }

  /** Upper-case exit words are recognised. */
  lemma UpperCaseExitWords()
    ensures IsExitCommand("QUIT") && IsExitCommand("Exit") && IsExitCommand("Q")
  {
    assert Lower("QUIT") == "quit";
    assert Lower("Exit") == "exit";
    assert Lower("Q") == "q";
  }

  /** A message of the response; `content` is `None` when the message has no
      such attribute. */
  datatype Message = Message(content: Option<string>)

  /** The response dictionary; `messages` is `None` when the key is missing. */
  datatype Response = Response(messages: Option<seq<Message>>)

  /** What is shown for a response. */
  datatype Display = Answer(text: string) | NoAnswer

  /** The answer is the non-empty content of the last message of a non-empty
      message list; in every other case (no response, no list, an empty list,
      no or empty content) the "No answer generated" line is shown. */
  function ExtractAnswer(response: Option<Response>): (d: Display)
    ensures d.Answer? <==> (response.Some? && response.value.messages.Some? && response.value.messages.value != []
                            && Last(response.value.messages.value).content.Some?
                            && Last(response.value.messages.value).content.value != "")
    ensures d.Answer? ==> d.text == Last(response.value.messages.value).content.value
  {
    if response.None? || response.value.messages.None? || response.value.messages.value == [] then NoAnswer
    else
      var final := response.value.messages.value[|response.value.messages.value| - 1];
      if final.content.Some? && final.content.value != "" then Answer(final.content.value) else NoAnswer
  }

  function Last(messages: seq<Message>): Message
    requires messages != []
  {
    messages[|messages| - 1]
  }

  /** Only the last message matters: earlier ones never change what is shown. */
  lemma OnlyLastMessageMatters(earlier: seq<Message>, final: Message)
    ensures ExtractAnswer(Some(Response(Some(earlier + [final])))) == ExtractAnswer(Some(Response(Some([final]))))
  {
    assert Last(earlier + [final]) == final == Last([final]);
  }

  // ---------------------------------------------------------------------------
  // Start-up

  /** Lines 59-70: the settings are loaded (the `.env` file over the process
      environment), and the agent is built with only their `include_mcp` flag
      and model (its temperature is the factory's default). The bridge reads
      `MCP_SERVER_URLS` from the same loaded environment. The recursion limit
      returned is the one every invocation is given. */
  method StartAgent(holder: Config.ConfigHolder, process: map<string, string>, dotenv: map<string, string>,
                    existingPaths: set<string>, searches: NasaSearch.Registry, bridges: McpClient.Registry,
                    remote: McpClient.Remote, runFails: bool)
    returns (agent: AgentFactory.Agent, recursionLimit: int)
    requires searches.Valid()
    modifies holder, searches, bridges, bridges.instance
    ensures holder.instance != null && searches.instance != null
    ensures old(holder.instance) == null ==> holder.instance.BuiltFrom(Config.LoadDotenv(process, dotenv), existingPaths)
    ensures recursionLimit == holder.instance.recursionLimit
    ensures agent.llm.model == holder.instance.defaultModel
    ensures agent.llm.temperature == AgentFactory.DefaultTemperature
    ensures agent.llm.tools == agent.tools && |agent.tools| >= 1
    ensures !holder.instance.HasMcpServers() ==>
              |agent.tools| == 1 && agent.prompt == AgentFactory.DocumentOnlyPrompt
              && bridges.instance == old(bridges.instance)
    ensures holder.instance.HasMcpServers() ==> (bridges.instance != null && agent ==
      AgentFactory.ComposeAgent(holder.instance.defaultModel, AgentFactory.DefaultTemperature,
                                searches.instance.GetTool(),
                                AgentFactory.BridgeTools(bridges.instance,
                                  McpClient.SyncTools(if old(bridges.instance) == null then None
                                                      else old(bridges.instance.client),
                                                      bridges.instance.serverUrls, remote, runFails))))
    ensures holder.instance.HasMcpServers() && old(bridges.instance) == null ==>
              bridges.instance.serverUrls
              == McpClient.GetServerUrls(Config.GetEnv(Config.LoadDotenv(process, dotenv), "MCP_SERVER_URLS", ""))
    ensures holder.instance.HasMcpServers() && old(bridges.instance) != null ==> bridges.instance == old(bridges.instance)
    ensures holder.instance.HasMcpServers() && old(bridges.instance) == null ==> fresh(bridges.instance)
    ensures holder.instance.HasMcpServers() ==> (bridges.instance != null && bridges.instance.client ==
      (if bridges.instance.serverUrls == [] || runFails then (if old(bridges.instance) == null then None else old(bridges.instance.client))
       else McpClient.ClientAfterInit((if old(bridges.instance) == null then None else old(bridges.instance.client)), bridges.instance.serverUrls, remote)))
    ensures old(searches.instance) != null ==> searches.instance == old(searches.instance)
    ensures old(searches.instance) == null ==> (fresh(searches.instance)
      && searches.instance.dbPath == NasaSearch.DefaultDbPath && searches.instance.modelName == NasaSearch.DefaultModel)
  {
    var config := holder.GetConfig(process, dotenv, existingPaths);
    var agentConfig := config.GetAgentConfig();
    agent := AgentFactory.CreateNasaAgent(searches, bridges,
                                          Config.GetEnv(Config.LoadDotenv(process, dotenv), "MCP_SERVER_URLS", ""),
                                          remote, runFails, agentConfig.includeMcp, agentConfig.model);
    recursionLimit := agentConfig.recursionLimit;
  }

  // ---------------------------------------------------------------------------
  // The question loop

  /** What reading a line gives: a line, Ctrl+C, or another exception (such as
      end of input). */
  datatype Event = Line(text: string) | Interrupt | InputFailed(message: string)

  /** What `agent.invoke` does: return a response, raise, or be interrupted. */
  datatype Invocation = Responded(response: Option<Response>) | InvokeFailed(message: string) | InvokeInterrupted

  /** What the loop prints for one event. */
  datatype Output = Farewell | Displayed(display: Display) | ErrorShown(message: string)

  /** What one event prints, and whether the loop stops after it: an exit
      word or an interrupt says goodbye and stops; any other exception is shown
      and the loop goes on. */
  datatype Step = Step(output: Output, stops: bool)

  function StepOf(e: Event, invoke: (string, int) -> Invocation, limit: int): Step {
    match e
    case Interrupt => Step(Farewell, true)
    case InputFailed(msg) => Step(ErrorShown(msg), false)
    case Line(q) =>
      if IsExitCommand(q) then Step(Farewell, true)
      else match invoke(q, limit)
        case InvokeInterrupted => Step(Farewell, true)
        case InvokeFailed(msg) => Step(ErrorShown(msg), false)
        case Responded(r) => Step(Displayed(ExtractAnswer(r)), false)
  }

  /** The loop over the events, up to the first one that stops it. */
  function SessionOutputs(events: seq<Event>, invoke: (string, int) -> Invocation, limit: int): seq<Output> {
    if events == [] then []
    else
      var step := StepOf(events[0], invoke, limit);
      [step.output] + (if step.stops then [] else SessionOutputs(events[1..], invoke, limit))
  }

  /** A goodbye is said exactly when the loop stops. */
  lemma StepFarewell(e: Event, invoke: (string, int) -> Invocation, limit: int)
    ensures StepOf(e, invoke, limit).output == Farewell <==> StepOf(e, invoke, limit).stops
  {
  }

  /** One turn of the loop keeps what is printed in step with the
      specification. */
  lemma SessionAdvance(events: seq<Event>, i: nat, printed: seq<Output>,
                       invoke: (string, int) -> Invocation, limit: int)
    requires i < |events|
    requires printed + SessionOutputs(events[i..], invoke, limit) == SessionOutputs(events, invoke, limit)
    ensures var step := StepOf(events[i], invoke, limit);
      if step.stops then printed + [step.output] == SessionOutputs(events, invoke, limit)
      else (printed + [step.output]) + SessionOutputs(events[i + 1..], invoke, limit) == SessionOutputs(events, invoke, limit)
  {
    assert events[i..][0] == events[i];
    assert events[i..][1..] == events[i + 1..];
  }

  /** `main()`'s loop over the input events, every invocation given the same
      recursion limit. */
  method RunSession(events: seq<Event>, invoke: (string, int) -> Invocation, limit: int) returns (outputs: seq<Output>)
    ensures outputs == SessionOutputs(events, invoke, limit)
  {
    outputs := [];
    var i := 0;
    while i < |events|
      invariant 0 <= i <= |events|
      invariant outputs + SessionOutputs(events[i..], invoke, limit) == SessionOutputs(events, invoke, limit)
    {
      SessionAdvance(events, i, outputs, invoke, limit);
      var step := StepOf(events[i], invoke, limit);
      outputs := outputs + [step.output];
      if step.stops {
        return;
      }
      i := i + 1;
    }
    assert events[i..] == [];
  }

  /** Goodbye is said at most once, and only as the last output. */
  lemma {:induction false} FarewellIsLast(events: seq<Event>, invoke: (string, int) -> Invocation, limit: int)
    ensures forall i :: 0 <= i < |SessionOutputs(events, invoke, limit)| - 1 ==>
              SessionOutputs(events, invoke, limit)[i] != Farewell
  {
    if events != [] {
      var rest := SessionOutputs(events[1..], invoke, limit);
      FarewellIsLast(events[1..], invoke, limit);
      var step := StepOf(events[0], invoke, limit);
      StepFarewell(events[0], invoke, limit);
      var out := SessionOutputs(events, invoke, limit);
      if !step.stops {
        assert out == [step.output] + rest;
        assert out[0] != Farewell;
        forall i | 0 < i < |out| - 1 ensures out[i] != Farewell {
          assert out[i] == rest[i - 1];
        }
      } else {
        assert |out| == 1;
      }
    }
  }

  /** Errors do not end the loop: without an exit word or an interrupt, every
      event gets exactly one output and none is a goodbye. */
  lemma {:induction false} ErrorsDoNotEndSession(events: seq<Event>, invoke: (string, int) -> Invocation, limit: int)
    requires forall i :: 0 <= i < |events| ==> !StepOf(events[i], invoke, limit).stops
    ensures |SessionOutputs(events, invoke, limit)| == |events|
    ensures Farewell !in SessionOutputs(events, invoke, limit)
  {
    if events != [] {
      ErrorsDoNotEndSession(events[1..], invoke, limit);
    }
  }

  /** An exit word ends the loop: nothing after it is read. */
  lemma {:induction false} ExitStopsReading(before: seq<Event>, q: string, after: seq<Event>,
                                            invoke: (string, int) -> Invocation, limit: int)
    requires forall i :: 0 <= i < |before| ==> !StepOf(before[i], invoke, limit).stops
    requires IsExitCommand(q)
    ensures SessionOutputs(before + [Line(q)] + after, invoke, limit) == SessionOutputs(before, invoke, limit) + [Farewell]
  {
    if before == [] {
      assert ([] + [Line(q)] + after)[0] == Line(q);
    } else {
      assert (before + [Line(q)] + after)[1..] == before[1..] + [Line(q)] + after;
      ExitStopsReading(before[1..], q, after, invoke, limit);
    }
  }
}
