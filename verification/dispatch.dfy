/** The `/ask-agent` request handler: route the instruction, ask the chosen
    agent, then walk its tool calls in order. Lighting calls run at once and
    their messages are collected; the first weather, calendar/e-mail or news
    call ends the request with an answer synthesised by the language model;
    unknown tool names are skipped. Every language-model call is an input:
    the router's reply, each agent's reply, and `llm`, which maps the prompt
    of a synthesis call (what it carries, not its wording) to the answer. */
module Dispatch {
  import opened Results
  import opened Text
  import opened Calls
  import opened Router
  import Lights
  import Weather
  import News

  const WeatherToolName: string := "get_weather_forecast"
  const LightsToolName: string := "control_lights"
  const CalendarToolName: string := "get_daily_calendar"
  const EmailsToolName: string := "summarize_recent_emails"
  const NewsToolName: string := "compile_news_reports"

  const GeneralDetail: string := "General processing"
  const WeatherDetail: string := "Weather service queried"
  const NewsDetail: string := "Comparative news review completed"
  const TasksCompleted: string := "Tasks completed successfully."
  const HandledBy: string := "Handled by "
  const SourcePrefix: string := "Source: "

  /** The error a lighting call raises when its extracted arguments do not
      give `location` and `action` as strings. */
  const InvalidLightArgs: string := "control_lights: location and action must be strings"

  /** The tools whose invocation the handler records. */
  datatype Tool = WeatherTool | LightsTool | CalendarTool | EmailsTool | NewsTool

  /** One tool run that returned, with the argument map the tool received. A
      tool call that raised is not recorded. */
  datatype Invocation = Invocation(tool: Tool, args: Args)

  /** A synthesis call to the language model, by what its prompt carries. */
  datatype Prompt =
    | Direct(instruction: string)
    | WeatherPrompt(weatherData: Weather.WeatherReport, question: string)
    | PersonalPrompt(personalData: string)
    | NewsPrompt(rawNews: string)

  /** Everything outside the handler: the language model, the weather
      services and environment, what the calendar and mail tools return, and
      what each news feed parses to. */
  datatype Services = Services(
    llm: Prompt -> string,
    weather: Weather.WeatherEnv,
    calendar: string,
    emails: string,
    feeds: string -> News.FeedOutcome)

  /** The JSON body returned to the caller. */
  datatype Response = Response(response: string, details: seq<string>)

  /** How the walk over the tool calls ended: the loop ran to its end with
      these collected messages, a call returned a response, or a call
      raised. */
  datatype Exit = Completed(details: seq<string>) | Returned(response: Response) | Raised(error: string)

  datatype Walk = Walk(exit: Exit, trace: seq<Invocation>)

  /** The whole request: the response or the error that escaped, the agent
      that was asked (none on the general path), and the tool runs that
      returned, in order. */
  datatype Outcome = Outcome(result: Result<Response, string>, agent: Option<Agent>, trace: seq<Invocation>)

  /** How the handler classifies a tool name. */
  datatype Kind = WeatherCall | LightsCall | PersonalCall | NewsCall | UnknownCall

  function KindOf(name: string): Kind
  {
    if name == WeatherToolName then WeatherCall
    else if name == LightsToolName then LightsCall
    else if name == CalendarToolName || name == EmailsToolName then PersonalCall
    else if name == NewsToolName then NewsCall
    else UnknownCall
  }

  /** Each of the five tool names gets its own kind, whatever the order of
      the checks, and every other name is unknown. */
  lemma KindOfNames(name: string)
    ensures KindOf(name) == WeatherCall <==> name == WeatherToolName
    ensures KindOf(name) == LightsCall <==> name == LightsToolName
    ensures KindOf(name) == PersonalCall <==> name == CalendarToolName || name == EmailsToolName
    ensures KindOf(name) == NewsCall <==> name == NewsToolName
    ensures KindOf(name) == UnknownCall <==> name !in {WeatherToolName, LightsToolName, CalendarToolName, EmailsToolName, NewsToolName}
  {
  }

  /** A call of this kind ends the request. */
  predicate EndsRequest(k: Kind)
  {
    k == WeatherCall || k == PersonalCall || k == NewsCall
  }

  /** `location` and `action` as the lighting tool's argument schema reads
      them: both present and strings, or none when either is missing or is
      not a string. */
  function LightArgs(args: Args): Option<(string, string)>
  {
    if "location" in args && args["location"].Str? && "action" in args && args["action"].Str?
    then Some((args["location"].s, args["action"].s))
    else None
  }

  /** What a call that ends the request does: it always returns a response,
      after running exactly one tool, and that tool is never the lighting
      tool. */
  function Finish(c: ToolCall, instruction: string, svc: Services): (w: Walk)
    requires EndsRequest(KindOf(c.name))
    ensures w.exit.Returned? && |w.trace| == 1
    ensures w.trace[0].tool != LightsTool
  {
    match KindOf(c.name)
    case WeatherCall =>
      var data := Weather.GetWeatherForecast(None, svc.weather);
      Walk(Returned(Response(svc.llm(WeatherPrompt(data, instruction)), [WeatherDetail])),
           [Invocation(WeatherTool, map[])])
    case PersonalCall =>
      var tool := if Contains(c.name, "calendar") then CalendarTool else EmailsTool;
      var data := if tool == CalendarTool then svc.calendar else svc.emails;
      Walk(Returned(Response(svc.llm(PersonalPrompt(data)), [SourcePrefix + c.name])),
           [Invocation(tool, map[])])
    case NewsCall =>
      var raw := News.CompileNewsReports(ArgOrNull(c.args, "sources"), svc.feeds);
      Walk(Returned(Response(svc.llm(NewsPrompt(raw)), [NewsDetail])),
           [Invocation(NewsTool, c.args)])
  }

  /** What a lighting call does with its argument map, with the corrected
      lighting tool: the tool's message, or the validation error when the
      arguments do not give `location` and `action` as strings. The message
      repeats both arguments as given. */
  function RunLights(args: Args): (m: Result<string, string>)
    ensures m.Success? <==> LightArgs(args).Some?
    ensures m.Failure? ==> m.error == InvalidLightArgs
    ensures m.Success? ==> m.value == args["location"].s + " light set to " + args["action"].s + "."
  {
    match LightArgs(args)
    case None => Failure(InvalidLightArgs)
    case Some(la) => Success(Lights.ControlLights(la.0, la.1).message)
  }

  /** The same step with the lighting tool as the file has it: arguments that
      pass validation reach a tool body that raises on the unbound `bridge`,
      so no lighting call ever succeeds. */
  function RunLightsAsWritten(args: Args): (m: Result<string, string>)
    ensures m.Failure?
    ensures m.error == if LightArgs(args).Some? then Lights.BridgeNameError else InvalidLightArgs
  {
    match LightArgs(args)
    case None => Failure(InvalidLightArgs)
    case Some(la) =>
      match Lights.ControlLightsAsWritten(la.0, la.1)
      case Failure(e) => Failure(e)
      case Success(run) => Success(run.message)
  }

  /** `Finish` as a value for the loop, which calls it only on calls that end
      the request. */
  function FinishOf(instruction: string, svc: Services): ToolCall -> Walk
  {
    (c: ToolCall) => if EndsRequest(KindOf(c.name)) then Finish(c, instruction, svc) else Walk(Completed([]), [])
  }

  /** The loop over `agent_response.tool_calls`, given what a lighting call
      returns (`light`) and what a call that ends the request does
      (`finish`). */
  function Loop(calls: seq<ToolCall>, light: Args -> Result<string, string>, finish: ToolCall -> Walk): Walk
    decreases |calls|
  {
    if |calls| == 0 then Walk(Completed([]), [])
    else
      var c := calls[0];
      match KindOf(c.name)
      case LightsCall =>
        (match light(c.args)
         case Failure(e) => Walk(Raised(e), [])
         case Success(message) =>
           var rest := Loop(calls[1..], light, finish);
           Walk(if rest.exit.Completed? then Completed([message] + rest.exit.details) else rest.exit,
                [Invocation(LightsTool, c.args)] + rest.trace))
      case UnknownCall => Loop(calls[1..], light, finish)
      case _ => finish(c)
  }

  /** The loop with the corrected lighting tool and the program's other tools:
      the only error that escapes is the validation error, and the loop runs
      to its end only when no call ends the request and every lighting call
      has usable arguments. */
  function Dispatch(calls: seq<ToolCall>, instruction: string, svc: Services): (w: Walk)
    ensures w.exit.Raised? ==> w.exit.error == InvalidLightArgs
    ensures w.exit.Completed? ==> NoneEnds(calls)
    ensures w.exit.Completed? ==> LightsValid(calls)
  {
    LoopRaises(calls, RunLights, FinishOf(instruction, svc), InvalidLightArgs);
    LoopCompletes(calls, RunLights, FinishOf(instruction, svc));
    LightsValidUsable(calls);
    Loop(calls, RunLights, FinishOf(instruction, svc))
  }

  /** `ask_agent(instruction)` with the corrected lighting tool. */
  function AskAgent(instruction: string, routerReply: string, agents: Agent -> AgentReply, svc: Services): (o: Outcome)
    ensures o.agent == Route(routerReply)
    ensures o.agent.None? ==> o.trace == []
  {
    AskAgentWith(instruction, routerReply, agents, svc, RunLights)
  }

  /** `ask_agent(instruction)` with the lighting tool as the file has it: the
      request can never switch a lamp. */
  function AskAgentAsWritten(instruction: string, routerReply: string, agents: Agent -> AgentReply, svc: Services): (o: Outcome)
    ensures o.agent == Route(routerReply)
    ensures NoLampSwitched(o.trace)
  {
    var reply := agents(if Route(routerReply).Some? then Route(routerReply).value else WeatherAgent);
    FinishOfSwitchesNoLamp(instruction, svc);
    NoLampWhenLightsFail(reply.toolCalls, RunLightsAsWritten, FinishOf(instruction, svc));
    AskAgentWith(instruction, routerReply, agents, svc, RunLightsAsWritten)
  }

  /** `ask_agent(instruction)`, given what a lighting call does. `agents`
      gives what each agent would reply to the instruction; only the routed
      agent's reply is used. */
  function AskAgentWith(instruction: string, routerReply: string, agents: Agent -> AgentReply, svc: Services,
                        light: Args -> Result<string, string>): (o: Outcome)
    ensures o.agent == Route(routerReply)
    ensures o.agent.None? ==> o.trace == []
  {
    match Route(routerReply)
    case None =>
      Outcome(Success(Response(svc.llm(Direct(instruction)), [GeneralDetail])), None, [])
    case Some(a) =>
      var reply := agents(a);
      if |reply.toolCalls| == 0 then
        Outcome(Success(Response(reply.content, [HandledBy + AgentName(a)])), Some(a), [])
      else
        var walk := Loop(reply.toolCalls, light, FinishOf(instruction, svc));
        var result := match walk.exit
          case Completed(details) => Success(Response(TasksCompleted, details))
          case Returned(r) => Success(r)
          case Raised(e) => Failure(e);
        Outcome(result, Some(a), walk.trace)
  }

  /* ---------- Reference definitions ---------- */

  /** No call among `calls` ends the request. */
  predicate NoneEnds(calls: seq<ToolCall>)
  {
    forall c :: c in calls ==> !EndsRequest(KindOf(c.name))
  }

  /** Every lighting call among `calls` gets a message from `light`. */
  predicate LightsUsable(calls: seq<ToolCall>, light: Args -> Result<string, string>)
  {
    forall c :: c in calls ==> KindOf(c.name) == LightsCall ==> light(c.args).Success?
  }

  /** No call among `calls` is a lighting call. */
  predicate NoLightCalls(calls: seq<ToolCall>)
  {
    forall c :: c in calls ==> KindOf(c.name) != LightsCall
  }

  /** No run of the lighting tool among `trace`. */
  predicate NoLampSwitched(trace: seq<Invocation>)
  {
    forall j :: 0 <= j < |trace| ==> trace[j].tool != LightsTool
  }

  /** Every lighting call among `calls` has usable arguments. */
  predicate LightsValid(calls: seq<ToolCall>)
  {
    forall c :: c in calls ==> KindOf(c.name) == LightsCall ==> LightArgs(c.args).Some?
  }

  /** One run of the lighting tool for each lighting call among `calls`, in
      order, with the call's arguments. */
  function LightRuns(calls: seq<ToolCall>): seq<Invocation>
  {
    if |calls| == 0 then []
    else
      (if KindOf(calls[0].name) == LightsCall then [Invocation(LightsTool, calls[0].args)] else [])
      + LightRuns(calls[1..])
  }

  /** The calls whose name the handler knows, in order. */
  function KnownCalls(calls: seq<ToolCall>): seq<ToolCall>
  {
    if |calls| == 0 then []
    else (if KindOf(calls[0].name) != UnknownCall then [calls[0]] else []) + KnownCalls(calls[1..])
  }

  /** The messages `light` gives for the lighting calls among `calls`, in
      order. */
  function Messages(calls: seq<ToolCall>, light: Args -> Result<string, string>): seq<string>
  {
    if |calls| == 0 then []
    else
      (if KindOf(calls[0].name) == LightsCall && light(calls[0].args).Success? then [light(calls[0].args).value] else [])
      + Messages(calls[1..], light)
  }

  /* ---------- Properties of the loop ---------- */

  lemma LightsValidUsable(calls: seq<ToolCall>)
    ensures LightsValid(calls) <==> LightsUsable(calls, RunLights)
  {
  }

  /** The calls before the first call that ends the request only add
      lighting runs in front of the walk over the rest, and their messages in
      front of its details when it runs to its end. */
  lemma {:induction false} PrefixTrace(pre: seq<ToolCall>, rest: seq<ToolCall>, light: Args -> Result<string, string>, finish: ToolCall -> Walk)
    requires NoneEnds(pre) && LightsUsable(pre, light)
    ensures Loop(pre + rest, light, finish).trace == LightRuns(pre) + Loop(rest, light, finish).trace
    decreases |pre|
  {
    if |pre| > 0 {
      assert pre[0] in pre;
      assert (pre + rest)[0] == pre[0];
      assert (pre + rest)[1..] == pre[1..] + rest;
      PrefixTrace(pre[1..], rest, light, finish);
      if KindOf(pre[0].name) != LightsCall {
        assert LightRuns(pre) == [] + LightRuns(pre[1..]);
      }
    } else {
      assert pre + rest == rest;
    }
  }

  lemma {:induction false} PrefixExit(pre: seq<ToolCall>, rest: seq<ToolCall>, light: Args -> Result<string, string>, finish: ToolCall -> Walk)
    requires NoneEnds(pre) && LightsUsable(pre, light)
    ensures var tail := Loop(rest, light, finish).exit;
            Loop(pre + rest, light, finish).exit ==
              if tail.Completed? then Completed(Messages(pre, light) + tail.details) else tail
    decreases |pre|
  {
    if |pre| > 0 {
      assert pre[0] in pre;
      assert (pre + rest)[0] == pre[0];
      assert (pre + rest)[1..] == pre[1..] + rest;
      PrefixExit(pre[1..], rest, light, finish);
      if KindOf(pre[0].name) == LightsCall {
        assert Messages(pre, light) == [light(pre[0].args).value] + Messages(pre[1..], light);
      } else {
        assert Messages(pre, light) == [] + Messages(pre[1..], light);
      }
    } else {
      assert pre + rest == rest;
    }
  }

  /** The first call that ends the request is the last one looked at:
      the walk over the whole list is the walk over the list cut just after
      it, so no later call runs. */
  lemma {:induction false} StopsAtFirstEnding(pre: seq<ToolCall>, c: ToolCall, post: seq<ToolCall>, light: Args -> Result<string, string>, finish: ToolCall -> Walk)
    requires NoneEnds(pre) && EndsRequest(KindOf(c.name))
    ensures Loop(pre + [c] + post, light, finish) == Loop(pre + [c], light, finish)
    decreases |pre|
  {
    var calls := pre + [c] + post;
    if |pre| == 0 {
      assert calls[0] == c && (pre + [c])[0] == c;
    } else {
      assert pre[0] in pre;
      assert calls[0] == pre[0] && (pre + [c])[0] == pre[0];
      assert calls[1..] == pre[1..] + [c] + post;
      assert (pre + [c])[1..] == pre[1..] + [c];
      StopsAtFirstEnding(pre[1..], c, post, light, finish);
    }
  }

  /** When the walk reaches a call that ends the request, the outcome is
      that call's own, so the messages of the lighting calls before it are
      dropped; those lighting calls did run, in order, before the ending
      call's tool. */
  lemma EndingCallAnswers(pre: seq<ToolCall>, c: ToolCall, post: seq<ToolCall>, light: Args -> Result<string, string>, finish: ToolCall -> Walk)
    requires NoneEnds(pre) && LightsUsable(pre, light)
    requires EndsRequest(KindOf(c.name)) && !finish(c).exit.Completed?
    ensures Loop(pre + [c] + post, light, finish).exit == finish(c).exit
    ensures Loop(pre + [c] + post, light, finish).trace == LightRuns(pre) + finish(c).trace
  {
    assert pre + [c] + post == pre + ([c] + post);
    assert ([c] + post)[0] == c;
    PrefixTrace(pre, [c] + post, light, finish);
    PrefixExit(pre, [c] + post, light, finish);
  }

  /** The loop runs to its end when no call ends the request and every
      lighting call gets a message: every lighting call ran, in order, with
      exactly the arguments the agent extracted, and the collected details
      are their messages, in the same order. */
  lemma {:induction false} LightsOnlyCompletes(calls: seq<ToolCall>, light: Args -> Result<string, string>, finish: ToolCall -> Walk)
    requires NoneEnds(calls) && LightsUsable(calls, light)
    ensures Loop(calls, light, finish).exit == Completed(Messages(calls, light))
    ensures Loop(calls, light, finish).trace == LightRuns(calls)
  {
    assert calls + [] == calls;
    PrefixTrace(calls, [], light, finish);
    PrefixExit(calls, [], light, finish);
  }

  /** A lighting call that gets no message raises its error; the lighting
      calls before it have already run, and nothing after it runs. */
  lemma BadLightArgsRaise(pre: seq<ToolCall>, c: ToolCall, post: seq<ToolCall>, light: Args -> Result<string, string>, finish: ToolCall -> Walk)
    requires NoneEnds(pre) && LightsUsable(pre, light)
    requires KindOf(c.name) == LightsCall && light(c.args).Failure?
    ensures Loop(pre + [c] + post, light, finish).exit == Raised(light(c.args).error)
    ensures Loop(pre + [c] + post, light, finish).trace == LightRuns(pre)
  {
    assert pre + [c] + post == pre + ([c] + post);
    assert ([c] + post)[0] == c;
    PrefixTrace(pre, [c] + post, light, finish);
    PrefixExit(pre, [c] + post, light, finish);
    assert LightRuns(pre) + [] == LightRuns(pre);
  }

  /** Unknown tool names are skipped without a trace: the walk is the same
      with them removed. */
  lemma {:induction false} UnknownCallsSkipped(calls: seq<ToolCall>, light: Args -> Result<string, string>, finish: ToolCall -> Walk)
    ensures Loop(calls, light, finish) == Loop(KnownCalls(calls), light, finish)
    decreases |calls|
  {
    if |calls| > 0 {
      UnknownCallsSkipped(calls[1..], light, finish);
      var k := KnownCalls(calls);
      if KindOf(calls[0].name) != UnknownCall {
        assert k == [calls[0]] + KnownCalls(calls[1..]);
        assert k[0] == calls[0] && k[1..] == KnownCalls(calls[1..]);
      } else {
        assert k == KnownCalls(calls[1..]) by {
          assert k == [] + KnownCalls(calls[1..]);
        }
        assert Loop(calls, light, finish) == Loop(calls[1..], light, finish);
      }
    }
  }

  /** Only a call that ends the request can make the loop return a
      response: without one, the loop either runs to its end or raises. */
  lemma {:induction false} OnlyEndingCallsReturn(calls: seq<ToolCall>, light: Args -> Result<string, string>, finish: ToolCall -> Walk)
    requires NoneEnds(calls)
    ensures !Loop(calls, light, finish).exit.Returned?
    decreases |calls|
  {
    if |calls| > 0 {
      assert calls[0] in calls;
      OnlyEndingCallsReturn(calls[1..], light, finish);
    }
  }

  /** When every lighting failure carries the error `e` and the ending step
      never raises, the only error the loop can end with is `e`. */
  lemma {:induction false} LoopRaises(calls: seq<ToolCall>, light: Args -> Result<string, string>, finish: ToolCall -> Walk, e: string)
    requires forall a :: light(a).Failure? ==> light(a).error == e
    requires forall c :: !finish(c).exit.Raised?
    ensures Loop(calls, light, finish).exit.Raised? ==> Loop(calls, light, finish).exit.error == e
    decreases |calls|
  {
    if |calls| > 0 {
      LoopRaises(calls[1..], light, finish, e);
    }
  }

  /** When the ending step never lets the loop go on, a walk that runs to its
      end met no call that ends the request, and every lighting call in it
      got a message. */
  lemma {:induction false} LoopCompletes(calls: seq<ToolCall>, light: Args -> Result<string, string>, finish: ToolCall -> Walk)
    requires forall c: ToolCall :: EndsRequest(KindOf(c.name)) ==> !finish(c).exit.Completed?
    ensures Loop(calls, light, finish).exit.Completed? ==> NoneEnds(calls)
    ensures Loop(calls, light, finish).exit.Completed? ==> LightsUsable(calls, light)
    decreases |calls|
  {
    if |calls| > 0 {
      LoopCompletes(calls[1..], light, finish);
      assert forall c :: c in calls ==> c == calls[0] || c in calls[1..];
    }
  }

  /** When no lighting call succeeds and the ending step switches no lamp,
      the walk switches no lamp. */
  lemma {:induction false} NoLampWhenLightsFail(calls: seq<ToolCall>, light: Args -> Result<string, string>, finish: ToolCall -> Walk)
    requires forall a :: light(a).Failure?
    requires forall c :: NoLampSwitched(finish(c).trace)
    ensures NoLampSwitched(Loop(calls, light, finish).trace)
    decreases |calls|
  {
    if |calls| > 0 {
      NoLampWhenLightsFail(calls[1..], light, finish);
    }
  }

  /** The program's ending step runs one tool that is not the lighting tool. */
  lemma FinishOfSwitchesNoLamp(instruction: string, svc: Services)
    ensures forall c :: NoLampSwitched(FinishOf(instruction, svc)(c).trace)
  {
    forall c: ToolCall
      ensures NoLampSwitched(FinishOf(instruction, svc)(c).trace)
    {
      if EndsRequest(KindOf(c.name)) {
        var w := Finish(c, instruction, svc);
        assert FinishOf(instruction, svc)(c) == w;
      }
    }
  }

  /* ---------- Properties of the request ---------- */

  /** General path: when the router's reply names no agent, no agent and no
      tool runs, and the answer is the model's direct reply to the
      instruction with the single detail "General processing". */
  lemma GeneralFallback(instruction: string, routerReply: string, agents: Agent -> AgentReply, svc: Services)
    requires forall a :: !Mentions(routerReply, a)
    ensures var o := AskAgent(instruction, routerReply, agents, svc);
            && o.agent.None?
            && o.trace == []
            && o.result == Success(Response(svc.llm(Direct(instruction)), [GeneralDetail]))
  {
  }

  /** Text-only path: when the routed agent asks for no tool, its text is
      the answer, with the detail "Handled by " and the agent's name. */
  lemma TextOnlyReply(instruction: string, routerReply: string, agents: Agent -> AgentReply, svc: Services)
    requires Route(routerReply).Some?
    requires agents(Route(routerReply).value).toolCalls == []
    ensures var a := Route(routerReply).value;
            var o := AskAgent(instruction, routerReply, agents, svc);
            && o.trace == []
            && o.result == Success(Response(agents(a).content, [HandledBy + AgentName(a)]))
  {
  }

  /** A request whose tool list has only lighting and unknown calls, all
      with usable arguments, answers "Tasks completed successfully." with
      the lighting messages, in order, as details. */
  lemma LightsOnlyRequest(instruction: string, routerReply: string, agents: Agent -> AgentReply, svc: Services)
    requires Route(routerReply).Some?
    requires var calls := agents(Route(routerReply).value).toolCalls;
             calls != [] && NoneEnds(calls) && LightsValid(calls)
    ensures var calls := agents(Route(routerReply).value).toolCalls;
            var o := AskAgent(instruction, routerReply, agents, svc);
            && o.result == Success(Response(TasksCompleted, Messages(calls, RunLights)))
            && o.trace == LightRuns(calls)
  {
    var calls := agents(Route(routerReply).value).toolCalls;
    LightsValidUsable(calls);
    LightsOnlyCompletes(calls, RunLights, FinishOf(instruction, svc));
  }

  /** A request whose walk reaches a weather, calendar/e-mail or news call
      answers with that call's response; the lighting calls before it ran
      first, and no later call runs. */
  lemma EndingCallRequest(instruction: string, routerReply: string, agents: Agent -> AgentReply, svc: Services, i: nat)
    requires Route(routerReply).Some?
    requires var calls := agents(Route(routerReply).value).toolCalls;
             i < |calls| && EndsRequest(KindOf(calls[i].name)) && NoneEnds(calls[..i]) && LightsValid(calls[..i])
    ensures var calls := agents(Route(routerReply).value).toolCalls;
            var o := AskAgent(instruction, routerReply, agents, svc);
            var w := Finish(calls[i], instruction, svc);
            && o.result == Success(w.exit.response)
            && o.trace == LightRuns(calls[..i]) + w.trace
  {
    var calls := agents(Route(routerReply).value).toolCalls;
    EndingCallDispatch(calls, i, instruction, svc);
  }

  /** The walk of `EndingCallRequest`, before the request wraps it. */
  lemma EndingCallDispatch(calls: seq<ToolCall>, i: nat, instruction: string, svc: Services)
    requires i < |calls| && EndsRequest(KindOf(calls[i].name)) && NoneEnds(calls[..i]) && LightsValid(calls[..i])
    ensures var w := Finish(calls[i], instruction, svc);
            && Dispatch(calls, instruction, svc).exit == w.exit
            && Dispatch(calls, instruction, svc).trace == LightRuns(calls[..i]) + w.trace
  {
    var finish := FinishOf(instruction, svc);
    assert finish(calls[i]) == Finish(calls[i], instruction, svc);
    LightsValidUsable(calls[..i]);
    assert calls == calls[..i] + [calls[i]] + calls[i + 1..];
    EndingCallAnswers(calls[..i], calls[i], calls[i + 1..], RunLights, finish);
  }

  /** A request whose walk reaches a lighting call without usable arguments
      fails with the validation error, after the lighting calls before it
      ran. */
  lemma BadLightArgsRequest(instruction: string, routerReply: string, agents: Agent -> AgentReply, svc: Services, i: nat)
    requires Route(routerReply).Some?
    requires var calls := agents(Route(routerReply).value).toolCalls;
             && i < |calls| && KindOf(calls[i].name) == LightsCall && LightArgs(calls[i].args).None?
             && NoneEnds(calls[..i]) && LightsValid(calls[..i])
    ensures var calls := agents(Route(routerReply).value).toolCalls;
            var o := AskAgent(instruction, routerReply, agents, svc);
            && o.result == Failure(InvalidLightArgs)
            && o.trace == LightRuns(calls[..i])
  {
    var calls := agents(Route(routerReply).value).toolCalls;
    BadLightArgsDispatch(calls, i, instruction, svc);
  }

  /** The walk of `BadLightArgsRequest`, before the request wraps it. */
  lemma BadLightArgsDispatch(calls: seq<ToolCall>, i: nat, instruction: string, svc: Services)
    requires && i < |calls| && KindOf(calls[i].name) == LightsCall && LightArgs(calls[i].args).None?
             && NoneEnds(calls[..i]) && LightsValid(calls[..i])
    ensures Dispatch(calls, instruction, svc) == Walk(Raised(InvalidLightArgs), LightRuns(calls[..i]))
  {
    LightsValidUsable(calls[..i]);
    assert calls == calls[..i] + [calls[i]] + calls[i + 1..];
    BadLightArgsRaise(calls[..i], calls[i], calls[i + 1..], RunLights, FinishOf(instruction, svc));
  }

  /** The weather, calendar and e-mail tools are run with an empty argument
      map, so what the agent extracted for them makes no difference. */
  lemma FinishIgnoresArgs(name: string, args: Args, args': Args, instruction: string, svc: Services)
    requires KindOf(name) == WeatherCall || KindOf(name) == PersonalCall
    ensures Finish(ToolCall(name, args), instruction, svc) == Finish(ToolCall(name, args'), instruction, svc)
    ensures forall j :: 0 <= j < |Finish(ToolCall(name, args), instruction, svc).trace| ==>
              Finish(ToolCall(name, args), instruction, svc).trace[j].args == map[]
  {
  }

  /** The weather call queries the home coordinates, whatever the agent
      extracted, and answers with the detail "Weather service queried". */
  lemma WeatherCallUsesHome(c: ToolCall, instruction: string, svc: Services)
    requires KindOf(c.name) == WeatherCall
    ensures var home := Weather.HomeTarget(svc.weather);
            var data := match svc.weather.forecast(home.lat, home.lon)
              case Reading(t, lo, hi) => Weather.Report(Weather.HomeName, t, lo, hi)
              case ForecastFailed(e) => Weather.ServiceError(e);
            Finish(c, instruction, svc) ==
              Walk(Returned(Response(svc.llm(WeatherPrompt(data, instruction)), [WeatherDetail])),
                   [Invocation(WeatherTool, map[])])
  {
    Weather.BlankLocationUsesHome(None, svc.weather, svc.weather.geocode);
  }

  /** A personal-data call reads the calendar exactly when its name contains
      "calendar" and the mailbox otherwise, and reports "Source: " followed
      by the tool name it was given. */
  lemma PersonalCallSource(c: ToolCall, instruction: string, svc: Services)
    requires KindOf(c.name) == PersonalCall
    ensures var w := Finish(c, instruction, svc);
            && w.trace == [Invocation(if Contains(c.name, "calendar") then CalendarTool else EmailsTool, map[])]
            && w.exit.Returned?
            && w.exit.response.details == [SourcePrefix + c.name]
            && w.exit.response.response
               == svc.llm(PersonalPrompt(if Contains(c.name, "calendar") then svc.calendar else svc.emails))
  {
  }

  /** A news call passes its arguments on untouched and the model
      synthesises the answer from the tool's text. */
  lemma NewsCallPassesArgs(c: ToolCall, instruction: string, svc: Services)
    requires KindOf(c.name) == NewsCall
    ensures var w := Finish(c, instruction, svc);
            && w.trace == [Invocation(NewsTool, c.args)]
            && w.exit == Returned(Response(
                 svc.llm(NewsPrompt(News.CompileNewsReports(ArgOrNull(c.args, "sources"), svc.feeds))),
                 [NewsDetail]))
  {
  }

  /** The first lighting call the walk reaches, when it gets no message,
      ends the walk with its error before any tool run has returned. */
  lemma {:induction false} FirstLightFails(calls: seq<ToolCall>, i: nat, light: Args -> Result<string, string>, finish: ToolCall -> Walk)
    requires i < |calls| && KindOf(calls[i].name) == LightsCall && light(calls[i].args).Failure?
    requires NoneEnds(calls[..i]) && NoLightCalls(calls[..i])
    ensures Loop(calls, light, finish) == Walk(Raised(light(calls[i].args).error), [])
    decreases i
  {
    if i > 0 {
      assert calls[0] in calls[..i];
      assert calls[1..][..i - 1] == calls[..i][1..];
      FirstLightFails(calls[1..], i - 1, light, finish);
    }
  }

  /** As the file is written, the first lighting call the walk reaches fails
      the whole request: with valid arguments it raises the NameError on the
      unbound `bridge`, otherwise the validation error, and no lamp has been
      switched. */
  lemma FirstLightCallFailsAsWritten(instruction: string, routerReply: string, agents: Agent -> AgentReply, svc: Services, i: nat)
    requires Route(routerReply).Some?
    requires var calls := agents(Route(routerReply).value).toolCalls;
             && i < |calls| && KindOf(calls[i].name) == LightsCall
             && NoneEnds(calls[..i]) && NoLightCalls(calls[..i])
    ensures var calls := agents(Route(routerReply).value).toolCalls;
            var o := AskAgentAsWritten(instruction, routerReply, agents, svc);
            && o.result == Failure(if LightArgs(calls[i].args).Some? then Lights.BridgeNameError else InvalidLightArgs)
            && o.trace == []
  {
    var calls := agents(Route(routerReply).value).toolCalls;
    FirstLightFails(calls, i, RunLightsAsWritten, FinishOf(instruction, svc));
  }

  /** The documented request "switch the living-room light on". */
  const LivingRoomOn: ToolCall := ToolCall(LightsToolName, map["location" := Str("LIVING_ROOM"), "action" := Str("ON")])

  /** A routed agent asking only for `LivingRoomOn` makes the request fail
      with the NameError as written, while the corrected program answers
      "Tasks completed successfully." with the tool's message. */
  lemma LivingRoomRequestDiffers(instruction: string, routerReply: string, agents: Agent -> AgentReply, svc: Services)
    requires Route(routerReply).Some?
    requires agents(Route(routerReply).value).toolCalls == [LivingRoomOn]
    ensures AskAgentAsWritten(instruction, routerReply, agents, svc).result == Failure(Lights.BridgeNameError)
    ensures AskAgent(instruction, routerReply, agents, svc).result
            == Success(Response(TasksCompleted, ["LIVING_ROOM" + " light set to " + "ON" + "."]))
  {
    var calls := [LivingRoomOn];
    assert LightArgs(LivingRoomOn.args).Some?;
    assert calls[..0] == [];
    FirstLightCallFailsAsWritten(instruction, routerReply, agents, svc, 0);
    assert forall c :: c in calls ==> c == LivingRoomOn;
    LightsOnlyRequest(instruction, routerReply, agents, svc);
    LivingRoomOnMessages();
  }

  lemma LivingRoomOnMessages()
    ensures Messages([LivingRoomOn], RunLights) == ["LIVING_ROOM" + " light set to " + "ON" + "."]
  {
    LivingRoomOnMessage();
    assert Messages([LivingRoomOn], RunLights) == [RunLights(LivingRoomOn.args).value] + Messages([], RunLights);
  }

  lemma LivingRoomOnMessage()
    ensures RunLights(LivingRoomOn.args) == Success("LIVING_ROOM" + " light set to " + "ON" + ".")
  {
    assert LivingRoomOn.args["location"].s == "LIVING_ROOM" && LivingRoomOn.args["action"].s == "ON";
  }
}
