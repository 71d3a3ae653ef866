# SmartHome-AI request handling, modelled in Dafny

SmartHome-AI is a small FastAPI service. Its `/ask-agent` endpoint works in three steps:

1. It asks a router language model which specialised agent should handle a user instruction: weather, home automation or personal data/news.
2. It asks that agent.
3. It walks the tool calls the agent requested.

This project models two parts of it:

- that handler (`ask_agent`);
- the pure logic of three of its tools:
  - the RSS news compiler `compile_news_reports`;
  - the lamp choice and on/off flag of `control_lights`;
  - the choice between geocoding and the home coordinates in `get_weather_forecast`.

Every call to a language model is an input rather than a computation:

- the router's reply;
- each agent's reply, which is its text and its tool calls;
- a function `llm` that maps the content a synthesis prompt carries to the model's answer.

The outside world is also passed in as inputs:

- the weather services;
- the calendar and mailbox texts;
- the RSS parser's result per feed URL;
- the `HOME_LAT` / `HOME_LON` environment variables.

Modules follow the program's structure:

- `Router`: label matching on the upper-cased router reply.
- `Dispatch`: the handler, i.e. routing, then the tool-call loop and the responses it returns.
- `News` and `NewsText`: `compile_news_reports`.
- `Lights`: `control_lights`.
- `Weather`: `get_weather_forecast`.
- `Text`: the Python string operations the program uses (`upper`, `in`, `strip`, `replace`, `"\n".join`), and a splitter on newlines that reads a joined text back into its lines (the program itself never splits).
- `Seqs`: the per-item concatenation behind every "for each item, append its lines" loop.
- `Calls`: the shape of an agent reply.
- `Results`: `Option` and `Result`.

The handler has no confirmation step. Nothing records a pending action for later confirmation or cancellation.

The lighting tool, as written, cannot switch a lamp: it uses a `bridge` name that is never bound in its module (see Findings). The handler is therefore modelled twice:

- `Dispatch.AskAgent` runs the corrected lighting tool (`Lights.ControlLights`). There, a lighting call switches the lamp the moment the loop reaches it.
- `Dispatch.AskAgentAsWritten` runs the tool as written. There, the first lighting call the loop reaches fails the whole request, and no lamp is ever switched.

The request lemmas `FirstLightCallFailsAsWritten` and `LivingRoomRequestDiffers` are about `Dispatch.AskAgentAsWritten`. All the other request lemmas are about `Dispatch.AskAgent`.

A request's trace lists the tool runs that returned. A tool call that raised is not listed, even when the tool's body had started: as written, a lighting call with valid arguments enters `control_lights` and raises there, but it is not in the trace.

## Model

| member | source | states |
|---|---|---|
| Router.Route | Src/Main.py:82-94 | No agent is chosen exactly when the upper-cased reply contains none of the three labels. A chosen agent's label is contained in it. Among the mentioned agents the chosen one comes first in the order weather, home automation, personal data. |
| Router.RouteIgnoresCase | Src/Main.py:82-90 | An agent is mentioned exactly when its label occurs in the raw reply ignoring ASCII case. Routing picks an agent exactly when some label occurs that way. |
| Router.WeatherWinsOverDomo | Src/Main.py:85-86 | A reply that mentions the weather agent goes to it, whatever other labels it holds. |
| Router.ShortRepliesRouteNowhere | Src/Main.py:82-94 | A reply shorter than every label, such as "GENERAL", routes to no agent. |
| Dispatch.AskAgent | Src/Main.py:74-143 | The agent asked is the one routing chose. When no agent is chosen, no tool runs. |
| Dispatch.GeneralFallback | Src/Main.py:89-94 | With no label in the router reply, no agent or tool runs. The response is the model's direct answer to the instruction, with the single detail "General processing". |
| Dispatch.TextOnlyReply | Src/Main.py:97-143 | A routed agent that requests no tool is answered with its own text, with the detail "Handled by " and the agent's name. No tool runs. |
| Dispatch.AskAgentAsWritten | Src/Main.py:74-143 | With the lighting tool as written, the agent asked is the one routing chose, and the request never switches a lamp: no lighting run returns. |
| Dispatch.KindOfNames | Src/Main.py:104-121 | Each of the five tool names gets its own branch, whatever the order of the checks. Both personal-data names share one branch, and every other name is unknown. |
| Dispatch.Finish | Src/Main.py:104-138 | A weather, calendar/e-mail or news call always ends the request with a response, after exactly one tool run. That tool is never the lighting tool. |
| Dispatch.FinishIgnoresArgs | Src/Main.py:105-118 | The weather, calendar and e-mail tools are run with an empty argument map, so the arguments the agent extracted make no difference. |
| Dispatch.WeatherCallUsesHome | Src/Main.py:104-108 | A weather call reads the forecast at the home target, whatever the agent extracted. The answer is the model's synthesis of that report and the question, with the detail "Weather service queried". |
| Dispatch.PersonalCallSource | Src/Main.py:115-119 | A personal-data call reads the calendar exactly when its name contains "calendar", and the mailbox otherwise. It reports "Source: " and the tool name. |
| Dispatch.NewsCallPassesArgs | Src/Main.py:121-138 | A news call passes its argument map to the news tool unchanged. The answer is the model's synthesis of the tool's text, with the detail "Comparative news review completed". |
| Dispatch.FinishOfSwitchesNoLamp | Src/Main.py:104-138 | No call that ends the request runs the lighting tool. |
| Dispatch.RunLights | Src/Main.py:110-113 | With the corrected tool, a lighting call yields a message exactly when its arguments give `location` and `action` as strings, and otherwise the validation error. The message repeats both as given, followed by " light set to " and a full stop. |
| Dispatch.RunLightsAsWritten | Src/Main.py:110-113 | With the tool as written, no lighting call succeeds. Valid arguments raise the NameError on `bridge`, and invalid ones the validation error. |
| Dispatch.OnlyEndingCallsReturn | Src/Main.py:100-140 | The loop returns a response only by reaching a weather, calendar/e-mail or news call. Otherwise it runs to its end or raises. |
| Dispatch.LoopRaises | Src/Main.py:100-140 | When every lighting failure carries one error and the ending step never raises, that error is the only one the loop can end with. |
| Dispatch.LoopCompletes | Src/Main.py:100-140 | When the ending step never lets the loop go on, a loop that runs to its end met no weather, calendar/e-mail or news call, and every lighting call in it got a message. |
| Dispatch.NoLampWhenLightsFail | Src/Main.py:100-140 | When no lighting call succeeds and no ending call switches a lamp, the walk switches no lamp. |
| Dispatch.Dispatch | Src/Main.py:100-140 | With the corrected lighting tool, the only error that escapes the loop is the validation error. The loop runs to its end only when no call in the list ends the request and every lighting call has string `location` and `action`. |
| Dispatch.PrefixTrace | Src/Main.py:101-113 | Calls before the first ending call, with usable lighting arguments, put one lighting run per lighting call, in order, in front of the rest of the walk. |
| Dispatch.PrefixExit | Src/Main.py:101-140 | Such calls do not change how the walk ends. When the walk runs to its end, their messages come first among the details, in order. |
| Dispatch.StopsAtFirstEnding | Src/Main.py:101-138 | The first weather, calendar/e-mail or news call ends the walk. The walk over the whole list equals the walk over the list cut just after that call, so later calls never run. This holds for any lighting and ending behaviour. |
| Dispatch.EndingCallAnswers | Src/Main.py:101-138 | An ending call that returns a response answers the request, dropping the lighting messages collected before it. The trace is the earlier lighting runs, in order, then the ending call's own. |
| Dispatch.LightsOnlyCompletes | Src/Main.py:101-140 | With no ending call and usable lighting arguments, the loop runs to its end. Every lighting call runs in order with the extracted arguments, and the details are their messages in the same order. |
| Dispatch.BadLightArgsRaise | Src/Main.py:110-113 | A lighting call that gets no message raises its error. The lighting calls before it have run and nothing after it runs. |
| Dispatch.FirstLightFails | Src/Main.py:100-113 | When the first lighting call reached gets no message, the walk raises its error and no tool run has returned. |
| Dispatch.UnknownCallsSkipped | Src/Main.py:101-138 | Calls with an unknown tool name change nothing: the walk is the same with them removed. |
| Dispatch.LightsValidUsable | Src/Main.py:110-113 | With the corrected lighting tool, the lighting step gives a message for every lighting call exactly when every lighting call has string `location` and `action`. |
| Dispatch.LightsOnlyRequest | Src/Main.py:100-140 | At request level, a non-empty list of only lighting and unknown calls with usable arguments answers "Tasks completed successfully." with the lighting messages, in order, as details. |
| Dispatch.EndingCallDispatch | Src/Main.py:101-138 | When every lighting call before it has string `location` and `action`, with the corrected lighting tool the walk ends with the first ending call's response, after the earlier lighting runs. |
| Dispatch.EndingCallRequest | Src/Main.py:100-138 | When every lighting call before it has string `location` and `action`, with the corrected lighting tool the request's answer is the first ending call's response, and the trace is the earlier lighting runs followed by that call's tool. |
| Dispatch.BadLightArgsDispatch | Src/Main.py:100-113 | With the corrected lighting tool, a lighting call without string `location` and `action` ends the walk with the validation error, after the earlier lighting runs. |
| Dispatch.BadLightArgsRequest | Src/Main.py:100-113 | At request level, a lighting call without string `location` and `action` makes the request fail with the validation error, after the earlier lighting runs. |
| Dispatch.FirstLightCallFailsAsWritten | Src/Main.py:100-113 | As written, the first lighting call reached fails the request. Valid arguments give the NameError on `bridge`, invalid ones the validation error. No lamp has been switched and no tool run has returned. |
| Dispatch.LivingRoomRequestDiffers | Src/Main.py:100-140 | A routed agent asking only to switch the living room on makes the request fail with the NameError as written. The corrected program answers "Tasks completed successfully." with the message "LIVING_ROOM light set to ON.". |
| News.SourceKeys | Src/Tools.py:66-67 | A missing, non-list or empty `sources` gives the three default feeds. A non-empty list is used as given. The key list is never empty. |
| News.FeedLabel | Src/Tools.py:73-75 | A key that names a feed names a catalogue key, and is a string equal to it ignoring ASCII case. |
| News.FeedLabelIgnoresCase | Src/Tools.py:72-75 | A key names a catalogue feed exactly when it is a string equal to that feed's key ignoring ASCII case. It is printed under the catalogue key. |
| News.NonStringKeysSkipped | Src/Tools.py:73 | Empty keys and keys that are not strings name no feed. |
| News.DefaultSourcesAreFeeds | Src/Tools.py:24-67 | Each default source key is a catalogue key that labels itself. |
| News.Headlines | Src/Tools.py:77-86 | A feed that raised adds no line. A parsed feed adds one line per entry among its first three, in entry order, each in the printed format. |
| News.Contribution | Src/Tools.py:73-86 | One key adds at most three lines. A key that names no feed, or whose feed raised, adds none. Otherwise the key adds one line per entry among the feed's first three, printed under the key's label. |
| News.Compile | Src/Tools.py:72-86 | The compilation has at most three lines per scanned key. |
| News.CompileAppend | Src/Tools.py:72-86 | Keys are processed independently and in order: a longer key list gives the concatenation of its parts' lines. |
| News.CompileCons | Src/Tools.py:72-86 | A key in front adds its lines in front of those of the keys after it. |
| News.CompileAround | Src/Tools.py:72-86 | A key adds its lines between those of the keys before and after it. |
| News.CompileSkips | Src/Tools.py:73-86 | An unknown or failing key adds nothing and does not stop the scan. |
| News.CompileLines | Src/Tools.py:82-84 | Every compiled line is "[" + a catalogue key + "] : " + a cleaned title, and holds no newline. |
| News.CompileNewsReports | Src/Tools.py:60-91 | The tool returns the fixed error text exactly when no line was compiled. Otherwise its text splits on newlines back into the compiled lines, in order. |
| News.TakeHeadlines | Src/Tools.py:81-84 | The inner loop adds exactly a feed's headline lines. |
| News.ScanFeeds | Src/Tools.py:60-91 | The outer loop over the keys returns the per-key composition's text. That text is the error text exactly when the composition is empty. |
| News.ScanKey | Src/Tools.py:72-84 | One pass of the outer loop adds exactly the key's contribution, at most three lines. |
| News.CompileSnoc | Src/Tools.py:72-84 | Scanning one more key appends its contribution after the lines of the keys before it. |
| NewsText.CleanTitle | Src/Tools.py:83 | A cleaned title holds no newline. |
| NewsText.ReportRoundTrip | Src/Tools.py:88-91 | For bracket-led lines without newlines, the report is the error text exactly when there are no lines, and it reads back to the lines. |
| Lights.LampFor | Src/Tools.py:147 | "Hue color lamp 1" is chosen exactly when the location equals "LIVING_ROOM" ignoring ASCII case. Every other location gets "Hue color lamp 2". |
| Lights.OnFlag | Src/Tools.py:148 | The lamp is switched on exactly when the action equals "ON" ignoring ASCII case. |
| Lights.ControlLights | Src/Tools.py:143-149 | One `set_light` on parameter "on", with lamp and flag as above. The message repeats location and action as given. |
| Lights.CommandIgnoresCase | Src/Tools.py:147-148 | Arguments that differ only in case send the same bridge command. |
| Lights.ControlLightsAsWritten | Src/Tools.py:143-149 | As the file is written, every call raises a NameError on `bridge` before any lamp is switched. |
| Lights.LivingRoomOnDiffers | Src/Tools.py:147-148 | The request ("LIVING_ROOM", "ON") raises as written, while the corrected tool switches lamp 1 on. |
| Weather.HomeTarget | Src/Tools.py:174-178 | A set `HOME_LAT` / `HOME_LON` wins, even when empty. Unset, they default to 45.1839 / 5.7089. The place name is "votre domicile". |
| Weather.Locate | Src/Tools.py:161-178 | The home target is used exactly when the location is not geocoded. A geocoded location gives a target exactly when the reply has a first hit, and the target is that hit. |
| Weather.GetWeatherForecast | Src/Tools.py:153-195 | "City not found" comes exactly when a geocoded location gets a reply without results. A geocoding error comes exactly when the geocoding request raised or its result list is empty. Otherwise the report is the forecast service's reading or error at the located target, under the target's name. |
| Weather.BlankLocationUsesHome | Src/Tools.py:161-192 | A missing or all-whitespace location is not geocoded, and the geocoding service plays no part. The forecast is read at the home target. |
| Weather.NamedLocationGeocodes | Src/Tools.py:161-171 | A location with a non-whitespace character is geocoded. A reply without results ends with "city not found". A geocoding exception or an empty result list ends with a geocoding error. A first hit is where the forecast is read, under its name. |
| Text.UpperEqualsIff | Src/Tools.py:147 | Comparing the upper-cased text with a label that has no lower-case letter is comparing ignoring case. |
| Text.UpperContainsIff | Src/Main.py:85 | Searching the upper-cased text for such a label finds it exactly when the label occurs in the text ignoring case. |
| Text.ContainsIff | Src/Main.py:85 | Python's `in` on strings holds exactly when the pattern occurs at some position. |
| Text.StripEmptyIff | Src/Tools.py:161 | `strip()` gives the empty string exactly when the text is all whitespace. |
| Text.Strip | Src/Tools.py:83 | The result is the slice of the input that starts after the leading whitespace, has only whitespace after it and no whitespace at either end. |
| Text.SplitJoin | Src/Tools.py:91 | Joining lines that have no newline and splitting the result gives the lines back. |
| Text.JoinSplit | Src/Tools.py:91 | Splitting on newlines and joining again gives the text back, and no piece holds a newline. |
| Seqs.FlatMapAppend | Src/Tools.py:72-84 | The per-item concatenation of a longer list is that of its parts, in order. |
| Seqs.MapSnoc | Src/Tools.py:82-84 | Mapping one more entry appends its line at the end. |

## Left out

- Language-model calls are not modelled. The router, agent and synthesis answers are inputs. A synthesis prompt is represented by what it carries, not by its wording. The news prompt's date line comes from the clock and is not represented.
- Agent construction and tool binding are not modelled: Src/Agents.py is not part of this model. Of the agent definitions in Src/Main.py, only the agents' names are modelled (`Router.AgentName`), for the "Handled by " detail.
- Tool runs that raise are not recorded in the trace: the trace lists the runs that returned. As written, a lighting call with valid arguments enters the tool and raises there, and it does not appear in the trace.
- The pydantic validation of tool arguments is not modelled beyond two rules:
  - a lighting call needs `location` and `action` as strings, and otherwise the request raises;
  - the news tool receives the argument map unchanged and reads a missing `sources` as `None`.
- News.SourceKeys: pydantic's coercion or rejection of a non-list `sources` is not modelled. Such a value takes the same default path as in the function body.
- The I/O itself is not modelled: RSS fetching and parsing, Google Calendar/Gmail, HTTP calls to the weather services, and the Hue bridge. Each appears as an input (`fetch`, `calendar`, `emails`, `geocode`, `forecast`), or as a recorded command for the bridge.
- News.Headlines: a parser error that occurs after some titles of a feed were appended is not modelled. A feed either parses to its titles or fails as a whole.
- Console output is not modelled: the `print` of feed errors and the bridge connection messages.
- The weather tool's final JSON and message rendering is not modelled: temperatures (floats) are kept as the service's text, and the report is a datatype rather than a JSON string.
- Text.Upper: upper-cases ASCII letters only. Python's `str.upper` also maps non-ASCII letters, and some of them onto ASCII letters ('ſ' to 'S', 'ı' to 'I', 'ﬁ' to "FI"). So every comparison "ignoring case" in this model means ignoring ASCII case. Inputs that rely on such letters are decided differently:
  - the router reply "perſonal_agent" reaches the personal agent in Python but routes nowhere here;
  - the location "lıvıng_room" gets lamp 1 in Python but lamp 2 here;
  - the news key "public_ſervice_politics" names a feed in Python but is skipped here.
- The dashboard (Src/Dashboard.py), the Hue bridge connection (Src/Domotics.py) and the server start-up are not part of this model.
- The calendar and e-mail tools' own formatting is not part of this model. The handler only passes their text to the model.

## Findings

| source | as written | input that shows it | evidently intended | confidence | as-written member | corrected member |
|---|---|---|---|---|---|---|
| Src/Tools.py:148 | `bridge.set_light(...)`, but the module imports only `Bridge_hue` (line 20), never the `bridge` instance that Src/Domotics.py creates, so the name is unbound | `control_lights(location="LIVING_ROOM", action="ON")` raises NameError before any lamp is switched, so `ask_agent` fails for a home-automation agent that asks for it | call `set_light` on the bridge instance: lamp 1 switched on, message "LIVING_ROOM light set to ON." | not executed | Lights.ControlLightsAsWritten, Dispatch.AskAgentAsWritten, Dispatch.LivingRoomRequestDiffers | Lights.ControlLights, Dispatch.AskAgent |
