# function-calling, modelled in Dafny

The program is a small command-line agent written in Go. It keeps a
conversation in an in-memory message store and sends one prompt ("What's
the weather in Shenzhen? Is it suitable for outdoor activities?") to a
chat-completion gateway, offering it one tool, `GetWeather`. It then runs a
bounded loop of at most five tool-calling rounds:

- while the model's reply carries tool calls, the program decodes the
  arguments of the first call;
- it runs the weather tool when the call names it;
- it appends the assistant message and a tool message answering the call;
- it asks the model again.

The weather tool builds the Open-Meteo query from its parameters, filling
in defaults. It formats the decoded forecast as a plain-text report.

The project has three files:

- `wrappers.dfy` holds `Option` and `Result`.
- `weather.dfy` (module `Weather`) models `tools/weather.go`:
  - the parameter and response records, as datatypes;
  - the weather-code table;
  - the step-by-step query construction (`BuildQuery`), proved equal to a
    declarative query (`QueryOf`);
  - the report, as the imperative writes to the string builder
    (`FormatReport` and its `Write…` methods and loops). These are proved
    equal to a specification `ReportLines`, which is the list of strings
    written, and the report text is their concatenation.
  - Lemmas state the layout rules: the header, when the conditions line
    appears, the hourly cap of 24 entries, the uncapped daily section, and
    when each sub-line appears. A "line" in these lemmas is one write to
    the builder, identified by its label. A field value that itself holds
    a newline therefore still counts as part of its own write. The lemmas
    say nothing about how the concatenated text splits at newlines.
- `chat.dfy` (module `Chat`) models `main.go`:
  - the message store, as a class over a `seq` of messages;
  - the loop of `main`, as the method `RunMain`. It is proved equal to the
    pure specification `Session`, which is built from `Step` and `Loop`.
    A ghost counter proves that `RunMain` makes exactly as many gateway
    calls as `Session` counts.
  - The contracts of `Loop` and `Session` bound the number of gateway
    calls. Lemmas cover the shape of the history, how the loop exits, and
    the fatal stops.

The chat gateway, the JSON decoding of tool arguments and the weather
provider (HTTP request, status check and JSON decoding) are parameters:
the `Oracles` record of pure functions. The gateway is a function of the
whole history it is sent. Each call sees a strictly longer history, so any
sequence of replies can be expressed this way. The weather provider is a
function of the query alone. Two rounds that send the same query get the
same answer (see "## Left out").

Modelling decisions where the code is the authority:

- **Unknown tool names.** A call whose name is not `GetWeather` is still
  answered. The result stays `""`, and both the assistant message and a
  tool message with empty content are appended (main.go:169-190). The
  model does exactly this; the loop does not skip the append.
- **Empty tool-call lists.** The exit test looks only at whether the
  tool-call slice is nil (main.go:161). A present but empty slice reaches
  `toolCalls[0]` at main.go:167, where Go panics. Tool calls are
  `Option<seq<ToolCall>>`, and that case ends the run with the outcome
  `IndexPanic`. No precondition is placed on the gateway.
- **The conditions guard.** The guard at tools/weather.go:199 is a
  tautology. `WriteCurrent` keeps it, and `CurrentConditions` shows that
  only the table lookup decides whether the line appears.
- **The degree sign.** The temperature unit in tools/weather.go is the
  character U+C9F8 followed by `C`. It is probably a mis-encoded degree
  sign, but it is kept as written (`Weather.Celsius`).
- **`log.Fatal` exits** are the outcomes `DecodeFailed` and `ToolFailed`.

## Model

| member | source | states |
|---|---|---|
| Chat.ChatMessages.constructor | main.go:41-42 | the store starts empty |
| Chat.ChatMessages.Clear | main.go:30-32 | after the call the store is empty, whatever it held |
| Chat.ChatMessages.AppendMessage | main.go:54-60 | the store grows by exactly one; earlier messages are unchanged; the new last message has the given role, content and tool calls, no name and no call id |
| Chat.ChatMessages.GetMessages | main.go:64-68 | returns a freshly allocated array whose contents equal the store, element by element and of the same length; writing an element of it cannot change the store |
| Chat.ChatMessages.AddTool | main.go:71-78 | appends exactly one message with role "tool", the given content, name and call id, and no tool calls; nothing else changes |
| Chat.ChatWithTools | main.go:102-121 | a failed gateway request yields a message with no tool calls and empty content |
| Chat.Dispatch | main.go:169-184 | a failure is always a fatal outcome, never a final answer; an undecodable argument string gives the decode failure; a decodable call to any tool other than GetWeather gives the empty result; a decodable GetWeather call whose tool fails gives the fatal tool failure with the tool's error, and otherwise the tool's report, which starts with the header |
| Chat.Step | main.go:161-194 | a step ends with the final answer exactly when the reply has no tool calls or the bound is reached, and the answer is the reply's content; a step that goes on happens only below the bound; it appends exactly two messages after the unchanged history (the assistant message echoing the reply, then a tool message paired with its first call), and the next reply is the gateway's answer to the new history; `StepFollowsDispatch` states when a step below the bound goes on |
| Chat.Turn | main.go:165-194 | one round on the store: a fatal stop leaves the store unchanged, reports the outcome and makes no gateway call; otherwise the store becomes the history the step specification gives, the new reply is the one it gives, and exactly one gateway call is made |
| Chat.RunMain | main.go:147-196 | the outcome of `main`, its final message store and the number of gateway calls it makes equal those of the run specification `Session` for the fixed prompt and a bound of 5 (so at most 6 calls) |
| Chat.Loop | main.go:157-196 | the `for` loop from a given round: from round `loopCount` at or under the bound it makes at most `maxLoops - loopCount` further gateway calls, and none once the bound is reached, for any oracles |
| Chat.Session | main.go:147-196 | `main` from a given history: a run terminates after at least 1 and at most `maxLoops + 1` gateway calls, even when the model always asks for a tool |
| Chat.LoopHistory | main.go:189-190 | the loop keeps the history it starts from as a prefix and appends exactly two messages per gateway call |
| Chat.RoundOfStep | main.go:178-192 | a step that goes on leaves a round at the old end of the history: the assistant echo of the gateway's answer to everything before it, then a paired tool message whose content is the dispatched result |
| Chat.LoopRounds | main.go:189-193 | every pair of messages the loop appends is such a round, round k starting 2k positions after the start |
| Chat.LoopStops | main.go:161-163 | the loop ends in a state where one more step stops, with the same outcome |
| Chat.SessionShape | main.go:149-194 | a run's history starts with the old history and the user prompt; its length is one more than the old history plus two per round (1 + 2k from an empty store); every appended pair is a round |
| Chat.SessionExit | main.go:161-163 | a run ends with a final answer exactly when the last reply has no tool calls or the bound was reached, and the answer is that reply's content |
| Chat.GatewayErrorEndsLoop | main.go:114-117 | when the gateway fails, the empty message it yields ends the loop at once with an empty final answer, no append and no further call |
| Chat.StepFollowsDispatch | main.go:165-194 | with a non-empty call list below the bound, a step goes on exactly when dispatching the first call succeeds, and otherwise stops with the dispatch's fatal outcome |
| Chat.ToolFailureHalts | main.go:178-183 | a decodable GetWeather call whose tool fails stops the run with that error, before any append or further gateway call |
| Chat.DecodeFailureHalts | main.go:171-175 | arguments that do not decode stop the run with that error, before any append or further gateway call |
| Chat.EmptyToolCallsPanic | main.go:167 | a present but empty tool-call list below the bound stops the run with an index panic and leaves the history alone |
| Chat.UnknownToolAnsweredEmpty | main.go:169-190 | a decodable call to an unknown tool is still answered: the round appends the assistant message and a tool message with empty content, the call's name and its id |
| Chat.PersistentToolCallsHitBound | main.go:154-196 | if the gateway always asks for a tool that always succeeds, the loop makes exactly the remaining number of rounds and ends with the content of the last reply |
| Chat.DirectAnswer | main.go:151-163 | a first reply without tool calls ends the run after one gateway call, with that reply's content and a history that ends with the prompt |
| Weather.Describe | tools/weather.go:104-126 | the `weatherCodeToDescription` lookup of lines 200 and 231: a description it finds is never empty |
| Weather.DescribedCodes | tools/weather.go:104-126 | a code has a description exactly when it is one of the 21 codes of the table; code 0 reads "Clear sky" |
| Weather.Add | tools/weather.go:133-156 | `url.Values.Add`: the key is present afterwards and holds its earlier values (none for a new key) followed by the added value |
| Weather.AddKeepsOthers | tools/weather.go:133-156 | `url.Values.Add` leaves every other key as it was: present exactly when it was, with the same values |
| Weather.Join | tools/weather.go:138-150 | `strings.Join` with a comma: the text of a non-empty list starts with its first name, and a comma follows it when more names follow; `SplitJoin` is the round trip |
| Weather.BuildQuery | tools/weather.go:130-156 | the query built by successive adds equals the declarative query `QueryOf` |
| Weather.SplitJoin | tools/weather.go:138 | joining a non-empty list of names with commas and cutting at the commas gives the list back, when no name contains a comma |
| Weather.AddFields | tools/weather.go:144-150 | adds the key with the comma-join of the list as its only value exactly when the list is non-empty, and otherwise leaves the query as it was |
| Weather.QueryKeys | tools/weather.go:133-156 | latitude, longitude, current and timezone are always sent, and hourly and daily exactly when their lists are non-empty; no other key is sent |
| Weather.QuerySingleValues | tools/weather.go:133-156 | every key of the query carries exactly one value |
| Weather.QueryValues | tools/weather.go:133-156 | latitude and longitude carry their formatted numbers; an empty current list sends temperature_2m,relative_humidity_2m,weather_code,wind_speed_10m; an empty timezone sends auto, and any other timezone is sent as given |
| Weather.QueryFieldLists | tools/weather.go:137-150 | a non-empty current, hourly or daily list whose names hold no comma is recovered exactly by cutting the sent value at its commas |
| Weather.FormatReport | tools/weather.go:186-262 | the text built by the writes equals the concatenation of the specified report lines |
| Weather.WriteCurrent | tools/weather.go:187-204 | writes the header, time and temperature, the humidity and wind speed only when present, and the conditions line only when the code has a description |
| Weather.WriteHourly | tools/weather.go:207-214 | writes the hourly title and entries only for a present, non-empty time array, with the entry count capped at 24 |
| Weather.WriteHourlyEntries | tools/weather.go:215-237 | the counted loop writes entries 0 to limit - 1, in order |
| Weather.WriteHourlyEntry | tools/weather.go:216-236 | writes one hourly entry: the time, each field whose array is longer than the index, the conditions when described, and a blank line |
| Weather.WriteDaily | tools/weather.go:241-260 | writes the daily title and every entry of the time array, only when it is present and non-empty |
| Weather.WriteDailyEntries | tools/weather.go:243-259 | the loop over the whole time array writes entries 0 to len(time) - 1, in order |
| Weather.WriteDailyEntry | tools/weather.go:244-258 | writes one daily entry: the date, each field whose array is longer than the index, and a blank line |
| Weather.WeatherResult | tools/weather.go:162-187 | the tool fails exactly when the request, status check or decoding fails, with that error; a successful result starts with "Current Weather:\n" |
| Weather.GetWeather | tools/weather.go:129-263 | the imperative tool (query, request, report) returns the specified result |
| Weather.ReportStartsWithHeader | tools/weather.go:186-187 | the first write is the header and the report text begins with it |
| Weather.HourlyHeadLine | tools/weather.go:216 | hourly entry i has exactly one line tagged "Time: ", carrying time i |
| Weather.HourlyTemperatureLine | tools/weather.go:218-220 | the entry has a temperature line exactly when that array is longer than i, carrying value i |
| Weather.HourlyHumidityLine | tools/weather.go:222-224 | the entry has a humidity line exactly when that array is longer than i, carrying value i |
| Weather.HourlyWindSpeedLine | tools/weather.go:226-228 | the entry has a wind-speed line exactly when that array is longer than i, carrying value i |
| Weather.HourlyConditionsLine | tools/weather.go:230-234 | the entry has a conditions line exactly when that array is longer than i and code i has a description |
| Weather.HourlyEntrySubLines | tools/weather.go:216-234 | within hourly entry i, the time line appears once, and each of the temperature, humidity, wind-speed and conditions lines appears, once and carrying value i, exactly when its array is longer than i (and, for conditions, code i has a description); no index goes out of bounds |
| Weather.DailyHeadLine | tools/weather.go:244 | daily entry i has exactly one line tagged "Date: ", carrying date i |
| Weather.DailyMaxTemperatureLine | tools/weather.go:246-248 | the entry has a maximum-temperature line exactly when that array is longer than i |
| Weather.DailyMinTemperatureLine | tools/weather.go:250-252 | the entry has a minimum-temperature line exactly when that array is longer than i |
| Weather.DailyPrecipitationLine | tools/weather.go:254-256 | the entry has a precipitation line exactly when that array is longer than i |
| Weather.DailyEntrySubLines | tools/weather.go:244-256 | within daily entry i, the date line appears once, and each of the maximum, minimum and precipitation lines appears, once and carrying value i, exactly when its array is longer than i |
| Weather.HourlyTimes | tools/weather.go:215-216 | the "Time: " lines of the first n hourly entries are exactly the first n times, one each, in order |
| Weather.DailyDates | tools/weather.go:243-244 | the "Date: " lines of the first n daily entries are exactly the first n dates, one each, in order |
| Weather.HourlySection | tools/weather.go:207-216 | the hourly section is empty unless the time array is present and non-empty; otherwise it starts with its title and lists min(len(time), 24) times, the first ones, in order |
| Weather.DailySection | tools/weather.go:241-244 | the daily section is empty unless the time array is present and non-empty; otherwise it starts with its title and lists every date, in order, with no cap |
| Weather.CurrentConditionsLine | tools/weather.go:199-204 | the current block's only conditions writes are the table lookup's line, if any |
| Weather.CurrentConditions | tools/weather.go:199-204 | the current block has a conditions line exactly when the code is in the table, and it then carries the code's description |
| Weather.ClearSkyForCodeZero | tools/weather.go:105 | code 0 prints "Conditions: Clear sky" |

## Left out

- HTTP and transport (`http.Get`, `io.ReadAll`, closing the body, the gateway client and `NewOpenAiClient`) are foreign network calls. They are the oracles `gateway` and `fetch`.
- `init`, `.env` loading and `os.Getenv` configuration are environment I/O. The store starts empty, as `init` leaves it.
- JSON decoding of tool arguments and of the Open-Meteo response is not modelled as a parser. It is the oracles `decode` and `fetch`.
- Float formatting (`%.6f`, `%.1f`) is not modelled: each number is its already formatted text (`Num`).
- The float zero tests at tools/weather.go:191 and 195: the current humidity and wind speed are optional, and `None` stands for a value of exactly zero.
- `url.Values.Encode` (percent-escaping and key order) and the URL text are library behaviour. The query is the key-to-values map handed to `fetch`.
- Console output (`fmt.Println`, `fmt.Printf`) and `printDebugInfo` are not modelled. They change no state.
- `log.Fatal` does not exit a process in the model. It is a fatal `Outcome`, and the run stops there.
- The unused `Chat` function (main.go:82-98) is not modelled.
- The static description and JSON-schema text of `WeatherToolDefine` are not modelled. Only its name, `GetWeather`, is used.
- The tools list passed with each gateway request is fixed, so the `gateway` oracle leaves it implicit.
- The weather provider `fetch` is a pure function of the query, not of the round. Repeated GetWeather calls with the same arguments within one run get the same answer. The model cannot express data that change between rounds, or a provider that fails only on a repeated request. No proved property depends on this.
- A successful gateway response with no choices is not modelled. `ChatWithTools` would panic at `rsp.Choices[0]` (main.go:120); the gateway oracle's `Success` stands for `Choices[0].Message`, so the model has no stop for that panic.
- The copy made by `GetMessages` (main.go:66) is modelled as a deep copy, because messages are values. Go's `copy` works only at the element level: each copied message's `ToolCalls` slice and `FunctionCall` pointer still share storage with the store. `main` never writes through the copy, so the difference is not observable in the program.
- Only the message fields the loop reads or writes are modelled (role, content, tool calls, name, call id). A tool call has only its id, function name and arguments.
- A round trip between the arguments the model writes and the decoded parameters is outside the model, because decoding is an oracle.
- The loop reads only the first tool call of a reply, as the source does. Further calls in the same reply are stored in the assistant message but never answered.
