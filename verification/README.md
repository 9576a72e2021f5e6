# bt_ai_core in Dafny

A Dafny model of the core of `bt_ai_core`, a Rust client library for
chat-completion backends such as Ollama. The model covers:

- **Messages** (`Messages`): the five chat roles and their lowercase wire
  names, messages with optional tool calls, and tool calls (`ToolToCall`)
  whose arguments are JSON values rendered to JSON text. The serde wire
  shape is modelled as a JSON tree with a decoder, so each encoding has a
  proved round trip.
- **Tool catalog** (`Tools`): the function definitions that can be offered
  to a model, and `get_common_tools`, which picks the catalog entries
  allowed by a `SupportedFunctions` policy (ALL, NONE or a list of names).
- **Platform configuration** (`AiConfig`): parsing a `SupportedFunctions`
  policy from text and from YAML, and per-platform defaulting of port,
  context size, scheme, host and API segments. It also assembles the base
  URL (proved decodable back into its parts) and the accessors with their
  fixed fallbacks for unknown platforms.
- **Chat request builder** (`ChatRequests`): the optional system prompt
  with its date/time suffix, followed by the history and the new message.
  Also the compact JSON form of the request, proved equal to the exact body
  that the crate's own unit test expects.
- **Stream aggregator** (`Streams`): `process_stream` as a loop over a
  sequence of chunks. It concatenates content, keeps the first tool-call
  list and the last event's metadata, and gives up at the seventh malformed
  chunk. Each malformed chunk before that adds a growing back-off delay. The
  loop is checked against declarative reference definitions.
- **Local model configurations** (`ModelConfiguration`): entry defaults,
  parameter maps, custom parameters stored under trimmed lower-case keys,
  the model file path and the GPU switch.

Shared pieces: `Wrappers` (Option), `Text` (ASCII `trim`, case mapping,
`split`, decimal formatting), `Json` (values, string escaping, compact
rendering as `serde_json` does it), `Yaml` (nodes and the scalar accessors
of `yaml_rust2`), and `Collections` (maps built by repeated
`HashMap::insert`, where the last entry for a key wins).

Inputs that the Rust code reads from files, the environment or the network
are parameters here. A configuration file arrives as a record of YAML
nodes, with `YBadValue` standing for an absent key. The tool catalog
arrives already parsed, or as `None` when loading failed. A response stream
arrives as a sequence of chunks, each classified as a parsed event or as a
malformed body.

Behaviour of the code that the model keeps as written:
- `get_common_tools` unwraps the catalog for ALL and for a name list, so it
  panics when no catalog is loaded. The model makes a loaded catalog a
  precondition of those two cases; NONE needs no catalog.
- `process_stream` tests `error_count > 5` before incrementing, so the
  seventh malformed chunk ends the read and only six back-off delays are
  ever slept.

## Model

| member | source | states |
|---|---|---|
| Messages.ParseRole | src/message.rs:5-13 | Each role has exactly one lowercase wire name: parsing a name yields the unique role whose name it is, and nothing for any other text |
| Messages.NewToolToCall | src/ai_tool_to_call.rs:19-32 | A new tool call reports the given function name and stores the argument map unchanged |
| Messages.GetArguments | src/ai_tool_to_call.rs:34-44 | The rendered arguments have the same keys and count as the stored arguments, and each value is the JSON text of the stored value |
| Messages.GetArgumentsOfString | src/ai_tool_to_call.rs:39-42 | A string argument is rendered as a quoted JSON string literal that parses back to the original string |
| Messages.NewMessage | src/message.rs:24-42 | A new message reports the given role and content and has no tool calls |
| Messages.NewWithTools | src/ai_stream_helper.rs:55-56 | A message built with tools reports the given role and content and exactly the given tool calls |
| Messages.MessageToJson | src/message.rs:15-21 | The wire form has the keys role and content, plus tool_calls exactly when tool calls are present; the role is written as its lowercase name |
| Messages.ArgumentsRoundTrip | src/ai_tool_to_call.rs:12-16 | Decoding the wire object of an argument map gives back the same map |
| Messages.ToolCallRoundTrip | src/ai_tool_to_call.rs:7-16 | Decoding the wire form of a tool call gives back the same tool call |
| Messages.ToolCallsRoundTrip | src/message.rs:19-20 | Decoding the wire list of tool calls gives back the same list, in order |
| Messages.MessageRoundTrip | src/message.rs:15-21 | Decoding the wire form of a message gives back the same message, with or without tool calls |
| MessageExamples.GetArgumentsExample | src/ai_tool_to_call.rs:80-91 | The unit-test tool call renders its string argument Value1 as the JSON text "Value1" in quotes |
| MessageExamples.GetToolsExample | src/message.rs:73-91 | The unit-test message returns its role USER and the function name FunctName of its first tool call |
| Tools.Selected | src/ai_tools.rs:78-80 | Filtering keeps exactly the catalog entries whose function name is selected and is never longer than the catalog |
| Tools.GetCommonTools | src/ai_tools.rs:74-82 | NONE gives None; ALL gives the whole catalog; a name list gives exactly the catalog entries named in it and never more entries than the catalog |
| Tools.SelectedCount | src/ai_tools.rs:79-80 | Each selected entry is kept as many times as the catalog lists it; repeating a name adds nothing |
| Tools.SelectedAppend | src/ai_tools.rs:80 | Filtering distributes over concatenation of catalogs, so catalog order is kept |
| Tools.SelectedEverything | src/ai_tools.rs:80 | When every catalog name is selected, the filter returns the catalog unchanged |
| Tools.SelectedNothing | src/ai_tools.rs:80 | When no catalog name is selected, the filter returns an empty list |
| Tools.FunctionsCoveringCatalog | src/ai_tools.rs:77-80 | A name list covering every catalog function gives the same result as ALL |
| Tools.FunctionsBySet | src/ai_tools.rs:79 | Only the set of names matters: name lists with the same members give the same tools |
| ToolExamples.AllKeepsOrder | src/ai_tools.rs:153-160 | With ALL, entry 0 is get_current_weather and entry 2 is do_math_expressions |
| ToolExamples.OneCommonName | src/ai_tools.rs:145-151 | Selecting do_math_expressions yields exactly that catalog entry |
| ToolExamples.NoCommonName | src/ai_tools.rs:170-177 | Selecting an unknown name yields an empty list, not None |
| ToolExamples.NoneWithoutCatalog | src/ai_tools.rs:162-168 | NONE yields None even without a loaded catalog |
| AiConfig.FromStrList | src/ai_config.rs:53-59 | The name list has one entry per comma plus one; entry i is the trimmed i-th comma-separated piece, so it has no surrounding whitespace and no comma |
| AiConfig.FromString | src/ai_config.rs:62-70 | The result is ALL exactly when the text is "all" in any letter case, NONE exactly when it is "none" in any letter case, and otherwise the comma-separated name list |
| AiConfig.UpperIsWord | src/ai_config.rs:64-66 | Upper-casing a text gives an upper-case word exactly when the text equals that word ignoring case |
| AiConfig.FromYaml | src/ai_config.rs:72-80 | Only the exact YAML strings "ALL" and "NONE" select ALL and NONE; anything else is a name list made of the string items of a YAML list |
| AiConfig.FromStrListJoin | src/ai_config.rs:54-58 | Joining trimmed comma-free names with commas and parsing the result gives back the same names, in order |
| AiConfig.ResolvePort | src/ai_config.rs:110-123 | An integer port in [0, 65535] is kept; anything else becomes 11434; the result always fits 16 bits |
| AiConfig.ResolveCtxMax | src/ai_config.rs:141-161 | A positive integer context size is kept; anything else becomes 5; the result is at least 1 |
| AiConfig.BaseUrl | src/ai_config.rs:174-181 | The base URL is never empty and ends with a '/' |
| AiConfig.BaseUrlRoundTrip | src/ai_config.rs:174-181 | A base URL decodes back to its scheme, host, port and path, for any host without a ':' |
| AiConfig.ParseAuthorityRoundTrip | src/ai_config.rs:174-175 | The part after the scheme decodes back to the host, the decimal port and the path |
| AiConfig.BuildModel | src/ai_config.rs:183-194 | A model entry's name defaults to its id, tool support to false, the prompt to "You are an AI assistance", and its tools follow the YAML policy |
| AiConfig.BuildPlatform | src/ai_config.rs:132-200 | A platform's base URL uses the resolved host (localhost by default), port and scheme (https by default) and the path (default api); the segments default to chat, generate and models; the context size is the resolved `ctx_max`; the model map has one key per distinct model id |
| AiConfig.BuildPlatformModel | src/ai_config.rs:183-194 | A model id listed several times in a platform maps to the model built from its last entry |
| AiConfig.BuildPlatformsValid | src/ai_config.rs:107-207 | Every platform built has a context size of at least 1 and a '/'-terminated base URL |
| AiConfig.NewConfig | src/ai_config.rs:107-212 | The name defaults to BachuetechAI; the platform names are exactly the names of the run environment's entries (default "default"); every platform is valid |
| AiConfig.NewConfigPlatform | src/ai_config.rs:202-205 | A platform name listed several times keeps the platform built from its last entry |
| AiConfig.GetPlatformList | src/ai_config.rs:249-251 | The listed names are exactly the configured platform names |
| AiConfig.GetUrl | src/ai_config.rs:224-247 | A known platform's URL is its base URL followed by the segment for the interaction kind; an unknown platform gets http://localhost/default/ followed by chat, generate or models |
| AiConfig.GetModels | src/ai_config.rs:253-259 | The model map is returned exactly for a known platform, None otherwise |
| AiConfig.GetMaxCtxSize | src/ai_config.rs:261-267 | A known platform's context size is returned, 1 for an unknown one, and the result is never 0 for a built configuration |
| AiConfig.GetUrlOfEntry | src/ai_config.rs:168-181 | End to end: the URL of an endpoint of a configured platform is the base URL built from its last entry followed by that entry's segment |
| AiConfigExamples.AllInAnyCase | src/ai_config.rs:320-325 | "All" parses as ALL |
| AiConfigExamples.NoneInAnyCase | src/ai_config.rs:320-325 | "None" parses as NONE |
| AiConfigExamples.SingleFunctionName | src/ai_config.rs:327-339 | "Fake_func" parses as a one-name list holding "Fake_func" |
| AiConfigExamples.KnownPlatformUrls | src/ai_config.rs:283-294 | For a local Ollama entry, the chat URL is http://localhost:11434/api/chat, the models URL ends in api/tags and the context size is 20 |
| AiConfigExamples.DefaultedPlatformUrls | src/ai_config.rs:296-305 | For an entry without port or context size, the chat URL is http://127.0.0.1:11434/api/chat, the context size 5 and the model map empty |
| AiConfigExamples.UnknownEnvironment | src/ai_config.rs:307-318 | An unknown run environment has no platforms, the default models URL, context size 1 and no model map |
| ChatRequests.BuildChatRequest | src/ai_chat_helper.rs:59-80 | Model, stream flag and tools are copied; with a system prompt the first message is a system message with the date/time suffix; then the context, unchanged and in order; the last message is the new one without tool calls; the length is the context's plus one or two |
| ChatRequests.HistoryGrows | src/ai_chat_helper.rs:70-72 | After the optional system message, the messages are the context followed by the new message |
| ChatRequests.NoSystemPromptAdded | src/ai_chat_helper.rs:63-72 | Without a system prompt the messages are exactly the context followed by the new message |
| ChatRequests.RequestToJson | src/ai_chat_helper.rs:9-16 | The wire keys are model, messages and stream, plus tools exactly when tools are present |
| ChatRequests.RenderPlainRequest | src/ai_chat_helper.rs:46-50 | For a request without tools and with text that needs no escaping, the compact JSON is the hand-written reference text of the request |
| ChatRequestExamples.TestRequestJson | src/ai_chat_helper.rs:91-115 | The unit-test request renders to exactly the JSON text the test expects |
| Streams.ProcessStream | src/ai_stream_helper.rs:10-92 | The answer carries the last parsed event's metadata and role, the concatenated content and the first tool-call list of the chunks read; the address is the last read chunk's ("0.0.0.0" when none); the error count is capped at 6 and the delays are 1..count ms |
| Streams.ConsumedStops | src/ai_stream_helper.rs:42-46 | A malformed chunk preceded by six malformed chunks is the last chunk read |
| Streams.ConsumedBound | src/ai_stream_helper.rs:31-47 | Every chunk read was preceded by at most six malformed chunks |
| Streams.NoMalformedReadsAll | src/ai_stream_helper.rs:31-41 | A stream without malformed chunks is read to its end |
| Streams.MalformedCountMonotone | src/ai_stream_helper.rs:42-47 | The failure count never goes down as more chunks are read |
| Streams.ContentsAppend | src/ai_stream_helper.rs:36 | The content of two stream pieces is the content of the first followed by the content of the second |
| Streams.FirstToolsWins | src/ai_stream_helper.rs:38-40 | The first parsed chunk carrying tool calls decides the tool calls, whatever follows |
| Streams.Delays | src/ai_stream_helper.rs:47-49 | After k failures the delays slept are 1, 2, ..., k milliseconds |
| Streams.FinalMessage | src/ai_stream_helper.rs:54-59 | The final message has the given role and content, and tool calls exactly when some were captured |
| StreamExamples.ThreeChunks | src/ai_stream_helper.rs:31-41 | Chunks with contents a, b and c are all read and aggregate to "abc", with the last chunk's event as metadata and no tool calls |
| StreamExamples.GarbageInBetween | src/ai_stream_helper.rs:42-50 | A malformed chunk between two parsed ones is counted and skipped, and reading goes on |
| StreamExamples.SeventhErrorStops | src/ai_stream_helper.rs:43-45 | After seven malformed chunks nothing more is read, and the no-response event is kept with empty content |
| ModelConfiguration.ParamMap | src/model_configs.rs:44-61 | A parameter map has one key per distinct param_id, with "UNKNOWN" for an entry without one |
| ModelConfiguration.ParamMapLastWins | src/model_configs.rs:46-49 | An id listed several times keeps the value of its last entry |
| ModelConfiguration.BuildModelConfig | src/model_configs.rs:62-72 | An entry's model path defaults to qwen3:latest and its prompt to the empty text; it shares the root folder, its tools follow the YAML policy, and it starts with no custom parameters |
| ModelConfiguration.NewModelConfigs | src/model_configs.rs:41-77 | The configured ids are exactly the ids of the environment's entries (default "default") |
| ModelConfiguration.NewModelConfigsEntry | src/model_configs.rs:62-72 | A model id listed several times keeps the configuration built from its last entry |
| ModelConfiguration.NewModelConfigsFresh | src/model_configs.rs:38-40 | Every configuration has the environment's root folder (default "models") and no custom parameter |
| ModelConfiguration.GetModelConfigs | src/model_configs.rs:82-87 | A known id gives its configuration, an unknown one None |
| ModelConfiguration.NormalKey | src/model_configs.rs:92 | A stored custom key has no surrounding whitespace |
| ModelConfiguration.NormalKeyLower | src/model_configs.rs:92 | A stored custom key has no upper-case letter |
| ModelConfiguration.NormalKeyIdempotent | src/model_configs.rs:92 | Normalising a normalised key changes nothing |
| ModelConfiguration.NormalKeyOfKey | src/model_configs.rs:91-93 | The stored key is the lower-cased slice of the given key between a run of leading and a run of trailing whitespace |
| ModelConfiguration.NormalKeyOfNormal | src/model_configs.rs:91-93 | A key that is already trimmed and lower-case is stored exactly as given |
| ModelConfiguration.SetCustomParam | src/model_configs.rs:91-93 | Setting stores the value under the normalised key, keeps every other key and value, returns the key's previous value if any, and changes no other field |
| ModelConfiguration.GetCustomParam | src/model_configs.rs:99-101 | Lookup is verbatim: it finds a value exactly when that exact key is stored |
| ModelConfiguration.SetKeepsNormalised | src/model_configs.rs:91-93 | Setting keeps every stored key in normal form |
| ModelConfiguration.GetAfterSet | src/model_configs.rs:91-101 | A value set is read back under the normalised key, and every other key reads as before |
| ModelConfiguration.GetUnnormalisedMisses | src/model_configs.rs:99-101 | With normalised keys, looking up a key not in normal form always misses |
| ModelConfiguration.SetTwice | src/model_configs.rs:91-93 | Setting twice under keys with the same normal form returns the first value and keeps the second |
| ModelConfiguration.GetModelFilePath | src/model_configs.rs:95-97 | The file path is the root folder, one '/', then the model path |
| ModelConfiguration.FilePathDeterminesModel | src/model_configs.rs:95-97 | Within one root folder, the file path determines the model path |
| ModelConfiguration.GetSystem | src/model_configs.rs:107-109 | The system prompt is always present |
| ModelConfiguration.GetCtxParam | src/model_configs.rs:115-117 | A context parameter is found exactly when its id is stored, with its stored node |
| ModelConfiguration.GetModelParam | src/model_configs.rs:123-125 | A model parameter is found exactly when its id is stored, with its stored node |
| ModelConfiguration.GetSamplerParam | src/model_configs.rs:131-133 | A sampler parameter is found exactly when its id is stored, with its stored node |
| ModelConfiguration.GetModelDisableGpu | src/model_configs.rs:166-169 | The GPU is disabled exactly when the model parameter disable_gpu is the boolean true; missing or non-boolean means false |
| ModelConfiguration.DisableGpuOfEntry | src/model_configs.rs:50-55 | For a built entry, the switch is the boolean of its last disable_gpu parameter |
| ModelConfiguration.DisableGpuDefault | src/model_configs.rs:166-169 | An entry without a disable_gpu parameter keeps the GPU enabled |
| ModelConfigExamples.CustomKeyIsNormalised | src/model_configs.rs:91-101 | After setting " Foo ", a lookup of "foo" finds the value and a lookup of " Foo " does not |
| ModelConfigExamples.EmptyEntry | src/model_configs.rs:62-66 | An entry without fields has id "default", file path models/qwen3:latest, an empty prompt and the GPU enabled |

## Left out

- File and YAML loading, environment-variable overrides of file paths, and the fatal `process::exit` when the configuration cannot be read (`get_yaml`, `get_file`): the model starts from already-parsed records.
- `parameter_names.rs`: string constants only; the one used here, `disable_gpu`, is `ModelConfiguration.DisableGpuParam`.
- HTTP transport: reading chunks, the status code and the headers that `process_stream` copies into its answer. Chunks are a sequence; status and headers are not modelled.
- `thread::sleep`: the sleeps become the returned list of delays in milliseconds.
- Logging macros.
- serde parsing of a chunk body: a chunk arrives already classified as a parsed event or as malformed.
- The serialisation-failure branches (`get_chat_request_json` fallback text, the empty body in `process_stream`): serde cannot fail on these types.
- The JSON body that `process_stream` serialises its answer into: the answer is returned as a record.
- Floats, the random seed and the integer casts of the sampler getters (`get_sampler_temperature`, `get_sampler_top_p`, `get_sampler_top_k`, `get_sampler_seed`, `get_sampler_repeat_penalty`, `get_sampler_repeat_last_n`).
- JSON numbers other than integers, because floats are out of scope.
- `remove_char` (an external crate) on the root folder: the root folder is used as written.
- `get_path`, `get_ctx_parameters`, `get_model_parameters`, `get_sampler_parameters`, `get_name`, and the message getters `get_function_name`, `get_content`, `get_role` and `get_tools` (`Messages.GetFunctionName`, `Messages.GetContent`, `Messages.GetRole`, `Messages.GetTools`) are modelled as plain field reads and have no row; the constructors' contracts are stated through them.
- `AIChatBodyMessage`: declared but not used by the core.
- `AIToolManager::new`: the manager is built from an already-parsed catalog, or from None.
- The second copy of `ToolToCall` in `ai_tools.rs`: it is identical to the one in `ai_tool_to_call.rs` and is modelled once.
- Tools.GetCommonTools: requires a loaded catalog for ALL and for a name list, because the source unwraps it and panics otherwise.
- Streams.ProcessStream: the response record declares plain metadata fields, but the stream helper builds them with `Some(..)`; the metadata is modelled as options.
- AiConfig.FromYaml: `convert_yaml_to_vec_string` is an external crate; it is taken to collect the string items of a YAML list and to give an empty list otherwise.
- AiConfig.GetPlatformList: the names are a set, because HashMap iteration order is not modelled.
- Messages.MessageToJson: the order in which tool-call arguments and tool properties are written follows HashMap order, so the wire trees are ghost and fix some order without naming it.
- ChatRequests.RenderPlainRequest: the exact text is proved only for requests without tools and with text that needs no escaping; escaping itself is proved separately to round-trip.
- AiConfig.BaseUrlRoundTrip: holds for hosts without ':', because a bracketed IPv6 host would make the port separator ambiguous.
- Unicode `trim`, `to_uppercase` and `to_lowercase`: approximated by their ASCII behaviour.
