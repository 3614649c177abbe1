# gnmic core, modelled in Dafny

gnmic is a gNMI telemetry client. It builds gNMI Subscribe and Get requests from command-line flags and sends them to network devices. It formats the responses into its canonical JSON message and hands that message to output sinks. One such sink is the STAN (NATS Streaming) output. This project models the deterministic part of three files:

- `outputs/stan_output/stan_output.go`, module `Stan`:
  - configuration defaulting and validation (`setDefaults`), which changes the sink's configuration in place;
  - the subject a message is published on (`subjectName`);
  - the per-worker configuration copies made by `Init`;
  - the nil guard and channel handoff of `Write`;
  - the connect-and-retry loop of `createSTANConn`, taken over a sequence of attempt outcomes;
  - the per-message marshal-then-publish step of `worker`, with its counters.

  `StanOutput` is a class whose methods update its fields in place.
- `cmd/subscribe.go`, module `Subscribe`:
  - `createSubscribeRequest`, as the flag checks in their order followed by the per-path loop;
  - `formatSubscribeResponse` and the canonical message it builds;
  - the per-response decision of the read loop in `subRequest`;
  - the model negotiation applied to the request;
  - `getSubscriptions`.
- `cmd/get.go`, module `Get`:
  - `createGetRequest`;
  - the per-target model append of `getRequest`;
  - the text `printGetResponse` prints.

Shared pieces live in separate modules:

- `Text`: the Go string functions used.
- `Gnmi`: the protocol messages and enumeration tables.
- `Cmd`: the canonical message, the update-formatting loop that both commands share, encoding parsing and the collaborator functions.
- `Wrappers`: `Option` and `Result`.

The functions the core calls without defining them are fields of `Cmd.Collaborators`. The model says nothing about them beyond their types. They are:

- path parsing (`xpath.ToGNMIPath`) and rendering (`gnmiPathToXPath`);
- `getValue`;
- `time.ParseDuration` and `viper.GetDuration`;
- `json.Marshal`, `json.MarshalIndent` and `indent`;
- `prototext.Format`.

Flag values become plain parameters (`SubscribeFlags`, `GetFlags`). Outcomes of the network, the clock and the channel are explicit inputs:

- a connect attempt's success;
- a publish's success;
- which branch of `Write`'s `select` fired;
- the supported and unsupported models a capability query returns.

Durations are `int` nanosecond counts. Go's `uint64(d)` conversion is written out as `d` modulo 2^64 (`Gnmi.ToUint64`).

Notes on the code's behaviour:

- When the capability query behind model negotiation fails, the code logs the failure and abandons that target's session (`cmd/subscribe.go:203-205`, `cmd/get.go:77-79`); it does not go on with an unfiltered request. `Subscribe.NegotiatedRequest` and `Get.RequestForTarget` return no request in that case.
- Nothing in `createSubscribeRequest` checks that the sample interval is positive. A zero or negative duration is converted as it is.
- A model-negotiation result replaces the subscribe request with a new one (`cmd/subscribe.go:215-227`). The get command instead appends to the shared request object (see Findings).

## Model

| member | source | states |
|---|---|---|
| Text.ReplaceChar | outputs/stan_output/stan_output.go:307-308 | strings.ReplaceAll with one-character strings: same length, each occurrence of the pattern replaced and every other character kept, so no occurrence remains |
| Text.ReplaceCharAppend | outputs/stan_output/stan_output.go:316 | replacing in a concatenation is replacing in each part |
| Text.ReplaceCharAbsent | outputs/stan_output/stan_output.go:318 | a string without the pattern is left unchanged |
| Text.ToUpper | cmd/subscribe.go:285 | strings.ToUpper, character by character, for every character that can map to an ASCII letter; length kept |
| Text.ToUpperIdentity | cmd/subscribe.go:285 | a name without lower-case letters is its own upper case |
| Text.TrimSpace | cmd/subscribe.go:300 | strings.TrimSpace: leading white space removed (TrimLeft), then trailing white space (TrimRight), with white space as unicode.IsSpace defines it; what this leaves is stated by TrimSpaceSlice |
| Text.TrimLeftSuffix | cmd/subscribe.go:300 | TrimLeft keeps a suffix of its input, and exactly the leading white space is dropped |
| Text.TrimRightPrefix | cmd/subscribe.go:300 | TrimRight keeps a prefix of its input, and exactly the trailing white space is dropped |
| Text.TrimSpaceSlice | cmd/subscribe.go:300 | strings.TrimSpace leaves a slice of its input with only white space cut on either side; the slice neither starts nor ends with white space; a string without white space is kept |
| Text.SplitJoin | cmd/subscribe.go:411 | splitting the "/"-joined element names on "/" gives them back when none contains "/" |
| Text.NatToString | outputs/stan_output/stan_output.go:138 | the %d rendering is a non-empty string of digits |
| Text.ParseNatToString | outputs/stan_output/stan_output.go:138 | reading the decimal rendering back gives the number |
| Text.NatToStringInjective | outputs/stan_output/stan_output.go:138 | different numbers render differently |
| Gnmi.ToUint64 | cmd/subscribe.go:314 | uint64 of a signed nanosecond count: unchanged when non-negative, plus 2^64 when negative |
| Gnmi.EncodingByName | cmd/subscribe.go:281 | the Encoding_value table: a name is found exactly when it is an encoding's protocol name |
| Gnmi.ListModeByName | cmd/subscribe.go:285 | the SubscriptionList_Mode_value table, both directions |
| Gnmi.SubscriptionModeByName | cmd/subscribe.go:307 | the SubscriptionMode_value table, both directions |
| Gnmi.DataTypeByName | cmd/get.go:186 | the GetRequest_DataType_value table, both directions |
| Cmd.ParseEncoding | cmd/subscribe.go:281-284 | an encoding is accepted exactly when its upper-cased, "-"→"_" form is an encoding name, and it is that encoding |
| Cmd.NormalizedLowerDashed | cmd/subscribe.go:281 | normalizing the lower-case dashed spelling of an upper-case name gives the name back |
| Cmd.ParseEncodingSpellings | cmd/subscribe.go:281-284 | every encoding is accepted under its protocol name and in lower case with dashes ("json-ietf") |
| Cmd.ValueKeyNames | cmd/subscribe.go:397-411 | an update's value key gives back its path element names |
| Cmd.CollectElemNames | cmd/subscribe.go:398-401 | the element names of a path, in order |
| Cmd.FormatUpdates | cmd/subscribe.go:397-412 | one entry per update, in order: the rendered path, and a values map with exactly one key (the element names joined by "/") holding the decoded value |
| Stan.Defaults | outputs/stan_output/stan_output.go:150-182 | error exactly when the cluster name is empty (checked first) or the defaulted format is not event, protojson, proto or json; otherwise every unset field gets its default, every set field is kept, and the result is complete |
| Stan.CompleteIsFixedPoint | outputs/stan_output/stan_output.go:150-182 | a complete configuration is left unchanged, whatever name would be generated |
| Stan.DefaultsIdempotent | outputs/stan_output/stan_output.go:150-182 | a successful setDefaults run again on its own result changes nothing |
| Stan.StanOutput.constructor | outputs/stan_output/stan_output.go:36-42 | the registered sink starts with an empty configuration, not initialized, with no workers, messages or counts |
| Stan.StanOutput.SetDefaults | outputs/stan_output/stan_output.go:150-182 | the in-place defaulting ends in Defaults' result; on an error, the fields set before the failing check stay set |
| Stan.StanOutput.ApplyFieldDefaults | outputs/stan_output/stan_output.go:157-171 | the subject, recovery wait time, write timeout, worker count and format defaults, applied in place, leave the configuration BeforeFormatCheck describes; no other field changes |
| Stan.SourceSegment | outputs/stan_output/stan_output.go:306-308 | the source segment has neither "." nor " " |
| Stan.SourceSegmentExample | outputs/stan_output/stan_output.go:307-308 | "dev.1" becomes "dev-1" |
| Stan.SubjectName | outputs/stan_output/stan_output.go:302-319 | the subject never holds a space; with no prefix it is the subject with spaces turned to "_"; with a prefix it starts with the prefix, spaces replaced (its whole value: SubjectNameSegments) |
| Stan.SubjectNameSegments | outputs/stan_output/stan_output.go:303-316 | with a prefix, the subject is the prefix, then "." and the source segment when the meta has a source, then "." and the subscription name when it has one, spaces replaced throughout |
| Stan.SubjectNameExample | outputs/stan_output/stan_output.go:303-316 | prefix "t", source "dev.1" and subscription "s1" give "t.dev-1.s1" |
| Stan.WorkerNamesDistinct | outputs/stan_output/stan_output.go:136-140 | the names "name-i" of different workers differ |
| Stan.WorkerConfigs | outputs/stan_output/stan_output.go:136-140 | one configuration per worker (none when NumWorkers ≤ 0), worker i named name-i, all other fields equal to the sink's, names pairwise distinct |
| Stan.StanOutput.Init | outputs/stan_output/stan_output.go:119-140 | fails exactly when setDefaults does, and then starts no worker and leaves the configuration as far as setDefaults got (the generated name only, when the cluster name is missing; every default before the format check, when the format is unsupported); otherwise the sink is ready with the defaulted configuration and one connecting worker per configured count |
| Stan.StanOutput.Write | outputs/stan_output/stan_output.go:185-201 | a nil message or an uninitialized sink changes nothing; an accepted handoff queues the message and its meta; a write timeout counts one "timeout" failure; a done context changes nothing |
| Stan.ConnectLoop | outputs/stan_output/stan_output.go:220-256 | connected exactly when some attempt succeeds, after exactly the failed attempts before the first success |
| Stan.ConnectsAfterFailures | outputs/stan_output/stan_output.go:231-255 | k failed attempts then a success: connected after k failures |
| Stan.NeverGivesUp | outputs/stan_output/stan_output.go:231-253 | any number of failures leaves the worker still connecting, never in another state |
| Stan.StanOutput.Connect | outputs/stan_output/stan_output.go:220-256 | the worker's connection state and failure count are those of ConnectLoop; other workers are unchanged |
| Stan.Bump | outputs/stan_output/stan_output.go:296-297 | a counter moves by the given amount and no other counter moves |
| Stan.Classify | outputs/stan_output/stan_output.go:274-297 | a marshal error, a publish error, or a send of the marshalled length, exactly one of them |
| Stan.Record | outputs/stan_output/stan_output.go:274-297 | exactly one of marshal_error, publish_error or sent messages moves, by one; sent bytes grow by the length on a send; every other counter is unchanged |
| Stan.StanOutput.Deliver | outputs/stan_output/stan_output.go:273-297 | the worker takes the oldest queued message, its counters move as Record says for the subject SubjectName gives, and only a publish failure sends it back to connecting |
| Subscribe.ParseListMode | cmd/subscribe.go:285-288 | a list mode is accepted exactly when its upper-cased form is a mode name ("-" is not replaced) |
| Subscribe.ParseStreamMode | cmd/subscribe.go:307-310 | a stream mode is accepted exactly when its upper-cased, "-"→"_" form is a mode name |
| Subscribe.ModeSubscription | cmd/subscribe.go:304-327 | the subscription the mode switch builds for one parsed path: TARGET_DEFINED with nothing set outside STREAM; under STREAM the stream mode, with ON_CHANGE carrying only the heartbeat and SAMPLE or TARGET_DEFINED the sample interval, suppress-redundant and, when suppressing, the heartbeat, each converted by uint64 |
| Subscribe.ModeSubscriptionRules | cmd/subscribe.go:304-327 | the subscription for one path follows the mode rules: ONCE and POLL set nothing; ON_CHANGE only the heartbeat; SAMPLE and TARGET_DEFINED the sample interval and suppress-redundant, and the heartbeat only when suppressing |
| Subscribe.MakeSubscription | cmd/subscribe.go:304-327 | builds, field by field, the subscription ModeSubscription describes |
| Subscribe.SubscriptionFor | cmd/subscribe.go:300-327 | a path that does not parse gives the parser's error; under STREAM an unknown stream mode is an error naming the flag's text; otherwise the subscription follows the mode rules |
| Subscribe.CheckFlags | cmd/subscribe.go:273-297 | the errors in createSubscribeRequest's order: no path, prefix, encoding, list mode, sample interval, heartbeat interval; success carries the parsed values |
| Subscribe.BuildSubscriptions | cmd/subscribe.go:298-329 | succeeds exactly when every trimmed path parses and, under STREAM with at least one path, the stream mode is known; one subscription per path, in order, each as ModeSubscription describes; under STREAM with an unknown stream mode the error is the stream-mode one exactly when the first path parses; a parse error is that of the first failing path |
| Subscribe.CreateSubscribeRequest | cmd/subscribe.go:272-342 | succeeds exactly when every check passes; a failed flag check gives CheckFlags' error; after them, an unknown stream mode under STREAM is the error exactly when the first path parses, and otherwise the error is the first failing path's parse error; the request carries the parsed prefix, mode and encoding, the given qos and updates-only, no models, and one subscription per path in order, following the mode rules |
| Subscribe.SubscribeMessage | cmd/subscribe.go:379-413 | the canonical message of a notification: the source, system name and subscription name from the meta map (empty when absent), the timestamp, the rendered prefix, the update entries in order and the rendered deletes in order |
| Subscribe.BuildMessage | cmd/subscribe.go:379-415 | timestamp copied; source, system name and subscription name set only when the meta key is present; prefix rendered; updates formatted in order; deletes rendered in order |
| Subscribe.FormatSubscribeResponse | cmd/subscribe.go:373-423 | a non-update response gives nothing and no error; textproto gives the text form; otherwise the marshalled message, or the marshaller's error |
| Subscribe.React | cmd/subscribe.go:231-269 | the loop stops exactly on cancellation, on a sync response under ONCE, on a format error, or on an indent failure when printing; an update is written to the outputs with meta source = address exactly when it formats; a stream error changes nothing |
| Subscribe.ReadLoopStep | cmd/subscribe.go:234-257 | an update response is formatted with the target's address as the meta source and React decides: textproto writes the text form and never stops; otherwise a marshal failure stops without writing, and a marshalled message is written with source = address, echoed exactly when not quiet and indented, and stops the loop exactly when not quiet and the indent fails |
| Subscribe.NegotiatedRequest | cmd/subscribe.go:199-229 | the request unchanged when no model is asked for or none is supported; no request when the capability query fails; otherwise the models become exactly the supported ones and updates-only is the flag's value, nothing else changing |
| Subscribe.GetSubscriptions | cmd/subscribe.go:471-514 | with paths, exactly one subscription, "default", built from the flags; otherwise one per configured entry, named by its key, or the error of an entry that failed to decode |
| Get.ParseDataType | cmd/get.go:184-191 | a data type is accepted exactly when its upper-cased form is ALL, CONFIG, STATE or OPERATIONAL |
| Get.ParseDataTypeNames | cmd/get.go:186 | each data type is accepted under its protocol name |
| Get.PrefixAsWritten | cmd/get.go:170-182 | createGetRequest's rule: a parsed prefix is used as it is; with no parsed prefix, a target alone gives a path carrying only that target |
| Get.PrefixAsWrittenDropsTarget | cmd/get.go:172-181 | prefix "/interfaces" with target "router1" yields a prefix without the target |
| Get.Prefix | cmd/get.go:170-182 | a non-empty target is always the prefix's target; the prefix's origin and elements are kept; no prefix exactly when neither is given |
| Get.PrefixAgreement | cmd/get.go:170-182 | the two rules agree exactly when no prefix was parsed, no target was given, or the parsed target already equals it |
| Get.GetHeader | cmd/get.go:159-191 | invalid encoding first, then a prefix parse error (only when prefix or target is given), then an unknown non-empty data type, each error given exactly when the checks before it pass; the prefix is set by PrefixAsWritten, as the code does; an empty data type keeps ALL |
| Get.GetHeaderCorrected | cmd/get.go:170-182 | the same checks and request as GetHeader, with the target always carried by the prefix |
| Get.GetHeaderDropsTarget | cmd/get.go:170-182 | prefix "/interfaces" with target "router1": the request's prefix carries no target, while the corrected header carries "router1" |
| Get.ParsePaths | cmd/get.go:192-198 | one parsed, trimmed path per input, in order; any parse error aborts, and it is the first failing path's |
| Get.CreateGetRequest | cmd/get.go:159-200 | succeeds exactly when the header checks and every path parse succeed; a failed header check gives GetHeader's error, otherwise the error is the first failing path's parse error; the request is the header as the code builds it, with the paths in order and no models |
| Get.SharedGetRequest.constructor | cmd/get.go:73 | the request object every target's goroutine receives |
| Get.SharedGetRequest.AppendModels | cmd/get.go:84-86 | the supported models are appended, in order, to the object's existing models; nothing else changes |
| Get.TwoTargetsAsWritten | cmd/get.go:73-86 | two targets in turn on the shared object: the second is sent the first target's supported models before its own |
| Get.RequestForTarget | cmd/get.go:73-87 | the corrected per-target rule (each target works on its own copy): the request unchanged when no model is asked for; no request when the capability query fails; otherwise the request with exactly that target's own supported models appended, in order, and nothing else changed |
| Get.AttachModels | cmd/get.go:73-87 | the append loop on the target's own copy gives RequestForTarget |
| Get.PrintPrefix | cmd/get.go:101-105 | "[name] " exactly when there is more than one target and no-prefix is off, else "" |
| Get.GetMessage | cmd/get.go:111-132 | the message printed for a notification: source is the target name, no system or subscription name, the timestamp, the rendered prefix, the update entries in order, no deletes |
| Get.GetMessageIsSubscribeMessage | cmd/get.go:110-132 | the get message is the subscribe message with the target's name as the only meta and no deletes |
| Get.BuildGetMessage | cmd/get.go:110-132 | source is the target name, timestamp unchanged, prefix rendered, updates in order with one "/"-joined key each, no deletes |
| Get.Printed | cmd/get.go:110-140 | what printGetResponse prints for the notifications: each message's indented text after the print prefix on its own line, then an empty line; a message the marshaller rejects ends the output there, with no empty line |
| Get.Lines | cmd/get.go:110-137 | the message lines: each message's indented text, prefixed, on its own line; non-empty and ending in a newline when there is a message |
| Get.PrintedAllMessages | cmd/get.go:110-140 | when every message marshals, the output is every message line followed by the closing empty line |
| Get.PrintedStopsAtFailure | cmd/get.go:133-137 | a message that fails to marshal ends the output: what came before is printed, and the closing empty line is not |
| Get.MarshalNotification | cmd/get.go:111-133 | the message built for one notification and handed to the indenting marshaller with the print prefix: the marshaller's result for GetMessage |
| Get.PrintGetResponse | cmd/get.go:100-141 | textproto prints the indented text form and a newline; otherwise each message prefixed and on its own line, then an empty line, stopping at a marshal failure |

## Left out

- Flag and configuration reading (cobra and viper): the flag values are parameters. This covers:
  - the bound-key mismatches: `subscribe-sub-model` is bound while `subscribe-model` is read, and `subscribe-qos` is bound while `qos` is read;
  - the `[""]` slice defaults of the path and model flags;
  - the `RunE` bodies.
- Decoding the sink configuration (`outputs.DecodeConfig`): `Init` takes the decoded configuration. The decode's own errors are not modelled.
- Network I/O, goroutines and timing:
  - the gRPC clients;
  - NATS and STAN connections and `Publish`, reduced to success flags;
  - `time.Sleep`, the write timeout's timer, `Close`, and WaitGroups;
  - the poll prompt and its single-slot channel.
- The unbuffered intake channel is a queue of handed-over messages. `Write`'s `select` outcome is an input.
- `getOutputs` and `SetEventProcessors`: registry lookups over untyped maps.
- `filterModels`: its (supported, unsupported) result is an input.
- Prometheus metrics: counts are naturals. The float send-duration gauge is not kept.
- Log output, and the derived `time` field of the canonical message.
- Stan.StanOutput.Init: requires a sink not yet initialized. The command initializes each output once, and a second failing `Init` in the source would leave a half-defaulted configuration behind.
- Text.ToUpper: models Go's upper-casing only for characters that can map to an ASCII letter. Other characters are kept, and no name in the enumeration tables can be reached from them.
- Subscribe.React: the indentation step is an input, `indentOk`. It only decides whether the loop stops; the indented text itself is not modelled.
- Subscribe.GetSubscriptions: the map decode of each configured entry is an input. Go's random map order is a nondeterministic choice, so when several entries fail, which error is returned is not determined.
- An update whose path is nil (a Go nil dereference) cannot be expressed: `Update.path` is always present.

## Findings

| source | as written | input that shows it | evidently intended | confidence | as-written member | corrected member |
|---|---|---|---|---|---|---|
| cmd/get.go:170-182 | when both a prefix and a target are given, the parsed prefix is used as it is and the target is silently dropped | prefix "/interfaces", target "router1": the request's prefix carries no target | the target is set on the prefix whenever it is given | medium, not executed | Get.GetHeaderDropsTarget | Get.GetHeaderCorrected |
| cmd/get.go:73-86 | `xreq := req` copies the pointer, so the supported models are appended to the one request shared by every target's goroutine | two targets whose supported models are [a] and [b]: the second is sent [a, b] (and the appends race) | each target is sent the original models followed by its own supported ones | high, not executed | Get.TwoTargetsAsWritten | Get.AttachModels |
