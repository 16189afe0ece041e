# Log normaliser engine, modelled in Dafny

This project models the core of `index.js`, a small engine that turns a stream of
heterogeneous log lines into uniform event records. Each input line is trimmed and
routed. A client line holds a JSON object and is mapped onto a record. A server line is
a syslog-style line whose pattern captures become a record. Any other line is a
continuation of a stack trace: it is appended to a `" | "`-joined buffer. That buffer
goes out as one ERROR record when the next client or server line arrives, or at end of
input. Each record passes an optional type filter before it reaches the sink.

The model is functional. `Pipeline.Step` is parseLine as a pure function from the
aggregator state and a line to the new state and the records sent, in order.
`Pipeline.Run` folds `Step` over the lines and then applies finalize. `Pipeline.Select`
is the filter.

Modules, following the parts of the source:

- `Wrappers` holds `Option`. It stands for `null` and `undefined`.
- `Json` holds values as JSON.parse yields them, JavaScript truthiness and own-property lookup.
- `Text` holds `trim`, `toUpperCase` and `parseInt` on digit strings.
- `Events` holds the record (`getNewInstance`) and its `type` and `logsource` values.
- `Server` holds `parseServer` and `getServerEventType`, with the `& 7` of JavaScript modelled bit by bit.
- `Client` holds `parseClient`, `checkClientForAdvancedFields` and the `clientFields` table.
- `Aggregator` holds the stack-trace state (`stacktraceFlag`, `stacktraceMessage`, `lastTimestamp`), appending and `finalizeStacktrace`.
- `Pipeline` holds the routing of `parseLine`, the fold, `finalize`, the filter argument and `sendParsedData`.

Some things come from outside the engine's own logic. They are parameters, bundled in
`Pipeline.Oracles`:

- the client pattern test;
- the server pattern match, which yields the nine captures;
- `JSON.parse`, which gives None when it throws;
- `new Date(v).toISOString()`.

The line reader, `process.argv` and `console.log` are left out. The filter is a
parameter and the sink is the output sequence.

Facts about `index.js` that a reader might not expect, all modelled as the code has them:

- Structured data is captured by the server pattern and never decomposed. Nothing from it reaches `env` or `_data`; a server record's `_data` is always null, and the pid and message id are dropped.
- Server lines do not update `lastTimestamp`. Only a client line with a truthy `timestamp` does.
- Server captures are copied as they stand: a `-` capture stays `-`.
- On a client or server line, any pending stack trace is flushed BEFORE the line is parsed. So the flushed record carries the `lastTimestamp` from before that line.
- The filter is the upper-cased argument. It is compared exactly (`===`) with the record's `type`. Records whose `type` is `''` or `null` never pass a filter.
- The client pattern `^{"type":\s+"client".+}$` needs at least one whitespace character after `"type":`. A line such as `{"type":"client",...}` is therefore a continuation line. This is part of the abstract client test and is not re-derived here.

## Model

| member | source | states |
|---|---|---|
| Text.Trim | index.js:42 | the routed line is the middle slice of the input left after removing leading and trailing ECMAScript whitespace, and it neither begins nor ends with whitespace |
| Text.TrimIdempotent | index.js:42 | trimming an already trimmed line changes nothing |
| Pipeline.ClassifyTrimStable | index.js:42-51 | re-trimming a trimmed line yields the same route |
| Pipeline.Classify | index.js:43-58 | a line is a client line exactly when the client test holds; it is a server line (with that match's captures) exactly when the client test fails and the server pattern matches; otherwise it is a continuation |
| Pipeline.Step | index.js:40-63 | a continuation line emits nothing and is appended; a client or server line leaves the state Idle and emits two records when Buffering (the flushed trace first) or one when Idle; a server line's record is parseServer's and leaves lastTimestamp alone; a client line's record and lastTimestamp are parseClient's |
| Pipeline.StepPreservesValid | index.js:40-63 | from a state where Idle means an empty buffer, every step keeps Idle meaning an empty buffer |
| Pipeline.RunFromPreservesValid | index.js:40-63 | the same holds over any sequence of lines |
| Pipeline.FlushPrecedesOwnEvent | index.js:44-57 | while Buffering, the ERROR record holding the buffer and the old lastTimestamp goes out strictly before the line's own record; while Idle, only the line's own record goes out; the last record has a logsource unless the client JSON failed to parse |
| Pipeline.LastTimestampOnlyFromClient | index.js:156-160 | lastTimestamp changes only on a client line whose JSON parses and carries a truthy timestamp; server lines, continuation lines and flushes never change it |
| Pipeline.EventCountFrom | index.js:40-63 | from any state, records emitted plus a run still pending equal the recognised lines plus the runs of other lines begun plus a run pending at the start |
| Pipeline.EventCount | index.js:44-61 | over a whole input, the number of records before filtering is the number of client and server lines plus the number of maximal runs of other lines |
| Pipeline.ContinuationsAppend | index.js:58-61 | a sequence of continuation lines emits nothing and appends their trimmed forms one by one; whatever input follows is processed from the state that leaves |
| Pipeline.ContinuationRunFlushed | index.js:44-61 | continuation lines arriving while Idle, then a client or server line, give exactly two records; the first is ERROR, stamped with lastTimestamp as it stood, with the trimmed lines joined by `" | "` (leading empty lines absorbed) as message |
| Pipeline.TrailingRunFlushedOnce | index.js:185-189 | an input made only of continuation lines yields exactly one record, the ERROR record holding their join, emitted by finalize |
| Pipeline.RunFrom | index.js:40-63 | no contract of its own: parseLine applied line after line; `Pipeline.RunFromCons`, `Pipeline.RunFromPreservesValid`, `Pipeline.EventCountFrom` and `Pipeline.ContinuationsAppend` state its behaviour |
| Pipeline.RunFromCons | index.js:36 | the fold handles the first line with one step and the rest from the state that step leaves |
| Pipeline.Run | index.js:36-37 | no contract of its own: every line through parseLine, then finalize; `Pipeline.EventCount`, `Pipeline.RunNeverNull`, `Pipeline.TrailingRunFlushedOnce` and `Pipeline.ContinuationRunFlushed` state what it emits |
| Pipeline.StepNeverNull | index.js:130-142 | no record sent by one step has a `null` type |
| Pipeline.RunFromNeverNull | index.js:125 | no record emitted by the fold has a `null` type |
| Pipeline.RunNeverNull | index.js:130-142 | the `null` branch of getServerEventType is never reached in a run: no emitted record has a `null` type |
| Pipeline.MakeFilter | index.js:23 | there is no filter exactly when the argument is absent or empty; otherwise the filter is the argument upper-cased by `toUpperCase`, and it is non-empty |
| Pipeline.Passes | index.js:176-177 | no contract of its own; `Pipeline.FilterSelectsType`, `Pipeline.DotlessIFiltersSelectTypes` and `Pipeline.FreshRecordOnlyUnfiltered` state which records pass |
| Pipeline.DotlessIFiltersSelectTypes | index.js:23 | the argument `ınfo` (dotless i) selects exactly the INFO records and `warnıng` exactly the WARNING records, as `toUpperCase` maps `ı` to `I` |
| Pipeline.FreshRecordOnlyUnfiltered | index.js:162-177 | a fresh record (type '') passes exactly when there is no filter, so an unparseable client line is printed only without a filter argument |
| Pipeline.FilterSelectsType | index.js:176-177 | with a filter argument whose `toUpperCase` is a type name, a record passes exactly when it has that type, whatever the argument's case |
| Pipeline.Select | index.js:175-183 | the sink receives exactly the records that pass, no others; without a filter it receives everything |
| Pipeline.SelectSplits | index.js:175-183 | filtering keeps order: filtering a concatenation is concatenating the filtered pieces |
| Pipeline.EmitFromIsFilteredRun | index.js:175-183 | filtering each record as it is sent, from any state, yields the same state and the filtered sequence of all records |
| Pipeline.EmittedIsFilteredRun | index.js:175-183 | what the sink receives over a run is the run's records filtered once, in order |
| Pipeline.Emitted | index.js:175-183 | no contract of its own: what the sink receives, each step's records filtered as they are sent, then finalize's; `Pipeline.EmittedIsFilteredRun` states it equals `Select(filter, Run(lines))` |
| Aggregator.Append | index.js:58-61 | an unclassified line sets the state Buffering and leaves lastTimestamp alone; the buffer becomes the line if it was empty, else old buffer, `" | "`, line |
| Aggregator.AppendAllExtends | index.js:60 | onto a non-empty buffer, a run of lines lands joined by `" | "`, empty lines included |
| Aggregator.AppendAllJoins | index.js:60 | onto an empty buffer, a run of lines yields their `" | "`-join once leading empty lines are dropped; those are absorbed without a separator |
| Aggregator.NonEmptyLinesJoin | index.js:58-61 | a run of non-empty lines yields exactly those lines joined by `" | "`, in order |
| Aggregator.AppendAllKeeps | index.js:58-61 | appending never changes lastTimestamp, and the state is Buffering once any line was appended |
| Aggregator.Flush | index.js:73-81 | a flush emits one ERROR record with timestamp lastTimestamp and message the buffer; logsource, program, host and env stay empty and `_data` null; afterwards the state is Idle with an empty buffer and lastTimestamp unchanged |
| Aggregator.FlushIfBuffering | index.js:185-189 | finalize emits exactly one record (the flush) when Buffering and none when Idle, and leaves the state Idle with lastTimestamp unchanged |
| Client.CollectUnknown | index.js:145-154 | the forEach accumulator stays null exactly when every key is known; otherwise it holds exactly the unknown fields with their original values, keys still distinct |
| Client.CheckClientForAdvancedFields | index.js:145-154 | `_data` is null exactly when every key is one of type, message, error, timestamp, environment, ip, app; otherwise it holds exactly the other keys, each with its original value |
| Client.CheckClientForAdvancedFieldsAsWritten | index.js:145-154 | as the code runs it: null exactly when every key is a client field or an Object.prototype member name, otherwise exactly the remaining keys |
| Client.PrototypeNameHidesField | index.js:148 | a key named after an Object.prototype member, beside only client fields, makes the code as written return null while the intended mapping reports that key |
| Client.ConstructorKeyIsLost | index.js:148 | for `{"type": "client", "message": "hi", "constructor": "x"}` the code as written returns null; the intended mapping returns `{constructor: "x"}` |
| Client.TruthyOr | index.js:95-97 | a truthy-guarded assignment yields the property's value when it is truthy and leaves '' otherwise |
| Client.ParseClient | index.js:83-102 | unparseable JSON gives the fresh default record and keeps lastTimestamp; otherwise logsource is client, type is INFO exactly when `message` is an own key and ERROR exactly when it is not; program, host and env are app, ip and environment when truthy, else ''; message follows the truthiness tests; a truthy timestamp is converted and becomes the new lastTimestamp; `_data` is the corrected mapping of the keys, which differs from the code only on keys named after Object.prototype members (see Left out) |
| Client.ClientKeysAccountedFor | index.js:99 | the intended property, proved of the corrected mapping: no key of a client object is lost or invented, each being a client field or sitting in `_data` with its value; the code as written loses keys named after Object.prototype members (`Client.ConstructorKeyIsLost`) |
| Client.CollectUnknownIgnoresAbsent | index.js:145-154 | adding names no key uses to the known set does not change the fold's result |
| Client.ParseClientMatchesCodeWithoutPrototypeKeys | index.js:99 | on every client object with no key named after an Object.prototype member, the model's `_data` is exactly what the code as written produces |
| Client.FalsyMessageShadowsError | index.js:94 | when `message` is present but falsy and `error` is truthy, the record takes the falsy message, drops the error text and is typed INFO |
| Client.ClientTimestampOnlyWhenTruthy | index.js:98 | parseClient moves lastTimestamp only when the object parsed and has a truthy timestamp, and then to the record's own timestamp |
| Client.ErrorWithCustomField | index.js:91-99 | `{"type": "client", "error": "boom", "custom": 1}` gives an ERROR record with message "boom", `_data` `{custom: 1}`, and lastTimestamp unchanged |
| Server.BitAndSeven | index.js:118 | `n & 7` (ToInt32 then bitwise AND) lies in 0..7 and equals the remainder of n by 8, for every integer n |
| Server.AndSevenIsRemainder | index.js:118 | bitwise AND with 7 of any non-negative bit pattern keeps exactly its remainder by 8 |
| Server.PriorityNeedsNoWrap | index.js:109-118 | a priority is at most 999, so ToInt32 leaves it unchanged and the severity is its plain bitwise AND with 7 |
| Server.SeverityOf | index.js:109-118 | the severity of a server line lies in 0..7 and is the parsed priority modulo 8 |
| Server.GetServerEventType | index.js:130-142 | the mapping is defined exactly on 0..7, where it gives the coarse type of the RFC 5424 severity level (0-3 ERROR, 4 WARNING, 5-6 INFO, 7 DEBUG), and `null` elsewhere |
| Server.ServerEventTypeMonotone | index.js:130-142 | a more severe (lower) syslog code never maps to a less urgent type |
| Server.ParseServer | index.js:104-128 | a server record always has a non-null type, the coarse type of its priority's syslog level; program, host, timestamp and message are the captures unchanged; env stays '' and `_data` null |
| Server.ServerIgnoresUnusedCaptures | index.js:110-116 | version, pid, message id and structured data do not influence the record |
| Server.PriorityFourteenIsInfo | index.js:104-128 | a line with priority 14 and structured data `[ex@1 env="prod" k="v"]` gives an INFO record with env '' and `_data` null |
| Text.DecimalValue | index.js:109 | `parseInt` of a run of n digits is below 10^n |
| Text.UpperChar | index.js:23 | one character's upper case: never empty, no lower-case ASCII letter, and pure ASCII exactly for ASCII, `ı`, `ſ`, `ß` and the ligatures U+FB00 to U+FB06 |
| Text.ToUpper | index.js:23 | `toUpperCase` never shortens the argument and leaves no lower-case ASCII letter |
| Text.ToUpperIsAscii | index.js:23 | the upper-cased argument is pure ASCII exactly when every character of it upper-cases to ASCII, which is what decides whether it can equal a type name |
| Text.ToUpperSplits | index.js:23 | upper-casing distributes over concatenation |
| Text.ToUpperIdempotent | index.js:23 | upper-casing an upper-cased string changes nothing |
| Text.DotlessInfo | index.js:23 | `ınfo` upper-cases to `INFO` |
| Text.DotlessWarning | index.js:23 | `warnıng` upper-cases to `WARNING` |
| Json.Get | index.js:94-98 | property lookup finds a value exactly when the key is an own key, and the value is that key's field |
| Json.GetFindsField | index.js:94-98 | since keys are distinct, looking up a field's key gives that field's value |
| Events.NewInstance | index.js:162-173 | no contract of its own: the fresh record; `Client.ParseClient` (unparseable JSON), `Aggregator.Flush` and `Pipeline.FreshRecordOnlyUnfiltered` state its defaults |
| Events.NamesIdentifyTypes | index.js:10-15 | the type names are non-empty and distinct, so comparing names compares types |

## Left out

- File reading, the `readline` wiring, `process.argv` and `console.log` are I/O. The filter argument is a parameter and the sink is the returned sequence.
- The client and server regular expressions are abstract. The client test is a predicate. The server match yields the nine captures; the model only fixes the PRIVAL capture as one to three ASCII digits. Their backtracking and case-insensitivity are not re-derived.
- `JSON.parse` is a parameter returning an object or None. Its duplicate-key rule (one property per key, the last value wins) is assumed of its result. Its number rounding is not modelled: numbers are reals.
- `new Date(v).toISOString()` is a parameter. Its RangeError on an invalid date would end the process; that is not modelled.
- A client object with an own `hasOwnProperty` key makes line 91 throw a TypeError, which ends the process. This is not modelled: the model treats `hasOwnProperty` as the built-in test.
- Structured-data decomposition is not modelled, because `index.js` captures the bracketed field and does nothing with it.
- Object.keys ordering of `_data`: `Client.CheckClientForAdvancedFields` states which fields `_data` holds, not their order. The order only affects how `console.log` prints the object.
- Text.DecimalValue: its contract states only the bound on the value. The digit-by-digit evaluation of `parseInt` is in its body, and `Server.PriorityFourteenIsInfo` pins one value.
- Text.ToUpper: it is exact for every character whose upper case is pure ASCII: the ASCII letters, `ı`, `ſ`, `ß` and the ligatures U+FB00 to U+FB06. Any other character is kept as it is, where `toUpperCase` would map, say, `é` to `É`. Such a character's true upper case contains a non-ASCII character, and so does the model's result (`Text.ToUpperIsAscii`). So neither result can equal one of the four ASCII type names, and the filter selects the same records.
- Client.ParseClient: `_data` is built with the corrected `Client.CheckClientForAdvancedFields`, not the code as written. On a client object with a key named after an Object.prototype member (`constructor`, `toString`, ...), the code gives `_data` without that key (null if no other key is unknown); the model keeps it. `Client.ParseClientMatchesCodeWithoutPrototypeKeys` proves the model matches the code on every other object. See "## Findings".

## Findings

| source | as written | input that shows it | evidently intended | confidence | as-written member | corrected member |
|---|---|---|---|---|---|---|
| index.js:148 | `!clientFields[field]` looks the key up in an object literal, which inherits from Object.prototype, so names such as `constructor` or `toString` count as client fields | `{"type": "client", "message": "hi", "constructor": "x"}` gives `_data` null | only the seven listed keys are client fields; here `_data` should be `{constructor: "x"}` | high (not executed) | Client.CheckClientForAdvancedFieldsAsWritten, Client.ConstructorKeyIsLost | Client.CheckClientForAdvancedFields |

The rest of the model (`Client.ParseClient`) uses the corrected mapping.
