# rpipe in Dafny

This project models `rpipe`, a small TypeScript library that moves messages
through a chain of states kept in Redis sets. Each receiver id has one set,
or bucket, per state. The buckets live under keys of the form
`pipe:group:<name>:id:<id>:state:<state>:<postfix>`.

- Messages are validated against a JSON schema and then registered into the
  collector bucket of their receiver.
- Buckets are then moved along the chain, merged and cleared.

The model covers four parts of the library:

- `RPipe` (lib/rpipe.ts): the constructor's configuration, the key codec
  (`keyFormula`/`parseKey`), the state chain (`getNextStateName`, `getKey`,
  `states`) and every operation that talks to Redis.
- `Aggregator` (lib/aggregator.ts): the older design. It has three fixed
  states and no state validation. Its `moveState` overwrites the
  destination instead of merging into it.
- `grouping` (lib/collector.ts): validates messages and groups them by
  receiver name.
- `validateMessage` (lib/messageValidator.ts): the message schema, read as
  a predicate over JSON values. It is interpreted under the three JSON Schema
  draft-07 keywords it uses: `type` (section 6.1.1 of the Validation
  vocabulary), `properties` (section 6.5.4) and `required` (section 6.5.3).

Redis is modelled as a keyspace `map<string, set<string>>` (`RedisStore`).

- A key never holds an empty set.
- `SADD`, `SUNIONSTORE`, `DEL` and `SMEMBERS` have their documented meaning.
- A `MULTI`/`EXEC` batch applies its queued commands in order (`Run`).

Each library class is a Dafny class whose methods change the store
(`Store.sets`). Each method's postcondition ties the new keyspace to `Run`
of the batch the source queues. Lemmas about those batches state what the
operations promise:

- what `move` and `merge` leave in each bucket;
- that registration is all-or-nothing;
- that a key round-trips through `parseKey`;
- the successor rules of the chain.

Modules and files:

| file | module | contents |
|---|---|---|
| wrappers.dfy | Wrappers | `Option`, `Result`, `Outcome` |
| errors.dfy | Errors | the errors thrown, with their exact messages |
| json.dfy | Json | JSON values (integer numbers) |
| strings.dfy | Strings | JavaScript `split`/`join` on one character; integer `toString` |
| message_validator.dfy | MessageValidator | the schema keywords and `validateMessage` |
| types.dfy | Types | the message types of lib/types.ts and reading a validated value as one |
| redis_store.dfy | RedisStore | the keyspace, the commands, batches and the `Store` class |
| rpipe.dfy | Rpipe | configuration, key codec, state chain and the `RPipe` class |
| aggregator.dfy | Aggregator | the `Aggregator` class |
| collector.dfy | Collector | `grouping` |

Where the code and the repository's tests disagree, the model follows the
code:

- The constructor's prefix is `'pipe' || options.prefix`, which is always
  `pipe`. The tests expect keys that start with `rpipe`.
- `lib/agregator.test.ts` calls methods that lib/aggregator.ts does not
  have.

## Model

| member | source | states |
|---|---|---|
| Strings.Split | lib/rpipe.ts:59 | `split` on one character: at least one piece, and no piece holds the separator |
| Strings.SplitLength | lib/rpipe.ts:59-60 | splitting yields one piece more than there are separators |
| Strings.SplitJoin | lib/rpipe.ts:59 | splitting a join of separator-free pieces gives the pieces back |
| Strings.SplitJoinLength | lib/rpipe.ts:59-60 | a join splits into as many pieces as were joined exactly when no piece holds the separator |
| Strings.NatToDecimal | lib/rpipe.ts:121 | the decimal rendering of a natural number is a non-empty string of digits with no leading zero |
| Strings.NatToDecimalValue | lib/rpipe.ts:121 | the decimal rendering denotes the number it renders |
| Strings.IntToDecimal | lib/rpipe.ts:121 | `receiver.id.toString()` of an integer id; NatToDecimalValue, NatToDecimal and IntToDecimalHasNoColon state what it renders |
| Strings.DigitCharValue | lib/rpipe.ts:121 | each digit character stands for its digit |
| Strings.IntToDecimalHasNoColon | lib/rpipe.ts:121 | a numeric receiver id never renders with a `:` |
| MessageValidator.ReceiverSchema | lib/messageValidator.ts:9-16 | the `receiver` sub-schema: an object with a string `name` and a string-or-number `id`, both required; ReceiverConformsExactly states what it accepts |
| MessageValidator.ActionSchema | lib/messageValidator.ts:17-24 | the `action` sub-schema: an object with a string `type` and an object `payload`, both required; ActionConformsExactly states what it accepts |
| MessageValidator.MessageSchema | lib/messageValidator.ts:6-27 | `schemaMessage`: an object requiring `receiver` and `action` of those two sub-schemas; ValidateMessageExactly states what it accepts |
| MessageValidator.Conforms | lib/messageValidator.ts:29 | the draft-07 meaning of `type`, `properties` and `required` that `ajv.compile` gives a schema; the Exactly lemmas below state what it accepts |
| MessageValidator.ValidateMessage | lib/messageValidator.ts:29 | `validateMessage` is the message schema's predicate; ValidateMessageExactly states it in both directions |
| MessageValidator.ReceiverConformsExactly | lib/messageValidator.ts:9-16 | a receiver conforms iff it has a string `name` and a string-or-number `id` |
| MessageValidator.ActionConformsExactly | lib/messageValidator.ts:17-24 | an action conforms iff it has a string `type` and an object `payload` |
| MessageValidator.ValidateMessageExactly | lib/messageValidator.ts:6-29 | the compiled schema accepts exactly the messages of the hand-written shape (both directions) |
| MessageValidator.MissingTopLevelPartRejected | lib/messageValidator.ts:26 | a message without `receiver` or without `action` is invalid |
| MessageValidator.MissingReceiverFieldRejected | lib/messageValidator.ts:15 | a receiver without `name` or without `id` is invalid |
| MessageValidator.BadActionRejected | lib/messageValidator.ts:17-24 | an action without `type`, or whose `payload` is missing or not an object, is invalid |
| MessageValidator.IdKinds | lib/messageValidator.ts:13 | the receiver id may be a string or a number, and nothing else |
| MessageValidator.AllValidStep | lib/collector.ts:4-7 | checking one more valid message keeps the checked prefix all valid |
| MessageValidator.ExtraPropertyIgnored | lib/messageValidator.ts:6-8 | properties the schema does not list do not change the verdict |
| MessageValidator.ExtraNestedPropertyIgnored | lib/messageValidator.ts:9-24 | extra properties inside `receiver` or `action` do not change the verdict |
| Types.IdText | lib/rpipe.ts:121 | `receiver.id.toString()`: a string id as it is, a numeric id in decimal (see IntToDecimal) |
| Types.ReceiverKeyId | lib/rpipe.ts:120-121 | the id key segment of a validated message; CollectorAddsParse and RegisterBatchQueues place it in the key |
| Types.FromJson | lib/types.ts:12-24 | a JSON value reads as a typed message exactly when it validates |
| Types.FromJsonToJson | lib/types.ts:12-24 | every typed message validates and reads back as itself |
| Types.ReceiverName | lib/collector.ts:9-10 | the `receiver.name` that groups a message; ReceiverNameOfMessage ties it to the decoded receiver |
| Types.ReceiverNameOfMessage | lib/collector.ts:9-10 | `receiver.name` of a validated message is its typed receiver's name |
| Types.ActionValue | lib/rpipe.ts:120-124 | `action` of a validated message carries its typed `type` and `payload` |
| Types.SampleMessagesJudged | lib/messageValidator.test.ts:5-18 | the test's well-formed message is valid, and the pipeline tests' malformed one is not |
| RedisStore.UnionOf | lib/rpipe.ts:246 | a member is in the union iff it is in one of the source sets |
| RedisStore.UnionOfTwo | lib/rpipe.ts:138 | the union of two keys is the union of their sets |
| RedisStore.Apply | lib/rpipe.ts:138-139 | one command's effect on the keyspace; ApplyKeepsNoEmptySets and Store.Perform state it |
| RedisStore.Run | lib/rpipe.ts:126 | a MULTI batch applied first to last; RunFrame, RunAdds, RunOne, RunTwo and RunPrefix state its effect |
| RedisStore.ApplyKeepsNoEmptySets | lib/rpipe.ts:138-139 | no command leaves an empty set under a key |
| RedisStore.RunKeepsNoEmptySets | lib/rpipe.ts:126 | no batch leaves an empty set under a key |
| RedisStore.RunFrame | lib/rpipe.ts:126 | a batch leaves every key it does not write unchanged |
| RedisStore.RunAdds | lib/rpipe.ts:115-126 | a batch of SADDs leaves each key with its old members plus those added under it |
| RedisStore.RunOne | lib/rpipe.ts:192-195 | a one-command batch applies that command |
| RedisStore.RunTwo | lib/rpipe.ts:244-248 | a two-command batch applies the first command, then the second |
| RedisStore.RunPrefix | lib/rpipe.ts:126 | running one more queued command applies it to what the earlier commands left |
| RedisStore.Store.SAdd | lib/rpipe.ts:124 | SADD adds the member and replies 1 iff it was new |
| RedisStore.Store.SUnionStore | lib/rpipe.ts:246 | SUNIONSTORE overwrites the destination with the union, deleting it when the union is empty |
| RedisStore.Store.Del | lib/rpipe.ts:266 | DEL removes the key and replies 1 iff it held members |
| RedisStore.Store.SMembers | lib/rpipe.ts:207 | SMEMBERS returns every member of the set exactly once |
| RedisStore.Store.Perform | lib/rpipe.ts:244-248 | one queued command changes the keyspace as `Apply` says and returns its reply |
| RedisStore.Store.Exec | lib/rpipe.ts:126 | EXEC runs the batch in order, and reply `i` answers command `i` against the keyspace its predecessors left |
| Rpipe.Render | lib/rpipe.ts:49 | how the key template renders a postfix that may be `undefined` (lib/rpipe.ts:34): the string itself, or `undefined`; PrefixAndPostfixOfConfigure uses it |
| Rpipe.Configure | lib/rpipe.ts:31-40 | the constructor's fields; ChainOfConfigure and PrefixAndPostfixOfConfigure state them |
| Rpipe.ChainOfConfigure | lib/rpipe.ts:37 | `states()` is `collector` followed by the configured or default states, whatever the collector name |
| Rpipe.PrefixAndPostfixOfConfigure | lib/rpipe.ts:34-35 | the prefix is always `pipe`, a non-empty name is the postfix, and an undefined postfix renders as `undefined` |
| Rpipe.KeyFormula | lib/rpipe.ts:48-50 | `keyFormula`; KeyFormulaJoinsSegments and ParseKeyRoundTrip state what it builds |
| Rpipe.KeyFormulaJoinsSegments | lib/rpipe.ts:48-50 | a key is its eight segments joined by `:` |
| Rpipe.KeySegments | lib/rpipe.ts:7-9 | there are eight segments, with the id at position 4 and the state at position 6 |
| Rpipe.ParseKey | lib/rpipe.ts:58-68 | `parseKey`; ParseKeyRoundTrip, ParseKeyReadsPositions and ParseKeyRejectsUnseparated state what it returns |
| Rpipe.ParseKeyRoundTrip | lib/rpipe.ts:58-68 | a key parses back to its `(id, state)` iff no segment holds `:`; otherwise parsing fails with 'Invalid key format' |
| Rpipe.ParseKeyReadsPositions | lib/rpipe.ts:64-67 | eight separator-free segments parse to the segments at positions 4 and 6, whatever the others say |
| Rpipe.ParseKeyRejectsUnseparated | lib/rpipe.ts:60-62 | a key without `:` is refused with 'Invalid key format' |
| Rpipe.KeysDistinguishStates | lib/rpipe.ts:48-50 | with separator-free segments, distinct states of one id have distinct keys |
| Rpipe.IndexOf | lib/rpipe.ts:77 | `indexOf` returns the first position of the state, or -1 iff the state is absent |
| Rpipe.NextStateName | lib/rpipe.ts:76-85 | `getNextStateName`; NextStateNameRules, NextStateNameOutside, OnlyLastStateIsTerminal and SuccessorInChain state it |
| Rpipe.NextStateNameRules | lib/rpipe.ts:76-85 | the successor of the state at its first position `i` is null when `i` is last, and otherwise the state at `i + 1` |
| Rpipe.NextStateNameOutside | lib/rpipe.ts:78-80 | a state outside the chain fails with 'Invalid source state name' |
| Rpipe.OnlyLastStateIsTerminal | lib/rpipe.ts:81-83 | in a chain without repeats, exactly the last state has no successor |
| Rpipe.SuccessorInChain | lib/rpipe.ts:84 | a successor is always a state of the chain |
| Rpipe.GetKey | lib/rpipe.ts:94-99 | fails with 'Invalid state name - <state>' iff the state is outside the chain; otherwise the key parses back to `(id, state)` when its segments hold no `:` |
| Rpipe.CollectorKey | lib/rpipe.ts:121 | `getKey(receiver.id.toString(), collectorName)`; RegisterBatchSucceeds and RegisterBatchQueues state when it succeeds and what key it gives |
| Rpipe.RegisterBatch | lib/rpipe.ts:114-127 | the batch `registerMessages` queues, or its first error; the RegisterBatch lemmas below state both |
| Rpipe.RegisterStep | lib/rpipe.ts:116-124 | registering one more message extends the shorter prefix's work by that message's check, key and SADD |
| Rpipe.RegisterErrorSticks | lib/rpipe.ts:116-119 | once a prefix of the messages fails, the whole registration fails with that error |
| Rpipe.RegisterBatchOutcome | lib/rpipe.ts:114-127 | registration succeeds iff every message is valid and (when there are any) the collector name is in the chain; it names the first error; on success it queues one SADD per message, in order, into its receiver's collector bucket |
| Rpipe.RegisterBatchSucceeds | lib/rpipe.ts:114-127 | registration succeeds iff every message is valid and, when there are any, the collector name is in the chain |
| Rpipe.RegisterBatchError | lib/rpipe.ts:116-121 | a failed registration throws 'Invalid message' unless the chain lacks the collector name and the first message is valid, when it throws 'Invalid state name - <collector name>' |
| Rpipe.RegisterBatchQueues | lib/rpipe.ts:120-124 | a successful registration queues one SADD per message, in order, of its serialised action into its receiver's collector bucket |
| Rpipe.AddedIsDelivered | lib/rpipe.ts:120-124 | the SADDs of a registration add under each key exactly the actions delivered to it |
| Rpipe.RegisterEffect | lib/rpipe.ts:114-127 | after registration every bucket holds its old members plus the serialised actions delivered to it |
| Rpipe.OverriddenCollectorRejected | lib/rpipe.ts:36-37 | an overriding collector name that is not a configured state makes every non-empty registration whose first message is valid fail with 'Invalid state name - <collector name>' |
| Rpipe.MoveBatch | lib/rpipe.ts:137-140 | the batch `move` executes; MoveEffect states its effect |
| Rpipe.MoveEffect | lib/rpipe.ts:135-145 | `move` gives the destination its old members plus the source's, deletes the source and changes no other key; moving a bucket onto itself empties it |
| Rpipe.MergeBatch | lib/rpipe.ts:244-248 | the batch `merge` executes; MergeEffect states its effect |
| Rpipe.MergeEffect | lib/rpipe.ts:243-250 | `merge` makes the destination exactly the union of the sources (keeping its own members only when it is a source) and changes no other key |
| Rpipe.FirstOutside | lib/rpipe.ts:228-235 | the state reported is outside the chain, and there is none iff every checked state is in the chain |
| Rpipe.FirstOutsideAt | lib/rpipe.ts:228-235 | the state reported is the first one, in checking order, that is not in the chain |
| Rpipe.KeysOfParse | lib/rpipe.ts:237-241 | with separator-free segments, source key `i` parses back to the id and source state `i`, and distinct states never share a key |
| Rpipe.KeysOfStep | lib/rpipe.ts:238-240 | keying one more state appends its key |
| Rpipe.TestConfigFields | lib/rpipe.test.ts:77-80 | the test configuration has prefix `pipe`, postfix `testAggregator`, collector name `collector` and chain collector, processing, done, failed |
| Rpipe.TestPipeChain | lib/rpipe.test.ts:63-75 | in the test configuration processing is followed by done, failed by null, and an unknown state is refused with 'Invalid source state name' |
| Rpipe.TestPipeKeys | lib/rpipe.test.ts:45-48 | the test configuration builds its keys with the `pipe` prefix |
| Rpipe.TestPipeRefusesUnknownState | lib/rpipe.test.ts:50-52 | the test configuration refuses a key for an unknown state with 'Invalid state name - invalidState' |
| Rpipe.TestKeysParse | lib/rpipe.test.ts:54-57 | a key with an `rpipe` prefix parses to its id and state |
| Rpipe.TestUnseparatedKeyRejected | lib/rpipe.test.ts:59-61 | a key without separators is refused with 'Invalid key format' |
| Rpipe.TestRegistrationRejected | lib/rpipe.test.ts:29-34 | the registration tests' messages lack `payload`, so registering one throws 'Invalid message' |
| Rpipe.RPipe.constructor | lib/rpipe.ts:31-40 | the pipe's configuration is `Configure(name, options)` and it writes through the given client |
| Rpipe.RPipe.QueueRegistrations | lib/rpipe.ts:115-124 | the loop returns the queued SADDs, or the first error, exactly as `RegisterBatch` describes |
| Rpipe.RPipe.RegisterMessages | lib/rpipe.ts:114-127 | the first invalid message or unknown collector state fails with the store unchanged; otherwise one EXEC runs the queued SADDs |
| Rpipe.RPipe.Move | lib/rpipe.ts:135-145 | the store becomes the result of the union-then-delete batch |
| Rpipe.RPipe.MoveId | lib/rpipe.ts:154-158 | the source state is checked, then the destination; either failure leaves the store unchanged; otherwise their buckets are moved |
| Rpipe.RPipe.Next | lib/rpipe.ts:166-174 | an unknown source fails via `getKey`; no successor (or an empty-string one) returns null untouched; otherwise the bucket moves to its successor's |
| Rpipe.RPipe.Add | lib/rpipe.ts:191-196 | an unknown state fails with the store unchanged; otherwise one SADD into the bucket |
| Rpipe.RPipe.GetMembers | lib/rpipe.ts:204-208 | an unknown state fails; otherwise every member of the bucket, each once |
| Rpipe.RPipe.GetCollected | lib/rpipe.ts:215-217 | the members of the collector bucket, or 'Invalid state name - <collector name>' when the collector name is not in the chain |
| Rpipe.RPipe.SourceKeys | lib/rpipe.ts:237-241 | the `reduce` returns the key of each source state, in order |
| Rpipe.RPipe.Merge | lib/rpipe.ts:227-251 | the first unknown state, destination first, fails with the store unchanged; otherwise the merge batch runs and the destination's new members are returned, each once |
| Rpipe.RPipe.Clear | lib/rpipe.ts:260-267 | an unknown state fails with the bare 'Invalid state name'; otherwise the bucket is deleted and the reply is 1 iff it held members |
| Aggregator.StateName | lib/aggregator.ts:5-9 | the string values of `AggregatorState`; StateTailsDiffer and StatesHaveDistinctKeys state that they are distinct |
| Aggregator.Configure | lib/aggregator.ts:19-24 | the constructor's fields; ConfigureIgnoresOptions states them |
| Aggregator.ConfigureIgnoresOptions | lib/aggregator.ts:16-23 | the prefix is always `aggregator`; the prefix and states options are never read, and the postfix option only when the name is empty |
| Aggregator.GetKey | lib/aggregator.ts:40-42 | `getKey`; GetKeyIsPipeTemplate, GetKeyParses and StatesHaveDistinctKeys state what it builds |
| Aggregator.GetKeyIsPipeTemplate | lib/aggregator.ts:40-42 | an aggregator key follows the same eight-segment template as a pipe key |
| Aggregator.GetKeyParses | lib/aggregator.ts:40-42 | with separator-free name, postfix and id, an aggregator key parses back to its id and state name |
| Aggregator.StateTailsDiffer | lib/aggregator.ts:7-11 | the three state names differ in their last four characters |
| Aggregator.StatesHaveDistinctKeys | lib/aggregator.ts:40-42 | keys of different states never coincide, even for different ids and whatever the segments contain |
| Aggregator.KeysDisjointFromPipe | lib/aggregator.ts:16 | an aggregator key is never a pipe key, so both can share one server |
| Aggregator.CollectorAddsParse | lib/aggregator.ts:28-35 | command `i` adds message `i`'s serialised action under a key that parses back to its receiver id and the `collector` state |
| Aggregator.CollectorAddsStep | lib/aggregator.ts:28-35 | queueing one more valid message appends its SADD into its collector bucket |
| Aggregator.RegisterEffect | lib/aggregator.ts:26-37 | registration adds the delivered actions to each collector bucket and leaves every other state's bucket unchanged |
| Aggregator.MoveStateBatch | lib/aggregator.ts:45-50 | the batch `moveState` executes; MoveStateEffect states its effect |
| Aggregator.MoveStateEffect | lib/aggregator.ts:44-51 | `moveState` gives the destination exactly the source's old members, deletes the source and changes no other key; moving a bucket onto itself deletes it |
| Aggregator.MoveStateVersusPipeMove | lib/aggregator.ts:48 | `moveState` and the pipe's `move` agree on every key iff the destination's members were all in the source |
| Aggregator.AddToStateIdempotent | lib/aggregator.ts:53-58 | adding a member puts it in the bucket, changes no other key, and adding it again changes nothing |
| Aggregator.KeysOfParse | lib/aggregator.ts:66-70 | with a separator-free name, postfix and id, source key `i` parses back to the id and the name of state `i`; distinct states never share a key |
| Aggregator.Aggregator.constructor | lib/aggregator.ts:19-24 | the settings are `Configure(name, options)` and it writes through the given client |
| Aggregator.Aggregator.RegisterMessages | lib/aggregator.ts:26-37 | any invalid message fails with 'Invalid message' and the store unchanged; otherwise one EXEC runs the collector SADDs |
| Aggregator.Aggregator.MoveState | lib/aggregator.ts:44-51 | the store becomes the result of the overwrite-then-delete batch |
| Aggregator.Aggregator.AddToState | lib/aggregator.ts:53-58 | the store becomes the result of one SADD into the bucket |
| Aggregator.Aggregator.GetMembers | lib/aggregator.ts:60-63 | every member of the bucket, each once |
| Aggregator.Aggregator.Merge | lib/aggregator.ts:65-80 | with no validation, the merge batch runs and the destination's new members are returned, each once |
| Aggregator.Aggregator.Clear | lib/aggregator.ts:82-85 | the bucket is deleted and the reply is 1 iff it held members |
| Collector.Filter | lib/collector.ts:10-13 | one name's list, in input order; FilterMembers, FilterEmpty and FilterConcat state it |
| Collector.Grouped | lib/collector.ts:4-15 | the grouping the reduce builds; GroupedSnoc, GroupedTotal and GroupedShape state it |
| Collector.FilterMembers | lib/collector.ts:10-13 | a name's list holds only messages with that name, and every such message |
| Collector.FilterEmpty | lib/collector.ts:10-12 | a name's list is empty iff no message carries that name |
| Collector.FilterConcat | lib/collector.ts:13 | the lists keep input order: filtering a concatenation filters each part |
| Collector.NamesSnoc | lib/collector.ts:10-11 | a new message adds its receiver name to the names |
| Collector.FilterSnoc | lib/collector.ts:13 | a new message extends its own name's list and no other |
| Collector.GroupedSnoc | lib/collector.ts:9-14 | one reduce step appends the message to its name's list, creating the list if needed |
| Collector.TotalLengthRemove | lib/collector.ts:13 | the sum of the list lengths can be taken starting from any name |
| Collector.TotalLengthUpdate | lib/collector.ts:13 | replacing one list changes the sum of lengths by the difference |
| Collector.GroupedTotal | lib/collector.ts:4-15 | the list lengths sum to the number of messages |
| Collector.GroupedShape | lib/collector.ts:4-15 | no list is empty, and no messages give no groups |
| Collector.PushStep | lib/collector.ts:10-13 | creating the list when the name is new and then pushing gives the grouping of one more message |
| Collector.Grouping | lib/collector.ts:4-15 | fails with 'Invalid message' iff some message is invalid; otherwise returns the grouping by receiver name |

## Left out

- Connecting to Redis, the client wrapper and `console.log` are not part of this model.
- The `try`/`catch` in `move` is left out. It rewraps a Redis failure, and Redis failures are not modelled.
- A batch that fails partway through `EXEC` is left out: the model's server never fails.
- Concurrency is left out. Each operation runs alone, as one batch, against the keyspace.
- `JSON.stringify(action)` is a parameter `stringify`. Its output format is not modelled.
- Rpipe.RegisterEffect and Aggregator.RegisterEffect: a JSON object is modelled as a map, so property order is not modelled. JavaScript's `JSON.stringify` follows insertion order, so `{type, payload}` and `{payload, type}` serialise differently and land as two members of a bucket; in the model they are one value and so one member. For the same reason Collector.Grouping does not model the key order of the object it returns.
- Numbers are integers. A fractional receiver id is not modelled.
- Strings.IntToDecimal and Strings.NatToDecimal write every digit of the integer. JavaScript's `toString` agrees only below 2^53 in magnitude: above that it prints the shortest digits that identify the double and pads with zeros (2^64 renders as 18446744073709552000), and from 1e21 it uses exponent form. Numeric receiver ids are modelled only where |n| < 2^53.
- Rpipe.RPipe.Merge and Aggregator.Aggregator.Merge require at least one source state. Redis refuses `SUNIONSTORE` with no source keys, and that refusal is not modelled.
- SMEMBERS returns the members in an order the server chooses. Rpipe.RPipe.GetMembers, Rpipe.RPipe.Merge and their aggregator counterparts promise the members, each once, but no order.
- Collector.Grouping returns a plain map. The JavaScript object's inherited property names (such as `constructor`) are not modelled.
- The test files are not modelled where they contradict the code. These are the `rpipe` key prefix in lib/rpipe.test.ts, the shorter keys in lib/rpipe-redis-test.ts, lib/agregator.test.ts, which calls methods the aggregator lacks, and the registrations whose actions lack `payload` (lib/rpipe.test.ts:31-34, lib/rpipe-redis-test.ts:38-41 and 48-52), which the schema rejects.
- `states()` returns the pipe's own array (lib/rpipe.ts:180-182), so a caller can change the chain in place. The model's chain is an immutable value fixed by the constructor; that aliasing is not modelled.
- Validation covers only the keywords the schema uses. Other JSON Schema keywords are not modelled.
