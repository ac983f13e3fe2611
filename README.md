# Neo4j browser: command interpretation and graph mapping

This project models two parts of the Neo4j browser in Dafny.

**The command interpretation pipeline** (module `CommandInterpreter`, file
`command_interpreter.dfy`).
- `watchCommands` is a loop. For each queued command it:
  - waits for `USER_COMMAND_QUEUED`;
  - adds the command to the editor history;
  - reads the settings;
  - then either calls `handleClientCommand(cmdchar, cmd)` for text that starts with the settings'
    `cmdchar`, or runs the text as a `bolt.transaction` and adds a frame `{cmd}`.
- `handleClientCommand` dispatches on the directive keyword:
  - `clear` clears the frame stream;
  - `play` with a URL argument fetches the URL with `remote.get` and then adds a `play-remote` frame;
  - `play` with any other argument adds a `play` frame;
  - any other keyword adds an untyped frame for the full text.

Each saga effect is a value of `Effect`, and pure functions give the effect sequence of one command.
`ApplyAll` is the reference meaning of an effect sequence on the console state, which holds the
history, the frames and the next frame id. The class `Interpreter` holds that state and updates it
in place. Its methods are proved to issue exactly the effect sequence the functions give, and to
reach exactly the state `ApplyAll` gives. The implementation file `commandInterpreter.js` is not
part of this model, so the behaviour follows its test file: `commandInterpreter.test.js` fixes the
effect order and the frame contents.

**Graph mapping and statistics** (module `Mapper`, file `mapper.dfy`).
- `mapProperties` stringifies the values of a property object.
- `mapNodes` and `mapRelationships` turn query-result records into visualisation nodes and
  relationships; a relationship's ends are looked up among the graph's nodes.
- `createGraph` builds the graph and sets its display defaults.
- `getGraphStats` counts labels and relationship types, with their merged properties and a `'*'`
  aggregate entry; it is modelled as methods with loops over `map`s.

`wrappers.dfy` holds the shared `Option` datatype.

## Model

| member | source | states |
|---|---|---|
| CommandInterpreter.Classify | src/sagas/commandInterpreter.test.js:13-42 | definition, no contract of its own: text with the prefix is a directive, parsed by `ParseDirective`; other text is a query. `DispatchEffects` acts on this verdict, and `ClassifyQueryIff` ties it to the issued effects |
| CommandInterpreter.ParseDirective | src/sagas/commandInterpreter.test.js:56-105 | the directive is `Clear` exactly when the keyword is `clear`, is `Play` exactly when the keyword is `play`, and a `Play` carries the trimmed argument; any other keyword is unrecognised |
| CommandInterpreter.HandlerEffects | src/sagas/commandInterpreter.test.js:63-116 | a handler yields exactly the clear-frames effect when and only when the directive is `Clear`; every other handler ends with a frame add for the full text; no handler issues a transaction, a history add or a further client call |
| CommandInterpreter.ClientEffects | src/sagas/commandInterpreter.test.js:55-121 | definition, no contract of its own: the effects of `handleClientCommand` are those of the handler of the parsed directive. `ClientKeepsHistory`, `UnrecognizedMakesDefaultFrame`, `ClearOnlyClears`, `PlayLocal` and `PlayRemote` state its behaviour |
| CommandInterpreter.DispatchEffects | src/sagas/commandInterpreter.test.js:21-44 | definition, no contract of its own: on a query verdict, a transaction then an untyped frame; on a directive verdict, the call of `handleClientCommand` then the handler's effects. `ClassifyQueryIff`, `DispatchKeepsHistory` and `QueryIsTransactionThenFrame` state its behaviour |
| CommandInterpreter.IterationEffects | src/sagas/commandInterpreter.test.js:17-44 | definition, no contract of its own: the take, history and settings prelude, then the dispatch stage. `IterationStartsWithHistory` and `IterationHistory` state its behaviour |
| CommandInterpreter.Apply | src/sagas/commandInterpreter.test.js:19-79 | definition, no contract of its own: a history add appends the text, a frame add appends a frame with the next id and bumps the id, a clear empties the frames, and every other effect leaves the state alone |
| CommandInterpreter.ApplyAll | src/sagas/commandInterpreter.test.js:17-44 | definition, no contract of its own: the effects applied in order. `ApplyAllAppend` and `ApplyAllKeepsFreshIds` state its behaviour |
| CommandInterpreter.Interpreter.Submit | src/sagas/commandInterpreter.test.js:10-52 | one `watchCommands` iteration issues exactly the iteration's effect sequence, moves the state exactly as those effects do, and keeps frame ids fresh |
| CommandInterpreter.Interpreter.HandleClientCommand | src/sagas/commandInterpreter.test.js:55-121 | `handleClientCommand` issues exactly the directive's effects and moves the state exactly as they do |
| CommandInterpreter.Interpreter.AddFrameWithFreshId | src/sagas/commandInterpreter.test.js:44 | adding a frame appends it with the next id and keeps ids strictly increasing |
| CommandInterpreter.Interpreter.Delegate | src/sagas/commandInterpreter.test.js:21-22 | the prefixed branch issues the dispatch effects: the call of `handleClientCommand`, then that saga's effects, and moves the state as they do |
| CommandInterpreter.Interpreter.RunQuery | src/sagas/commandInterpreter.test.js:41-44 | the query branch issues the transaction and then the frame add, and moves the state as they do |
| CommandInterpreter.Interpreter.Run | src/sagas/commandInterpreter.test.js:9-53 | the loop over many submissions issues their iterations' effects in order, and history gains exactly the submitted texts in order |
| CommandInterpreter.IterationStartsWithHistory | src/sagas/commandInterpreter.test.js:17-19 | every iteration first waits for a command, then adds it to history, then reads the settings; no other effect touches history |
| CommandInterpreter.IterationComposes | src/sagas/commandInterpreter.test.js:17-22 | an iteration is its prelude of take, history and settings, then its dispatch stage, both in issued effects and in state |
| CommandInterpreter.DispatchPrefixed | src/sagas/commandInterpreter.test.js:21-22 | for prefixed text the `call` of `handleClientCommand` leaves the state alone: the dispatch stage moves it exactly as the handler's effects do |
| CommandInterpreter.DispatchQuery | src/sagas/commandInterpreter.test.js:41-44 | for text without the prefix the dispatch stage moves the state as the transaction and then one untyped frame do |
| CommandInterpreter.IterationHistory | src/sagas/commandInterpreter.test.js:18-26 | an iteration appends exactly its own command to history |
| CommandInterpreter.PrefixedIsDelegated | src/sagas/commandInterpreter.test.js:13-22 | prefixed text goes unchanged to `handleClientCommand`, whatever its keyword, and no transaction is issued |
| CommandInterpreter.QueryIsTransactionThenFrame | src/sagas/commandInterpreter.test.js:33-51 | text without the prefix is a query: one transaction for that text, then one untyped frame with that text and the next id |
| CommandInterpreter.ClassifyQueryIff | src/sagas/commandInterpreter.test.js:13-44 | an iteration issues a database transaction exactly when its text is classified as a query; for a directive, the effects after the settings read are the call of `handleClientCommand` and then that directive's handler |
| CommandInterpreter.KeywordSplit | src/sagas/commandInterpreter.test.js:58-60 | the keyword is a whitespace-free token; prefix, keyword and the rest rebuild the text, and the rest is empty or starts with whitespace |
| CommandInterpreter.KeywordLengthSpec | src/sagas/commandInterpreter.test.js:87-89 | the keyword stops exactly at the first whitespace character |
| CommandInterpreter.KeywordLengthUnique | src/sagas/commandInterpreter.test.js:87-89 | any length with the keyword's two properties is the keyword length |
| CommandInterpreter.TrimStartSpec | src/sagas/commandInterpreter.test.js:103-109 | trimming the start removes only leading whitespace and leaves none there |
| CommandInterpreter.TrimEndSpec | src/sagas/commandInterpreter.test.js:103-109 | trimming the end removes only trailing whitespace and leaves none there |
| CommandInterpreter.UnrecognizedMakesDefaultFrame | src/sagas/commandInterpreter.test.js:56-68 | an unknown keyword yields one untyped frame for the full text, and no fetch or transaction |
| CommandInterpreter.ClearOnlyClears | src/sagas/commandInterpreter.test.js:71-82 | `clear` yields exactly the clear-frames effect; the stream becomes empty and history and next id are unchanged |
| CommandInterpreter.PlayLocal | src/sagas/commandInterpreter.test.js:85-96 | `play` with a non-URL argument immediately adds a `play` frame for the full text, with no fetch |
| CommandInterpreter.PlayRemote | src/sagas/commandInterpreter.test.js:99-120 | `play` with a URL first fetches exactly that URL, then adds a `play-remote` frame for the full text |
| CommandInterpreter.DirectiveAppendsOneFrame | src/sagas/commandInterpreter.test.js:63-68 | every directive other than `clear` appends exactly one frame, with the full text and a fresh id, and keeps the earlier frames |
| CommandInterpreter.NoDeduplication | src/sagas/commandInterpreter.test.js:50-51 | submitting the same query twice records it twice and adds two frames with the same text and distinct ids |
| CommandInterpreter.ApplyAllKeepsFreshIds | src/sagas/commandInterpreter.test.js:67-68 | every effect sequence keeps frame ids strictly increasing and below the next id |
| CommandInterpreter.ClientKeepsHistory | src/sagas/commandInterpreter.test.js:55-121 | `handleClientCommand` never changes history and never runs a transaction |
| CommandInterpreter.DispatchKeepsHistory | src/sagas/commandInterpreter.test.js:21-22 | the dispatch stage, whichever branch, never changes history |
| CommandInterpreter.ApplyAllAppend | src/sagas/commandInterpreter.test.js:17-43 | effects applied one after another compose: running `a + b` is running `a`, then `b` |
| CommandInterpreter.RunStep | src/sagas/commandInterpreter.test.js:9-53 | one more loop iteration extends the issued effects, the state and the history of the earlier iterations |
| CommandInterpreter.RunSnoc | src/sagas/commandInterpreter.test.js:9-53 | handling one more submission appends its iteration's effects and its text |
| CommandInterpreter.ConcatAppend | src/sagas/commandInterpreter.test.js:9-53 | the blocks of two batches, one after another, are the blocks of the joined batch |
| CommandInterpreter.RunEffectsAppend | src/sagas/commandInterpreter.test.js:9-53 | the loop's effects over two batches of submissions are the effects of each batch, in order |
| CommandInterpreter.RunIsSequential | src/sagas/commandInterpreter.test.js:9-53 | a submission's effects come whole, after all earlier submissions' and before all later ones' |
| CommandInterpreter.IsUrlOnTestInputs | src/sagas/commandInterpreter.test.js:87-100 | the URL test accepts `http://test.test` and rejects `a` |
| CommandInterpreter.UnknownOnTestInput | src/sagas/commandInterpreter.test.js:56-68 | `:unknown` yields exactly one untyped frame for `:unknown` |
| CommandInterpreter.ClearOnTestInput | src/sagas/commandInterpreter.test.js:71-82 | `:clear` yields exactly the clear-frames effect |
| CommandInterpreter.PlayOnTestInput | src/sagas/commandInterpreter.test.js:85-96 | `:play a` yields exactly one `play` frame for `:play a` |
| CommandInterpreter.PlayUrlOnTestInput | src/sagas/commandInterpreter.test.js:99-120 | `:play http://test.test` yields exactly a fetch of `http://test.test`, then a `play-remote` frame |
| CommandInterpreter.PlayUrlKeywordAndArgument | src/sagas/commandInterpreter.test.js:100-103 | `:play http://test.test` has keyword `play` and argument `http://test.test` |
| CommandInterpreter.WatchCommandsOnTestInputs | src/sagas/commandInterpreter.test.js:10-52 | `:help` and `RETURN 1` with `cmdchar` `:` produce exactly the effect sequences the two loop tests walk through |
| Mapper.MapProperties | src/browser/modules/D3Visualization/mapper.js:21-23 | the result has exactly the input's keys, each mapped to its value's string |
| Mapper.StringifyValues | src/browser/modules/D3Visualization/mapper.js:22-23 | one object per key, as many as the keys |
| Mapper.StringifyValuesSpec | src/browser/modules/D3Visualization/mapper.js:22-23 | the i-th object has just the i-th key, with its stringified value |
| Mapper.AssignStringified | src/browser/modules/D3Visualization/mapper.js:21 | `Object.assign({}, ...stringifyValues(obj))` has exactly the listed keys, each with its stringified value |
| Mapper.MapPropertiesAnyKeyOrder | src/browser/modules/D3Visualization/mapper.js:21-23 | `mapProperties` has exactly the keys of its input, each mapped to its stringified value, for any key enumeration order |
| Mapper.StringifiedKeysCons | src/browser/modules/D3Visualization/mapper.js:22-23 | the stringified map over a key list is its first key's entry overridden by the rest's |
| Mapper.AssignStringifiedFrom | src/browser/modules/D3Visualization/mapper.js:21-23 | assigning the single-key objects one by one onto a target gives the target overridden by the stringified keys |
| Mapper.MapNodes | src/browser/modules/D3Visualization/mapper.js:33-38 | one visualisation node per input node; `MapNodesPreserves` states the rest |
| Mapper.MapRelationships | src/browser/modules/D3Visualization/mapper.js:40-52 | one visualisation relationship per input relationship; `MapRelationshipsPreserves` states the rest |
| Mapper.FindNode | src/browser/modules/D3Visualization/mapper.js:42-43 | a node found is one of the graph's nodes and has the id looked for |
| Mapper.MapNodesPreserves | src/browser/modules/D3Visualization/mapper.js:33-38 | `mapNodes` keeps length, order, ids and labels, and stringifies each node's properties |
| Mapper.MapRelationshipsPreserves | src/browser/modules/D3Visualization/mapper.js:40-52 | `mapRelationships` keeps length, order, ids and types, stringifies properties, and looks up both ends in the graph |
| Mapper.FindNodeSpec | src/browser/modules/D3Visualization/mapper.js:42-43 | a lookup finds a node exactly when the graph has one with that id, and the node found has that id |
| Mapper.CreateGraph | src/browser/modules/D3Visualization/mapper.js:25-31 | `createGraph` gives a new graph with the mapped nodes; the relationships are mapped against those nodes; the display is `{initialNodeDisplay: 300, nodeCount: 1}` |
| Mapper.CreatedEndsResolve | src/browser/modules/D3Visualization/mapper.js:27-28 | in a created graph a relationship end is found exactly when some input node has that id, and the node found is among the mapped nodes |
| Mapper.Graph.AddNodes | src/browser/modules/D3Visualization/mapper.js:27 | adding nodes appends them and changes nothing else |
| Mapper.Graph.AddRelationships | src/browser/modules/D3Visualization/mapper.js:28 | adding relationships appends them and changes nothing else |
| Mapper.LabelEntry | src/browser/modules/D3Visualization/mapper.js:57-81 | reference definition, no contract of its own: the `'*'` entry counts all occurrences, plus once more each occurrence of a label named `'*'`; every other label counts its occurrences; properties are the left-to-right merge of the nodes carrying the label |
| Mapper.TypeEntry | src/browser/modules/D3Visualization/mapper.js:82-114 | reference definition, no contract of its own: a type's count, its active count (0 if inactive), its merged properties and its active flag; the `'*'` entry counts every relationship, takes the visible count as active count and is active, except that a last relationship of type `'*'` shows its own update |
| Mapper.LabelStats | src/browser/modules/D3Visualization/mapper.js:57-81 | the label loop builds exactly the entries `LabelEntry` gives for the nodes' (node, label) occurrences |
| Mapper.LabelStep | src/browser/modules/D3Visualization/mapper.js:58-79 | one pass of the inner loop body turns the statistics of the occurrences so far into those with one more occurrence |
| Mapper.LabelStepStar | src/browser/modules/D3Visualization/mapper.js:59-66 | one loop step keeps the `'*'` label entry right, including for a label itself called `'*'` |
| Mapper.LabelStepOwn | src/browser/modules/D3Visualization/mapper.js:67-79 | one loop step gives the visited label, when not `'*'`, one more count and its node's properties merged over the earlier ones, or a new entry |
| Mapper.LabelStepUntouched | src/browser/modules/D3Visualization/mapper.js:58-79 | one loop step leaves the entry of every label other than `'*'` and the visited one as it was, and that is still its right entry |
| Mapper.LabelEntryOfNodes | src/browser/modules/D3Visualization/mapper.js:67-79 | a label other than `'*'` has an entry exactly when some node carries it, and its count is how often the nodes carry it |
| Mapper.StarLabelEntry | src/browser/modules/D3Visualization/mapper.js:59-66 | with no label named `'*'`, the `'*'` entry exists exactly when some node has a label, and counts all labels of all nodes |
| Mapper.OccurrencesCount | src/browser/modules/D3Visualization/mapper.js:57-58 | the loop visits one occurrence per label of each node, so each label is counted as often as nodes carry it |
| Mapper.LabelPropertiesWithoutLabel | src/browser/modules/D3Visualization/mapper.js:69-73 | a label that never occurs has no merged properties |
| Mapper.RelTypeStats | src/browser/modules/D3Visualization/mapper.js:82-114 | the relationship loop builds exactly the entries `TypeEntry` gives for the relationships |
| Mapper.RelTypeStep | src/browser/modules/D3Visualization/mapper.js:83-113 | one pass of the loop body turns the statistics of the relationships so far into those with one more relationship |
| Mapper.RelTypeStepStar | src/browser/modules/D3Visualization/mapper.js:83-93 | one loop step keeps the `'*'` entry right: count, active count set to the visible count, active set, including for a type itself called `'*'` |
| Mapper.RelTypeStepOwn | src/browser/modules/D3Visualization/mapper.js:94-113 | one loop step keeps the visited relationship's type entry right, when not `'*'`: count, active count, merged properties and active flag |
| Mapper.RelTypeStepUntouched | src/browser/modules/D3Visualization/mapper.js:82-113 | one loop step leaves the entry of every type other than `'*'` and the visited one as it was, and that is still its right entry |
| Mapper.TypeEntryOfRelationships | src/browser/modules/D3Visualization/mapper.js:94-113 | a type other than `'*'` has an entry exactly when some relationship has it; it is active exactly when not inactive, and its active count is its count or 0 |
| Mapper.StarTypeEntry | src/browser/modules/D3Visualization/mapper.js:83-93 | with no type named `'*'`, the `'*'` entry exists exactly when there is a relationship, counts them all, takes the visible count as active count, and is active |
| Mapper.TypePropertiesWithoutType | src/browser/modules/D3Visualization/mapper.js:99-103 | a type that never occurs has no merged properties |
| Mapper.GetGraphStats | src/browser/modules/D3Visualization/mapper.js:54-116 | `getGraphStats` returns exactly the label entries and relationship-type entries the reference definitions give |

## Left out

- The redux-saga runtime is not modelled: no generator scheduling, no `take`/`put`/`call`/`select` interpreter, no concurrency. Effects are data, and the loop is a sequential method that handles one command fully before the next.
- The results of `bolt.transaction` and `remote.get` are not modelled. These are external services, and the frame contents that come from their results cannot be seen. So a `play-remote` frame carries only its text and type.
- Fetch and transaction failures are not modelled. Neither appears in the test file, so no error-frame shape is invented.
- `commandInterpreter.js` is not part of this model. Its URL test and keyword split are therefore chosen, not copied:
  - `IsUrl` is an `http://` or `https://` prefix test; `IsUrlOnTestInputs` pins it to the two test inputs.
  - The keyword is the first whitespace-delimited token after the prefix, and the argument is the rest, trimmed of spaces, tabs, carriage returns and newlines.
- The handlers of further directives, such as `:help`, are not modelled. They would live in `commandInterpreter.js`, so every keyword other than `clear` and `play` takes the default path.
- `handleClientCommand` on text without the prefix: the model drops `|cmdchar|` characters anyway. The loop never makes such a call.
- uuid generation becomes a counter: each frame gets the next number, so ids are fresh.
- `neo.models.Graph`, `Node` and `Relationship` are foreign code. The graph holds plain sequences, and `findNode` returns the first node with the id.
- `getGraphStats` takes plain inputs: the graph's total nodes, its total relationships, the visible-relationship count and the set of inactive types.
- `toString()` of a property value is the parameter `str`.
- `Object.keys` order is the parameter `keys`. `MapPropertiesAnyKeyOrder` shows the result does not depend on it.
- JavaScript object keys inherited from the prototype are not modelled, for example `constructor`. A label or type with such a name would find a truthy inherited value in the source.
- The `'*'` entries start with `properties: []`, an empty array. `Object.assign` onto it gives the same keys as an empty object, so the model starts them with an empty map.
- JavaScript number precision: counts are unbounded naturals.
- `src/browser/modules/Sidebar/Custom.jsx` is not modelled. It is a UI component, and its only logic is one library `replace` call.
