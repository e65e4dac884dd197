# better-blockly block builder, modelled in Dafny

This project models the block-definition pipeline of the better-blockly
builder library. A `BlockBuilder` collects a block's connection typing,
colour, inline flag, plugin meta bag and ordered input rows. A
`ContentBuilder` fills one row with text labels and keyed widgets. `impl`
runs the plugin hooks around registration and installs a block shape (`init`)
and a code generator. The toolbox plugin groups registered blocks into
categories. The Blockly host is abstract throughout. A block's field values,
the generator's `statementToCode`/`valueToCode` and the code of the next
block are parameters (`CodeGen.HostBlock`).

Modules, one per file:

- `Wrappers` (`wrappers.dfy`): `Option` for null/undefined, `Result` for thrown errors.
- `Shared` (`shared.dfy`): content items, fields, colours, the wildcard and no-connection type indicators (`*`, `none`) and the left-biased `Join` key-map merge.
- `ContentBuilder` (`content_builder.dfy`): the per-widget append operations; content callbacks as call scripts; the type-level key map as a ghost map.
- `BlockBuilder` (`block_builder.dfy`): builder state, defaults, fluent setters, `content`/`slot`/`stmt`.
- `BlockInit` (`block_init.dfy`): the settings snapshot and what `init` does, as a description of connections and input descriptors.
- `CodeGen` (`code_gen.dfy`): field lookup, `resolve`, result interpretation, the generator.
- `Registration` (`registration.dfy`): plugins, hook order, the host registries.
- `Toolbox` (`toolbox.dfy`): the toolbox plugin's store, hooks and `buildToolbox`.

A content callback (`content(fn)`, `slot(key, {content})`) is modelled as the
sequence of calls it makes on the builder it receives (`ContentCall`). A
callback can only reach a row through those calls, so append-only behaviour
is structural. `custom(key, func)` is a call whose body is the calls `func`
makes when given `key`.

`Shared.Content` includes the `variable` item that `ContentBuilder.variable`
pushes, although the `Content` union in src/shared.ts omits it.
`buildToolbox` is a Dafny function of the configuration and the store. It
cannot change the store, and two calls with no registration in between give
equal results.

Points where the code behaves differently from what its names suggest; the model follows the code:

- `init` passes the previous, next and output types to the host verbatim, so a `"*"` connection type is handed over as the check `"*"`. Only a row's check turns `"*"` into "no check".
- Field lookup returns on the first declaration of a key, not the last. The value returned is the live block's value for that key in either case.
- The reserved-name check on custom types is compile-time only. It tests only the built-in names, so `"*"` and `"none"` are not rejected.
- The settings captured before installation copy the scalar settings but not the row list. The installed shape and generator hold the builder's own list, so rows that a did-register hook adds reach them, while a colour or connection change made by that hook does not.
- Hook meta bags hold what plugins put there. Nested shadow templates are not interpreted.

## Model

| member | source | states |
|---|---|---|
| `Shared.Join` | src/shared.ts:1-7 | the merged key map has the keys of both maps; a key of the left map keeps its left type, and only keys absent from the left take the right type |
| `ContentBuilder.TextItem` | src/ContentBuilder.ts:26-33 | `text(v)` appends exactly one keyless `text` item carrying `v` and keeps earlier items |
| `ContentBuilder.DropdownItem` | src/ContentBuilder.ts:43-54 | `dropdown(k, options)` appends exactly one item keyed `k` whose options are the given ones, unchanged |
| `ContentBuilder.NumberItem` | src/ContentBuilder.ts:65-73 | `number(k, v)` appends exactly one item keyed `k` with default `v` |
| `ContentBuilder.TextboxItem` | src/ContentBuilder.ts:75-83 | `textbox(k, v)` appends exactly one item keyed `k` with default `v` |
| `ContentBuilder.VariableItem` | src/ContentBuilder.ts:56-63 | `variable(k, {types})` appends exactly one item whose variable types are exactly `types` |
| `ContentBuilder.RunAppends` | src/ContentBuilder.ts:23-84 | a callback's row is the items of its calls in call order, appended after everything pushed before |
| `ContentBuilder.Custom` | src/ContentBuilder.ts:35-41 | `custom(key, func)` pushes nothing itself; the row gains exactly what `func` pushes on the same builder when given `key` |
| `ContentBuilder.CreateCustomContentView` | src/ContentBuilder.ts:14-21 | the wrapped view runs with the key on its receiver and the receiver is the result; the view's own return value is ignored |
| `ContentBuilder.DeclaredExtends` | src/ContentBuilder.ts:35-83 | the type-level key map gains exactly the keys the calls declare, and a key already present keeps its earlier type |
| `ContentBuilder.DeclaredFirstWins` | src/ContentBuilder.ts:53-82 | a new key gets the type of its first declaring call: number for `number`, string for `textbox`/`variable`, the option values for `dropdown` |
| `ContentBuilder.PlainKeysAreItemKeys` | src/ContentBuilder.ts:43-83 | without `custom`, the keys the type-level map gains are exactly the keys of the items that reach the row |
| `BlockBuilder.New` | src/BlockBuilder.ts:38-51 | a fresh builder has hue 120, previous and next `"*"`, no output, inline unset, no rows and an empty meta bag |
| `BlockBuilder.Follows` | src/BlockBuilder.ts:53-58 | `"none"` clears the previous connection, any other type sets it verbatim; nothing else changes |
| `BlockBuilder.Preceeds` | src/BlockBuilder.ts:69-74 | `"none"` clears the next connection, any other type sets it verbatim; nothing else changes |
| `BlockBuilder.Outputs` | src/BlockBuilder.ts:96-103 | the output becomes the given type and both previous and next are cleared; nothing else changes |
| `BlockBuilder.OutputsErasesConnections` | src/BlockBuilder.ts:96-103 | `follows`/`preceeds` before `outputs` leave no trace |
| `BlockBuilder.SetHue` | src/BlockBuilder.ts:76-79 | the colour becomes the hue; nothing else changes |
| `BlockBuilder.SetColour` | src/BlockBuilder.ts:81-84 | the colour becomes the given hue or colour string; nothing else changes |
| `BlockBuilder.ColourLastWins` | src/BlockBuilder.ts:76-84 | of two colour calls in a row only the second is visible |
| `BlockBuilder.Inline` | src/BlockBuilder.ts:86-89 | the inline flag becomes true; nothing else changes |
| `BlockBuilder.Extern` | src/BlockBuilder.ts:91-94 | the inline flag becomes false; nothing else changes |
| `BlockBuilder.InlineLastWins` | src/BlockBuilder.ts:86-94 | of `inline()` and `extern()` in a row only the second is visible |
| `BlockBuilder.Meta` | src/BlockBuilder.ts:60-63 | the key gets the new value, every other key keeps its value, and nothing outside the meta bag changes |
| `BlockBuilder.MetaLastWins` | src/BlockBuilder.ts:60-63 | two writes to one key leave the second; writes to different keys commute |
| `BlockBuilder.GetMetaAfterCalls` | src/BlockBuilder.ts:60-67 | after any sequence of `meta` calls on a fresh builder, `getMeta()` has exactly the keys written, each holding the value of the last call that wrote it |
| `BlockBuilder.AddContent` | src/BlockBuilder.ts:105-118 | exactly one content-only row is appended, holding the callback's items in call order; earlier rows and settings are unchanged |
| `BlockBuilder.AddSlot` | src/BlockBuilder.ts:120-145 | exactly one value-slot row with the given key and check is appended, holding the callback's items in call order |
| `BlockBuilder.AddStmt` | src/BlockBuilder.ts:147-158 | exactly one statement row with the given key and check and no content is appended |
| `BlockBuilder.ContentDeclaresKeys` | src/BlockBuilder.ts:105-118 | for a callback without `custom` calls, a content row makes the field accessor accept exactly the keys the callback declares at the type level |
| `BlockBuilder.SlotDeclaresKeys` | src/BlockBuilder.ts:120-145 | for a callback without `custom` calls, a value slot makes the field accessor accept exactly the keys its content callback declares at the type level; the slot's own key is not a field key |
| `BlockBuilder.StmtDeclaresNoFieldKey` | src/BlockBuilder.ts:147-158 | a statement row adds no field key |
| `BlockInit.Capture` | src/BlockBuilder.ts:171-177 | the snapshot holds the colour, connection types and inline flag as they are when it is taken, and the builder's row list |
| `BlockInit.CheckOf` | src/BlockBuilder.ts:242-251 | a row check of `"*"` becomes no check, and any other check is kept |
| `BlockInit.Init` | src/BlockBuilder.ts:179-256 | `init` sets the colour, empty tooltip and help URL, and only the present connections; each row yields one input in order: dummy for content-only, value for slot, statement for stmt, with key, mapped check and content |
| `BlockInit.InitAppend` | src/BlockBuilder.ts:235-255 | appending a row appends exactly its input to `init` and keeps the earlier inputs |
| `BlockInit.SlotYieldsValueInput` | src/BlockBuilder.ts:241-246 | a `slot` row becomes a value input with its key, its mapped check and its content |
| `BlockInit.StmtYieldsStatementInput` | src/BlockBuilder.ts:248-252 | a `stmt` row becomes a statement input with its key and mapped check |
| `BlockInit.FreshBuilderInit` | src/BlockBuilder.ts:185-199 | a fresh builder's block has hue 120, both stack connections typed `"*"`, no output, no inline setting and no inputs |
| `BlockInit.ExpressionHasNoStack` | src/BlockBuilder.ts:185-195 | an expression block's `init` sets its output and never sets a previous or next connection |
| `CodeGen.Message` | src/BlockBuilder.ts:275-288 | the two error messages are `"Failed to find input by key: "` and `"failed to resolve: "` followed by the key |
| `CodeGen.Any` | src/BlockBuilder.ts:282-285 | the `some` scan is true exactly when some element satisfies the test |
| `CodeGen.HasInputKey` | src/BlockBuilder.ts:264-273 | the accessor's nested scan finds a key exactly when some non-statement row has a keyed item with that key |
| `CodeGen.CustomKeyNotReadable` | src/ContentBuilder.ts:35-41 | a `custom` call whose view pushes nothing declares its key at the type level, yet the field accessor fails on that key with the unknown-field error |
| `CodeGen.Lookup` | src/BlockBuilder.ts:262-277 | reading field `p` gives the live block's value for `p` iff some non-statement row has a non-text item keyed `p`, and otherwise fails with the unknown-field error for `p` |
| `CodeGen.Resolve` | src/BlockBuilder.ts:281-289 | a statement-slot key gives `statementToCode`, checked first; else a value-slot key gives `valueToCode` at the order, 99 when none is given; else the unresolvable error for the key |
| `CodeGen.StatementIgnoresOrder` | src/BlockBuilder.ts:282-283 | a statement slot's code does not depend on the order asked for |
| `CodeGen.DefaultOrderIs99` | src/BlockBuilder.ts:285-286 | omitting the order is the same as asking for 99 |
| `CodeGen.ChainNext` | src/BlockBuilder.ts:295-301 | statement code is followed by a newline and the next block's code only when that code is present and non-empty |
| `CodeGen.Interpret` | src/BlockBuilder.ts:292-301 | a value/order result becomes that pair; a string from an expression block becomes the string at order 99; any other string is statement code chained to the next block |
| `CodeGen.NextOnlyForStatements` | src/BlockBuilder.ts:292-293 | expression results never depend on the block attached below |
| `CodeGen.Context` | src/BlockBuilder.ts:279-290 | the implementation's accessor succeeds exactly on declared field keys, and `resolve` fails exactly on keys naming no slot |
| `CodeGen.Generate` | src/BlockBuilder.ts:261-302 | an error escaping the implementation is the generator's error; otherwise the generator returns the interpreted result |
| `CodeGen.StatementScenario` | src/BlockBuilder.ts:292-301 | a statement block returning `"doThing();"` generates exactly that alone, and `"doThing();\ndoOther();"` above a block generating `"doOther();"` |
| `CodeGen.ExpressionScenario` | src/BlockBuilder.ts:292 | an expression block returning value `"1+2"` at order 5 generates that pair |
| `Registration.RunWillConcat` | src/BlockBuilder.ts:167-169 | will hooks compose in plugin-list order |
| `Registration.RunWillHooks` | src/BlockBuilder.ts:167-169 | every will hook runs once, in plugin-list order, each on the builder and plugin state the previous one left |
| `Registration.RunDidHooks` | src/BlockBuilder.ts:304-306 | every did hook runs once, in the same plugin-list order, each on the builder and plugin state the previous one left |
| `Registration.Install` | src/BlockBuilder.ts:179-261 | the shape and the generator are written together under the block's name and every other name keeps its entries |
| `Registration.ReinstallSupersedes` | src/BlockBuilder.ts:179-261 | registering a name again fully replaces the first registration |
| `Registration.Impl` | src/BlockBuilder.ts:160-307 | all will hooks, in order, come before the snapshot; the shape and generator are installed under the hooked builder's name with its scalar settings at that point; all did hooks follow, in the same order; the installed rows are the row list as the did hooks leave it |
| `Registration.DidHookRowReachesEntries` | src/BlockBuilder.ts:171-306 | a did hook that adds a statement row gives the installed shape that statement input and the generator that row, while the installed colour stays the captured one |
| `Toolbox.Put` | src/plugins/plugin-toolbox.ts:40-42 | storing a name gives it the new meta, leaves every other name's entry and every position unchanged, and keeps names distinct |
| `Toolbox.PutLastWins` | src/plugins/plugin-toolbox.ts:40-42 | storing a name twice keeps only the second meta |
| `Toolbox.ColourOf` | src/plugins/plugin-toolbox.ts:36-37 | a category has a colour exactly when it is configured, and it is the configured colour |
| `Toolbox.Inputs` | src/plugins/plugin-toolbox.ts:26 | the entry inputs have exactly the shadow targets, each mapped to a shadow of that block type and fields; no shadow map gives no inputs |
| `Toolbox.BuildToolbox` | src/plugins/plugin-toolbox.ts:15-30 | one category entry per configured category, in order, with that category's name and colour |
| `Toolbox.EntriesSound` | src/plugins/plugin-toolbox.ts:21-27 | every entry of a category is a stored block whose meta category is that category |
| `Toolbox.EntriesComplete` | src/plugins/plugin-toolbox.ts:21-27 | every stored block whose meta category is that category is among its entries |
| `Toolbox.ListedIffCategory` | src/plugins/plugin-toolbox.ts:21-27 | a stored block is listed in a category iff its meta names that category, with its shadow inputs; a block without a category is listed nowhere |
| `Toolbox.BlockWillRegister` | src/plugins/plugin-toolbox.ts:35-39 | a block naming a configured category takes that category's colour; any other block is left untouched |
| `Toolbox.BlockDidRegister` | src/plugins/plugin-toolbox.ts:40-42 | the block's meta is stored under its name and other entries are unchanged |
| `Toolbox.RegisteredBlockListed` | src/plugins/plugin-toolbox.ts:35-42 | registering a block with the toolbox plugin lists it under a configured category iff its meta names that category, and leaves other stored entries as they were |

## Left out

- Blockly rendering and widget construction. This covers `setColour`, `setTooltip`, `appendField`, `setInputsInline` and the dropdown, number, text and variable field constructors. `init` is described by the settings it hands over and its input descriptors.
- The JavaScript `Proxy`. It is replaced by an explicit lookup that returns a value or an error. A read of any property name goes through the same lookup, so non-string property keys are not modelled.
- The host generator and block internals. `statementToCode`, `valueToCode`, `blockToCode`, `getFieldValue` and the next block's code are parameters, not implementations. The next block's code is a parameter even when the source would not compute it. The model is pure, so this changes no result.
- Dropdown option normalisation (`coerceToEntries`). `Manufacturable`, `DropdownOptionDef` and `BlocksRef` are not part of this model. Options are stored exactly as given.
- TypeScript type-level machinery: `IntersectUnion`, `InferMeta`, `CheckType`, generic key narrowing, and the compile-time reserved-name check in `createBlockBuilder`. The key map of `ContentBuilder` is a ghost map, and declared field keys are a ghost set.
- The validation plugin (src/plugins/plugin-validation.ts). It patches a live `onchange` handler and depends on workspace drag state.
- Numbers are unbounded integers, not floating point. This applies to hues, number-box defaults and orders.
- The toolbox store keeps keys in insertion order. JavaScript lists integer-like object keys first, and that is not modelled.
- Category names are assumed distinct, as keys of a record are. The category colour comes from the configured entry at that position.
- `BlockInit.Capture`: in the source, code outside the hooks can also append rows to the builder after `impl` returns, and those rows reach the installed shape and generator because the row list is shared. The model has no builder after `impl`, so only rows added by did-register hooks are covered.
- `Registration.Impl`: a hook in the model may return any builder. The source's hooks can only call the builder's fluent operations, which append rows and never remove one. The model does not promise that the rows only grow.
- `BlockBuilder.ContentDeclaresKeys` and `BlockBuilder.SlotDeclaresKeys` cover callbacks without `custom` calls only. A `custom` call declares its key at the type level whatever its view pushes, so the accessor can reject a declared key (`CodeGen.CustomKeyNotReadable`).
- `Toolbox.BlockWillRegister`: the meta category is typed as a configured category. A category that is named but not configured can only arise through a type escape. There the source calls `take` on the absent colour, which most plausibly throws and aborts `impl`. The model's hooks are total, so it leaves the block unchanged instead.
- A block's `name` is the builder's name after the will hooks ran, as the source reads `this.name` at install time.
- `CodeGen.Interpret`: the source's `typeof result == "object"` also holds for `null`. The model's implementation result is either a string or a value/order pair.
