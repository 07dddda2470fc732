# Virtual TypeScript for Vue single-file components, modelled in Dafny

This project models two parts of the Vue language service that turn a
single-file component (`.vue`) into TypeScript for the TypeScript language
service. It proves what the generated text, mappings and teleports contain.

- **The script generator** (`generate` in `generators/script.ts`). It turns
  an optional `<script>`, an optional `<script setup>` and the offset ranges
  already extracted from them into one TypeScript text. The text is appended
  piece by piece to a code-generation buffer. Alongside the text it records:
  - *mappings*: a source range, a mapped range, a mode (`Offset`, `Expand`
    or `Overlap`), the block tag and the language-feature capabilities;
  - *teleports*: links between two ranges of the generated text.

  The output depends on the consumer (`template` or `script` language
  service) and on which blocks and ranges are present.
- **The entry document of the template language service**
  (`useSfcEntryForTemplateLs`). This is a TypeScript stub built by successive
  `+=`. It imports the options, name and component from the generated
  scripts, and declares the completion contexts and the exported component
  type. Each recomputation gets the next version number. The document is
  tied to the component by a single `Overlap` mapping.

## Modules

- `Wrappers` (`wrappers.dfy`): `Option`.
- `SourceMaps` (`source_maps.dfy`): ranges, modes, block tags, capabilities,
  mappings, teleports, and the `Overlap` mapping to the whole component.
- `CodeGen` (`code_gen.dfy`): the buffer of `@volar/code-gen`, as a class
  with `text` and `mappings`.
  - It keeps a ghost log of the calls made on it (`addText`, `addCode`,
    `addMapping2`), from which both the text and the mappings are determined.
  - `MappingsAppendOnly` states what that append-only discipline guarantees.
- `JsStrings` (`js_strings.dfy`): the string helpers the source calls:
  - JavaScript `substring` with its clamping and swapping;
  - `' '.repeat`;
  - `upath`'s `removeExt`, `basename`, `extname` and `trimExt`;
  - `hyphenate`.
- `ScriptGen` (`script_gen.dfy`):
  - the inputs;
  - for each step of `generate`, a function that gives the calls that step
    makes on the buffer;
  - the class `Generator`, whose fields are the closure's state (`codeGen`,
    `teleports`, `overlapMapRanges`) and whose methods are the nested helpers
    with their loops;
  - `Generate`, proved to produce `Expected(inp)`, the output those calls
    determine.
- `ScriptGenLogs` (`script_gen_logs.dfy`): every call `generate` makes is an
  *allowed* call.
  - A textless mapping is always `Overlap`.
  - An `Offset` mapping from the script or script setup carries exactly the
    source text of its range.
  - Because the log only grows, earlier text and mappings stay prefixes of the
    final ones.
- `ScriptGenProperties` (`script_gen_properties.dfy`): what the output
  contains:
  - extension stripping;
  - the `await` rewrite;
  - mappings that copy their source;
  - mapping order;
  - the trailing `Overlap` mappings;
  - the code-action anchor;
  - the placeholder output;
  - the `name: name` pairs and their teleports;
  - the `__VLS_name` rule.
- `ScriptGenRender` (`script_gen_render.dfy`): the body of the script
  consumer's render function, defined line by line:
  - the `v-bind()` expressions of the styles;
  - the bindings the template uses as tags;
  - the template's code;
  - none of it is mapped.
- `SfcEntryForTemplateLs` (`sfc_entry.dfy`):
  - the lines of the entry document;
  - the methods that append them in the source's order;
  - the class `EntryDocument` with its `version` counter;
  - the source map's one mapping;
  - the properties of the document.

## Model

| member | source | states |
|---|---|---|
| CodeGen.MappingsAppendOnly | packages/vscode-vue-languageservice/src/generators/script.ts:26-101 | calls made on the buffer keep every non-`Overlap` mapping inside the text, in text order and without overlaps |
| CodeGen.CodeGen.constructor | packages/vscode-vue-languageservice/src/generators/script.ts:26 | `createCodeGen()` starts with no text, no mappings and an empty call log |
| CodeGen.CodeGen.GetText | packages/vscode-vue-languageservice/src/generators/script.ts:136-139 | `getText()` returns the text, which is the text of the calls made so far |
| CodeGen.CodeGen.GetMappings | packages/vscode-vue-languageservice/src/generators/script.ts:98-101 | the mappings handed out are those of the calls made so far |
| CodeGen.CodeGen.AddText | packages/vscode-vue-languageservice/src/generators/script.ts:113 | `addText(s)` appends `s` and records no mapping |
| CodeGen.CodeGen.AddTextRange | packages/vscode-vue-languageservice/src/generators/script.ts:286-289 | `addText(s)` also returns the range `[old length, new length)` that `s` now occupies |
| CodeGen.CodeGen.AddCode | packages/vscode-vue-languageservice/src/generators/script.ts:114-132 | `addCode` appends `s` and records exactly one mapping whose mapped range is the span just appended |
| CodeGen.CodeGen.AddMapping2 | packages/vscode-vue-languageservice/src/generators/script.ts:84-95 | `addMapping2` records the mapping and leaves the text unchanged |
| JsStrings.SubstringSlice | packages/vscode-vue-languageservice/src/generators/script.ts:163 | `substring` is the slice when the bounds are in order and in range, the swapped slice when they are reversed, clamps to the string, and is never longer than it |
| JsStrings.SpacesAreSpaces | packages/vscode-vue-languageservice/src/generators/script.ts:150 | `' '.repeat(n)` has length `n` and holds only spaces |
| JsStrings.RemoveExtSpec | packages/vscode-vue-languageservice/src/generators/script.ts:109-111 | `removeExt(s, ext)` drops `ext` when `s` ends with it and otherwise keeps `s` |
| JsStrings.RemoveExtAppended | packages/vscode-vue-languageservice/src/generators/script.ts:109-111 | removing a suffix from `x + ext` gives back `x` |
| JsStrings.LastIndexOfSpec | packages/vscode-vue-languageservice/src/generators/script.ts:431-432 | the index found holds the character and no later index does; -1 when the character is absent |
| JsStrings.BasenameSpec | packages/vscode-vue-languageservice/src/use/useSfcEntryForTemplateLs.ts:19 | `basename(p)` is a suffix of `p` with no `/` in it |
| JsStrings.ExtnameSpec | packages/vscode-vue-languageservice/src/generators/script.ts:431 | `extname(p)` is empty, or starts with `.`, is shorter than the base name and ends it |
| JsStrings.TrimExtSpec | packages/vscode-vue-languageservice/src/generators/script.ts:432 | `trimExt(p)` followed by the extension gives back `p` for extensions of 1 to 7 characters; otherwise `p` is kept |
| JsStrings.HyphenateReplacesThenLowers | packages/vscode-vue-languageservice/src/generators/script.ts:464 | `hyphenate` inserts `-` before each upper-case letter that follows a letter, digit or `_`, then lower-cases every character |
| JsStrings.HyphenateSpec | packages/vscode-vue-languageservice/src/generators/script.ts:464 | `hyphenate` leaves no upper-case letter, does not change a name without one, and never shortens a name |
| ScriptGen.ExposeOneMore | packages/vscode-vue-languageservice/src/generators/script.ts:283-312 | exposing one more name adds its `name: name,\n` calls and one teleport after those of the others |
| ScriptGen.ExposeCallsAppend | packages/vscode-vue-languageservice/src/generators/script.ts:283-312 | exposing two lists of names one after the other is exposing their concatenation, calls and teleports alike |
| ScriptGen.ExposeGroupsStep | packages/vscode-vue-languageservice/src/generators/script.ts:283-284 | the names exposed for the first `g + 1` binding groups are those of the first `g` followed by group `g` |
| ScriptGen.SectionCallsStep | packages/vscode-vue-languageservice/src/generators/script.ts:157-181 | writing one more section appends exactly that section's call |
| ScriptGen.StyleBindCallsStep | packages/vscode-vue-languageservice/src/generators/script.ts:441-445 | one more css bind appends the `// @ts-ignore` line and the bind text line |
| ScriptGen.CssBindCallsStep | packages/vscode-vue-languageservice/src/generators/script.ts:439-446 | one more style appends the calls of all its binds |
| ScriptGen.EchoCallsStep | packages/vscode-vue-languageservice/src/generators/script.ts:463-469 | one more binding name appends its two echo lines exactly when it, or its hyphenated form, is a template tag |
| ScriptGen.OverlapCallsStep | packages/vscode-vue-languageservice/src/generators/script.ts:83-96 | one more overlap range appends exactly one `Overlap` mapping of it |
| ScriptGen.Generator.constructor | packages/vscode-vue-languageservice/src/generators/script.ts:26-29 | the buffer, the teleports and the overlap ranges all start empty |
| ScriptGen.Generator.WriteScriptSrc | packages/vscode-vue-languageservice/src/generators/script.ts:103-141 | the buffer calls are those of the re-export of the stripped `src`, and the range of the text so far is recorded as an overlap range |
| ScriptGen.Generator.WriteScript | packages/vscode-vue-languageservice/src/generators/script.ts:142-183 | the buffer calls are one per section: the whole script, or the three sections of the `await` rewrite |
| ScriptGen.Generator.WriteScriptSetup | packages/vscode-vue-languageservice/src/generators/script.ts:184-208 | the script setup is copied whole with one `Offset` mapping of `[0, |content|)` |
| ScriptGen.Generator.MapSubText | packages/vscode-vue-languageservice/src/generators/script.ts:321-335 | appends the substring of the named block with one `Offset` mapping of that source range carrying references, definitions and rename |
| ScriptGen.Generator.WriteProps | packages/vscode-vue-languageservice/src/generators/script.ts:229-244 | the `props:` option in its runtime, type and `withDefaults` variants |
| ScriptGen.Generator.WriteEmits | packages/vscode-vue-languageservice/src/generators/script.ts:245-254 | the `emits:` option in its runtime and type variants |
| ScriptGen.Generator.ExposeBinding | packages/vscode-vue-languageservice/src/generators/script.ts:285-311 | writes `name: name,\n` and pushes one teleport whose mapped range is the key and whose source range is the value |
| ScriptGen.Generator.ExposeGroup | packages/vscode-vue-languageservice/src/generators/script.ts:284-312 | the inner loop exposes each binding of one group in order |
| ScriptGen.Generator.WriteExposedBindings | packages/vscode-vue-languageservice/src/generators/script.ts:283-313 | the outer loop exposes every group in order, with one teleport per binding |
| ScriptGen.Generator.WithCssBinds | packages/vscode-vue-languageservice/src/generators/script.ts:438-447 | each style bind becomes a `// @ts-ignore` line and a `bind;` line, styles and binds in order |
| ScriptGen.Generator.WriteTemplate | packages/vscode-vue-languageservice/src/generators/script.ts:448-471 | binding names used as tags are echoed under `// @ts-ignore`, then the template text follows; nothing is written without a template |
| ScriptGen.Generator.WriteComponentHead | packages/vscode-vue-languageservice/src/generators/script.ts:210-221 | the `export default` or `export const __VLS_component` head, and the overlap range of the former |
| ScriptGen.Generator.WriteExportComponent | packages/vscode-vue-languageservice/src/generators/script.ts:209-336 | the whole component call: head, spread of the script's options, props, emits, setup and closing |
| ScriptGen.Generator.WriteSetupOptions | packages/vscode-vue-languageservice/src/generators/script.ts:228-317 | the script-setup options and the `setup()` body for each consumer, with the teleports of the exposed bindings |
| ScriptGen.Generator.WriteOption | packages/vscode-vue-languageservice/src/generators/script.ts:340-356 | one optional option: its prefix, the mapped argument and the closing, or nothing |
| ScriptGen.Generator.WriteExportOptions | packages/vscode-vue-languageservice/src/generators/script.ts:337-422 | the `__VLS_options` object with the script options and the script-setup props and emits |
| ScriptGen.Generator.WriteConstNameOption | packages/vscode-vue-languageservice/src/generators/script.ts:423-437 | the `__VLS_name` declaration by the three-way rule |
| ScriptGen.Generator.WriteBeforeComponent | packages/vscode-vue-languageservice/src/generators/script.ts:31-52 | the calls of everything written before the component |
| ScriptGen.Generator.WriteOverlapMappings | packages/vscode-vue-languageservice/src/generators/script.ts:83-96 | one `Overlap` mapping per recorded overlap range, in order |
| ScriptGen.Generator.WriteBody | packages/vscode-vue-languageservice/src/generators/script.ts:28-76 | everything before the overlap loop: the calls, the recorded overlap ranges and the teleports are those the specification determines |
| ScriptGen.Generator.WriteAfterComponent | packages/vscode-vue-languageservice/src/generators/script.ts:57-76 | for the template consumer, the options and the name after the component; for the script consumer with a script setup, the code-action anchor |
| ScriptGen.Generate | packages/vscode-vue-languageservice/src/generators/script.ts:10-101 | the output is the text, mappings and teleports that the specification of the whole call sequence determines |
| ScriptGenLogs.GrowsAdd | packages/vscode-vue-languageservice/src/generators/script.ts:10-101 | a call the generator may make extends a growing log |
| ScriptGenLogs.GrowsTrans | packages/vscode-vue-languageservice/src/generators/script.ts:10-101 | growth composes |
| ScriptGenLogs.GrowsPrefix | packages/vscode-vue-languageservice/src/generators/script.ts:10-101 | when the log grows, the earlier text and mappings stay as prefixes |
| ScriptGenLogs.GrowsExtrasOverlap | packages/vscode-vue-languageservice/src/generators/script.ts:83-96 | a log grown from empty records no textless mapping other than `Overlap` ones |
| ScriptGenLogs.TsNoCheckGrows | packages/vscode-vue-languageservice/src/generators/script.ts:31-33 | the `@ts-nocheck` line is an allowed call |
| ScriptGenLogs.ScriptSrcGrows | packages/vscode-vue-languageservice/src/generators/script.ts:103-141 | the re-export calls are allowed calls |
| ScriptGenLogs.SectionsGrow | packages/vscode-vue-languageservice/src/generators/script.ts:157-181 | section calls copy their script range exactly |
| ScriptGenLogs.ScriptGrows | packages/vscode-vue-languageservice/src/generators/script.ts:142-183 | the script calls copy their ranges exactly |
| ScriptGenLogs.ScriptSetupGrows | packages/vscode-vue-languageservice/src/generators/script.ts:184-208 | the script-setup call copies its range exactly |
| ScriptGenLogs.FallbackGrows | packages/vscode-vue-languageservice/src/generators/script.ts:39-52 | the placeholder export is an allowed call |
| ScriptGenLogs.AfterSrcGrows | packages/vscode-vue-languageservice/src/generators/script.ts:35-52 | everything from the re-export lines up to the component grows the log |
| ScriptGenLogs.BeforeComponentGrows | packages/vscode-vue-languageservice/src/generators/script.ts:31-52 | everything before the component grows the empty log |
| ScriptGenLogs.ComponentHeadGrows | packages/vscode-vue-languageservice/src/generators/script.ts:210-221 | the component head grows the log |
| ScriptGenLogs.ComponentArgsGrows | packages/vscode-vue-languageservice/src/generators/script.ts:222-227 | the spread of the script options grows the log |
| ScriptGenLogs.PropsGrows | packages/vscode-vue-languageservice/src/generators/script.ts:229-244 | the props option grows the log |
| ScriptGenLogs.EmitsGrows | packages/vscode-vue-languageservice/src/generators/script.ts:245-254 | the emits option grows the log |
| ScriptGenLogs.ExposeGrows | packages/vscode-vue-languageservice/src/generators/script.ts:283-313 | the exposed pairs grow the log |
| ScriptGenLogs.StyleBindGrows | packages/vscode-vue-languageservice/src/generators/script.ts:441-445 | the binds of one style grow the log |
| ScriptGenLogs.CssBindGrows | packages/vscode-vue-languageservice/src/generators/script.ts:438-447 | the css binds grow the log |
| ScriptGenLogs.EchoGrows | packages/vscode-vue-languageservice/src/generators/script.ts:463-469 | the echo lines grow the log |
| ScriptGenLogs.TemplateGrows | packages/vscode-vue-languageservice/src/generators/script.ts:448-471 | the template calls grow the log |
| ScriptGenLogs.SetupOpenGrows | packages/vscode-vue-languageservice/src/generators/script.ts:255-282 | the opening of `setup()` grows the log |
| ScriptGenLogs.SetupCloseGrows | packages/vscode-vue-languageservice/src/generators/script.ts:314-316 | the closing of `setup()` grows the log |
| ScriptGenLogs.SetupGrows | packages/vscode-vue-languageservice/src/generators/script.ts:228-317 | the script-setup options grow the log |
| ScriptGenLogs.ComponentGrows | packages/vscode-vue-languageservice/src/generators/script.ts:209-336 | the component grows the log |
| ScriptGenLogs.OptionGrows | packages/vscode-vue-languageservice/src/generators/script.ts:340-356 | one option of `__VLS_options` grows the log |
| ScriptGenLogs.ExportOptionsGrows | packages/vscode-vue-languageservice/src/generators/script.ts:337-422 | the options object grows the log |
| ScriptGenLogs.ConstNameGrows | packages/vscode-vue-languageservice/src/generators/script.ts:423-437 | the name declaration grows the log |
| ScriptGenLogs.AnchorGrows | packages/vscode-vue-languageservice/src/generators/script.ts:62-76 | the code-action anchor grows the log |
| ScriptGenLogs.OverlapGrows | packages/vscode-vue-languageservice/src/generators/script.ts:83-96 | the overlap mappings grow the log |
| ScriptGenLogs.AfterComponentGrows | packages/vscode-vue-languageservice/src/generators/script.ts:57-96 | everything after the component grows the log |
| ScriptGenLogs.BodyGrows | packages/vscode-vue-languageservice/src/generators/script.ts:54-96 | the component grows into the body, and the body into the whole log |
| ScriptGenLogs.AllCallsGrow | packages/vscode-vue-languageservice/src/generators/script.ts:10-101 | the whole log of `generate` is made of allowed calls |
| ScriptGenLogs.HeadGrowsToAll | packages/vscode-vue-languageservice/src/generators/script.ts:54-96 | the log grows from the component head to its end |
| ScriptGenLogs.ToAllGrows | packages/vscode-vue-languageservice/src/generators/script.ts:54-96 | the log grows from the component to its end |
| ScriptGenLogs.RenderedGrowsToAll | packages/vscode-vue-languageservice/src/generators/script.ts:274-288 | the log grows from `return () => {` through the render body to its end |
| ScriptGenLogs.GrowsMapsAfter | packages/vscode-vue-languageservice/src/generators/script.ts:26-101 | mappings added as the log grows start no earlier than the text it had |
| ScriptGenLogs.ExposedGrowsToAll | packages/vscode-vue-languageservice/src/generators/script.ts:283-319 | the log grows from the last exposed pair to its end |
| ScriptGenProperties.DtsEndsWithTs | packages/vscode-vue-languageservice/src/generators/script.ts:109-110 | a path ending in `.d.ts` also ends in `.ts`, which is why `.d.ts` is tested first |
| ScriptGenProperties.StripTsExtCases | packages/vscode-vue-languageservice/src/generators/script.ts:109-111 | with `removeExt` taken as a suffix drop (see Left out): `x.d.ts` becomes `x` (not `x.d`), `x.ts` and `x.tsx` become `x`, and any other path is kept |
| ScriptGenProperties.ReexportText | packages/vscode-vue-languageservice/src/generators/script.ts:31-134 | the text before the script is the optional `@ts-nocheck` line and the two re-export lines of the stripped path |
| ScriptGenProperties.SrcReexport | packages/vscode-vue-languageservice/src/generators/script.ts:103-139 | with a `src` the output starts with those lines, and the first overlap range covers exactly them |
| ScriptGenProperties.SectionCallsThree | packages/vscode-vue-languageservice/src/generators/script.ts:157-181 | three sections write their texts in order |
| ScriptGenProperties.AwaitRewriteText | packages/vscode-vue-languageservice/src/generators/script.ts:148-152 | the script is written as `content[..exportDefault.start]`, then `await` padded with spaces, then `content[expression.start..]`, keeping its length |
| ScriptGenProperties.ScriptCopiedWhole | packages/vscode-vue-languageservice/src/generators/script.ts:153-155 | otherwise the script is copied whole |
| ScriptGenProperties.GrowsCopiesSource | packages/vscode-vue-languageservice/src/generators/script.ts:162-192 | allowed calls keep every script and script-setup `Offset` mapping pointing at text equal to its source substring |
| ScriptGenProperties.CopiesSourceLengths | packages/vscode-vue-languageservice/src/generators/script.ts:162-192 | such mappings of valid ranges have equal source and mapped lengths |
| ScriptGenProperties.OffsetMappingsCopySource | packages/vscode-vue-languageservice/src/generators/script.ts:162-165 | in the output, the text at every script or script-setup `Offset` mapping is its source substring, with equal lengths |
| ScriptGenProperties.MappingsInOrder | packages/vscode-vue-languageservice/src/generators/script.ts:10-101 | output mappings other than `Overlap` lie inside the text, in order, without overlaps |
| ScriptGenProperties.OverlapCallsEffect | packages/vscode-vue-languageservice/src/generators/script.ts:83-96 | the overlap loop adds no text and exactly one `OverlapMapping` per range, in order |
| ScriptGenProperties.TrailingOverlaps | packages/vscode-vue-languageservice/src/generators/script.ts:83-96 | the output text is that of everything written before the loop, and its mappings end with one `Overlap`, `sfc`, empty-capability mapping from `[0, 0)` per overlap range, in order |
| ScriptGenProperties.OverlapRangeCount | packages/vscode-vue-languageservice/src/generators/script.ts:136-139 | one overlap range is recorded for a `src`, and one more for the default export of the script consumer with a script setup |
| ScriptGenProperties.ExportDefaultOverlap | packages/vscode-vue-languageservice/src/generators/script.ts:210-216 | the last overlap range covers exactly the `export default __VLS_defineComponent({` line |
| ScriptGenProperties.CodeActionAnchor | packages/vscode-vue-languageservice/src/generators/script.ts:62-76 | the mapping before the overlaps is the zero-length anchor from the end of the script setup to the end of the text |
| ScriptGenProperties.PlaceholderOnly | packages/vscode-vue-languageservice/src/generators/script.ts:39-55 | with neither block, the script consumer's output is only `export default {} as any` with one `Expand` mapping |
| ScriptGenProperties.TemplateNoCheck | packages/vscode-vue-languageservice/src/generators/script.ts:31-33 | the template consumer's text starts with `// @ts-nocheck` |
| ScriptGenProperties.PairAtExtended | packages/vscode-vue-languageservice/src/generators/script.ts:285-289 | a `name: name` pair stays in place when text is appended |
| ScriptGenProperties.PairAtNew | packages/vscode-vue-languageservice/src/generators/script.ts:285-311 | the pair just written matches its teleport |
| ScriptGenProperties.ExposeLastText | packages/vscode-vue-languageservice/src/generators/script.ts:285-289 | exposing one more name appends its pair text |
| ScriptGenProperties.ExposePairs | packages/vscode-vue-languageservice/src/generators/script.ts:283-313 | each exposed name writes `name: name` with one teleport from the value to the key |
| ScriptGenProperties.ExposedNamesOrder | packages/vscode-vue-languageservice/src/generators/script.ts:260-273 | script-setup bindings are exposed first, then script ones |
| ScriptGenProperties.ExposedPairsWritten | packages/vscode-vue-languageservice/src/generators/script.ts:283-313 | every `name: name` pair written for an exposed binding is still in the final text, linked by its teleport |
| ScriptGenProperties.ExposedTeleports | packages/vscode-vue-languageservice/src/generators/script.ts:260-313 | the template consumer with a script setup has exactly one teleport per exposed binding, as a `name: name` pair with references, definitions and rename both ways; otherwise there are none |
| ScriptGenProperties.VueBaseNameSpec | packages/vscode-vue-languageservice/src/generators/script.ts:431-432 | for a `.vue` uri, the declared name has no `/`, and the uri ends with it followed by `.vue` |
| ScriptGenProperties.ConstNameRule | packages/vscode-vue-languageservice/src/generators/script.ts:423-437 | the calls append a newline and then `NameDeclaration(inp)`, the `__VLS_name` declaration by the three-way rule (the args text unmapped; or the declared base name of a `.vue` file with a script setup; or `undefined`), and add no mapping |
| ScriptGenProperties.NameDeclaredLast | packages/vscode-vue-languageservice/src/generators/script.ts:57-60 | the template consumer's output ends with a newline and the `__VLS_name` declaration |
| ScriptGenRender.EchoedExactly | packages/vscode-vue-languageservice/src/generators/script.ts:462-465 | a name is echoed exactly when it is a binding name that the template uses as a tag, itself or hyphenated |
| ScriptGenRender.StyleBindCallsText | packages/vscode-vue-languageservice/src/generators/script.ts:441-445 | the calls for the binds of one style append, for each bind in order, `// @ts-ignore\n` and its expression followed by `;\n`, and add no mapping |
| ScriptGenRender.CssBindCallsText | packages/vscode-vue-languageservice/src/generators/script.ts:439-446 | the calls of `withCssBinds` append the bind lines of every style in order, and add no mapping |
| ScriptGenRender.EchoCallsText | packages/vscode-vue-languageservice/src/generators/script.ts:463-469 | the echo calls append `// @ts-ignore\n` and `name;\n` for exactly the echoed names, in order, and add no mapping |
| ScriptGenRender.RenderBodyCalls | packages/vscode-vue-languageservice/src/generators/script.ts:277-278 | `withCssBinds()` then `writeTemplate()` append the css bind lines, then with a template the echo lines and the template text, and add no mapping |
| ScriptGenRender.RenderBody | packages/vscode-vue-languageservice/src/generators/script.ts:274-279 | for the script consumer with a script setup, the output holds right after `return () => {\n` the css bind lines of every style, then with a template the echo lines of exactly the binding names used as tags, in order, and the template text; no non-`Overlap` mapping reaches into that text |
| SfcEntryForTemplateLs.AppendBlockLines | packages/vscode-vue-languageservice/src/use/useSfcEntryForTemplateLs.ts:23-48 | the imports for the blocks present, or the four stand-in declarations, appended one by one |
| SfcEntryForTemplateLs.AppendContextLines | packages/vscode-vue-languageservice/src/use/useSfcEntryForTemplateLs.ts:49-57 | the context declarations and the five completion markers, appended one by one |
| SfcEntryForTemplateLs.AppendExportLines | packages/vscode-vue-languageservice/src/use/useSfcEntryForTemplateLs.ts:58-62 | the exported component type, with the slots or the no-template comment |
| SfcEntryForTemplateLs.BuildContent | packages/vscode-vue-languageservice/src/use/useSfcEntryForTemplateLs.ts:21-62 | the content is the concatenation of every appended line, in order |
| SfcEntryForTemplateLs.EntryDocument.constructor | packages/vscode-vue-languageservice/src/use/useSfcEntryForTemplateLs.ts:16 | the counter starts at 0 |
| SfcEntryForTemplateLs.EntryDocument.Compute | packages/vscode-vue-languageservice/src/use/useSfcEntryForTemplateLs.ts:17-63 | the document has uri `vueUri + ".ts"`, language `typescript`, the current version and the built content; the counter then moves on by one, so documents are numbered 0, 1, 2, … |
| SfcEntryForTemplateLs.EntryMappingsCoverText | packages/vscode-vue-languageservice/src/use/useSfcEntryForTemplateLs.ts:74-88 | the only mapping is `Overlap` from `[0, 0)`, lies within the text, and maps every offset of the document |
| SfcEntryForTemplateLs.EntryFrame | packages/vscode-vue-languageservice/src/use/useSfcEntryForTemplateLs.ts:22-62 | the content starts with `// @ts-nocheck\n` and ends with `};\n` |
| SfcEntryForTemplateLs.FallbackIffNoScript | packages/vscode-vue-languageservice/src/use/useSfcEntryForTemplateLs.ts:23-48 | the four stand-in declarations follow the pragma exactly when there is neither script nor script setup |
| SfcEntryForTemplateLs.NoScriptNoImports | packages/vscode-vue-languageservice/src/use/useSfcEntryForTemplateLs.ts:43-62 | without a script, no line of the document starts with `import ` |
| SfcEntryForTemplateLs.ScriptSetupTakesPrecedence | packages/vscode-vue-languageservice/src/use/useSfcEntryForTemplateLs.ts:29-41 | with a script setup, a plain script beside it changes nothing, and `__VLS_component` is imported by name |
| SfcEntryForTemplateLs.ScriptSetupSelectsNothing | packages/vscode-vue-languageservice/src/use/useSfcEntryForTemplateLs.ts:29-41 | with a script setup, neither `__VLS_SelectComponent` line is written |
| SfcEntryForTemplateLs.NoScriptIgnoresTsDoc | packages/vscode-vue-languageservice/src/use/useSfcEntryForTemplateLs.ts:20-48 | without a script, the document does not depend on `hasTsDoc` |
| SfcEntryForTemplateLs.FromTsSuffix | packages/vscode-vue-languageservice/src/use/useSfcEntryForTemplateLs.ts:24 | an import path ends in `_ts';` exactly when its module name ends in `_ts` |
| SfcEntryForTemplateLs.TsImportsIffTsDoc | packages/vscode-vue-languageservice/src/use/useSfcEntryForTemplateLs.ts:20-38 | the `_ts` imports read `__VLS_script_ts` exactly when `hasTsDoc`; the other imports never do |
| SfcEntryForTemplateLs.SlotsIffTemplate | packages/vscode-vue-languageservice/src/use/useSfcEntryForTemplateLs.ts:61 | the slots line names the template module exactly when there is a template, and `// no template` stands there otherwise |

## Left out

- The internals of `@volar/code-gen` are not part of this model. The buffer is modelled only by what the generator relies on: append text, append text with one mapping, add a mapping, read the text.
- `TsSourceMap` and the rest of `utils/sourceMaps` are not part of this model. Neither is translating positions through mappings or teleports. The entry document's source map is modelled as its list of mappings only; the constructor arguments (the `.vue` document, `'template'`, the feature flags) are left out.
- `getHtmlGen` and `getSfcStyles` (the template compiler and the style documents) are taken as inputs: the template text, its set of tag names, and each style's text with its `v-bind` ranges.
- `ScriptRanges` and `ScriptSetupRanges` come from parsers that are not part of this model. They are taken as given inputs.
- `JsStrings.HyphenateSpec`: `hyphenate` is modelled on ASCII letters only. Upper-case means `A`-`Z`, and lower-casing of other characters is not modelled.
- `JsStrings.RemoveExtSpec`: `upath.removeExt(s, ext)` is modelled as dropping `ext` when `s` ends with it. The upath source is not part of this model. Published upath versions instead strip only when `extname(s)` equals `ext`, and `extname` of `x.d.ts` is `.ts`. So the `.d.ts` case of `ScriptGenProperties.StripTsExtCases` (`x.d.ts` becomes `x`) holds for this model only; the real program may keep `x.d.ts` unchanged.
- `JsStrings.TrimExtSpec`: `basename`, `extname` and `trimExt` are modelled on `/`-separated paths. `trimExt` drops extensions of at most 7 characters; Windows separators are not modelled.
- `ScriptGen.Generate`: requires that `expression.start - exportDefault.start` is at least 5 whenever the `await` rewrite applies. Below that, `' '.repeat` throws in JavaScript, and the exception is not modelled.
- The `scriptSrc` mapping's source range is the deliberate `{-1, -1}`. No property constrains it.
- `SfcEntryForTemplateLs.EntryDocument.Compute`: Vue's `computed` reactivity is replaced by an explicit call per recomputation, and `TextDocument.create` by a record of uri, language, version and text.
- `shared.uriToFsPath` is not part of this model. The file-system path of the `.vue` uri is given to `EntryDocument`'s constructor.
- The five `SearchTexts` constants are parameters of the entry document, and their values are not fixed.
- The `if (textDocument.value)` guard of the source map always holds and is not modelled.
- JavaScript strings are sequences of UTF-16 code units. They are modelled as `seq<char>`; lengths and offsets count code units in both.
- The registration of language features (`packages/server/src/registers/registerlanguageFeatures.ts`) and the TypeScript definition service (`packages/vscode-typescript-languageservice/src/services/definition.ts`) are not part of this model. They are glue over the protocol and over the TypeScript language service.
