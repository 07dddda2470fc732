/** The virtual-script generator of a single-file component: from an
    optional `<script>` block, an optional `<script setup>` block and the
    offset ranges extracted from them, it builds one TypeScript text in a
    code-gen buffer, with the mappings back to the blocks and the teleports
    between the two occurrences of every exposed binding.

    The first half of the module gives, as functions of the inputs, the
    calls each step makes on the buffer; the `Generator` class below runs
    the steps on a real buffer and is proved to make exactly those calls. */
module ScriptGen {
  import opened Wrappers
  import opened SourceMaps
  import opened CodeGen
  import opened JsStrings

  /** The two consumers: the template language service and the script one. */
  datatype LsType = TemplateLs | ScriptLs

  datatype ScriptBlock = ScriptBlock(src: Option<string>, content: string)

  datatype ScriptSetupBlock = ScriptSetupBlock(content: string)

  /** `scriptRanges.exportDefault`: the statement's own bounds, its
      expression and, when the expression is a call, its argument. */
  datatype ExportDefaultRanges = ExportDefaultRanges(start: int, end: int, expression: Range, args: Option<Range>)

  datatype ScriptRanges = ScriptRanges(exportDefault: Option<ExportDefaultRanges>, bindings: seq<Range>)

  datatype ScriptSetupRanges = ScriptSetupRanges(
    propsRuntimeArg: Option<Range>,
    propsTypeArg: Option<Range>,
    withDefaultsArg: Option<Range>,
    emitsRuntimeArg: Option<Range>,
    emitsTypeArg: Option<Range>,
    bindings: seq<Range>)

  /** What the template compiler hands over: the generated template code and
      the tag names the template uses. */
  datatype HtmlGen = HtmlGen(text: string, tags: set<string>)

  /** A style block's text and the ranges of its `v-bind()` expressions. */
  datatype StyleDoc = StyleDoc(text: string, binds: seq<Range>)

  datatype Inputs = Inputs(
    lsType: LsType,
    uri: string,
    script: Option<ScriptBlock>,
    scriptSetup: Option<ScriptSetupBlock>,
    scriptRanges: Option<ScriptRanges>,
    scriptSetupRanges: Option<ScriptSetupRanges>,
    htmlGen: Option<HtmlGen>,
    styles: seq<StyleDoc>)

  /** The buffer's text and mappings, and the teleports. */
  datatype Output = Output(text: string, mappings: seq<Mapping>, teleports: seq<Teleport>)

  // ---------------------------------------------------------------------
  // Conditions on the inputs

  predicate IsScriptLs(inp: Inputs) {
    inp.lsType == ScriptLs
  }

  /** `shouldAddExportDefault`. */
  predicate ShouldAddExportDefault(inp: Inputs) {
    inp.lsType == ScriptLs && inp.scriptSetup.Some?
  }

  /** `script?.src` is set (a non-empty string). */
  predicate HasSrc(inp: Inputs) {
    inp.script.Some? && inp.script.value.src.Some? && inp.script.value.src.value != ""
  }

  /** The `export default` of the script is rewritten with `await`. */
  predicate RewritesAwait(inp: Inputs) {
    ShouldAddExportDefault(inp) && inp.script.Some? &&
    inp.scriptRanges.Some? && inp.scriptRanges.value.exportDefault.Some?
  }

  /** The width `await` is padded to: from `export default` to its expression. */
  function AwaitWidth(inp: Inputs): int
    requires RewritesAwait(inp)
  {
    var ed := inp.scriptRanges.value.exportDefault.value;
    ed.expression.start - ed.start
  }

  /** `' '.repeat` is not given a negative count. */
  predicate AwaitFits(inp: Inputs) {
    RewritesAwait(inp) ==> AwaitWidth(inp) >= 5
  }

  /** `script && scriptRanges?.exportDefault?.args`. */
  predicate HasArgs(inp: Inputs) {
    inp.script.Some? && inp.scriptRanges.Some? &&
    inp.scriptRanges.value.exportDefault.Some? && inp.scriptRanges.value.exportDefault.value.args.Some?
  }

  function Args(inp: Inputs): Range
    requires HasArgs(inp)
  {
    inp.scriptRanges.value.exportDefault.value.args.value
  }

  /** `scriptSetup && scriptSetupRanges`: the component gets props, emits and setup. */
  predicate HasSetupOptions(inp: Inputs) {
    inp.scriptSetup.Some? && inp.scriptSetupRanges.Some?
  }

  /** `lsType === 'template' || shouldAddExportDefault`. */
  predicate WritesComponent(inp: Inputs) {
    inp.lsType == TemplateLs || ShouldAddExportDefault(inp)
  }

  /** The content of the block a tag names, empty when that block is absent. */
  function BlockContent(inp: Inputs, tag: VueTag): string {
    if tag == Script && inp.script.Some? then inp.script.value.content
    else if tag == ScriptSetup && inp.scriptSetup.Some? then inp.scriptSetup.value.content
    else []
  }

  // ---------------------------------------------------------------------
  // Capabilities used at the call sites

  function SrcCapabilities(isScript: bool): Capabilities {
    Capabilities(Some(isScript), Some(true), Some(isScript), Some(true), Some(isScript),
                 Some(isScript), Some(isScript), Some(isScript), Some(isScript))
  }

  function ScriptCapabilities(isScript: bool): Capabilities {
    Capabilities(Some(isScript), Some(true), Some(isScript), Some(true), Some(true),
                 Some(isScript), Some(isScript), Some(isScript), Some(isScript))
  }

  function ScriptSetupCapabilities(isScript: bool): Capabilities {
    Capabilities(Some(isScript), Some(true), Some(isScript), Some(true), Some(isScript),
                 None, Some(isScript), Some(isScript), None)
  }


  // ---------------------------------------------------------------------
  // What each step records. `XCalls(inp, log)` is the buffer's call log
  // after step X runs on a buffer whose log is `log`.

  const TsNoCheck := "// @ts-nocheck\n"
  const ExportDefaultLine := "export default __VLS_defineComponent({\n"
  const EmptyExportDefault := "export default {} as any"

  function TsNoCheckCalls(inp: Inputs, log: Log): Log {
    if inp.lsType == TemplateLs then log.Add(Plain(TsNoCheck)) else log
  }

  /** The `src` path with a `.d.ts`, `.ts` or `.tsx` extension removed,
      `.d.ts` being tested first. */
  function StripTsExt(src: string): string {
    if EndsWith(src, ".d.ts") then RemoveExt(src, ".d.ts")
    else if EndsWith(src, ".ts") then RemoveExt(src, ".ts")
    else if EndsWith(src, ".tsx") then RemoveExt(src, ".tsx")
    else src
  }

  /** The module the re-exports name: `src` without its TypeScript extension. */
  function SrcPath(inp: Inputs): string
    requires HasSrc(inp)
  {
    StripTsExt(inp.script.value.src.value)
  }

  /** The quoted module path, mapped to the `src` attribute. */
  function SrcCode(inp: Inputs): Piece
    requires HasSrc(inp)
  {
    Code("'" + SrcPath(inp) + "'", Range(-1, -1), Offset, MappingData(ScriptSrc, SrcCapabilities(IsScriptLs(inp))))
  }

  /** `writeScriptSrc`: re-export everything and the default export of `src`. */
  function ScriptSrcCalls(inp: Inputs, log: Log): Log {
    if !HasSrc(inp) then log
    else
      log.Add(Plain("export * from ")).Add(SrcCode(inp)).Add(Plain(";\n"))
      .Add(Plain("export { default } from '" + SrcPath(inp) + "';\n"))
  }

  /** A part of the script: a range of its content, or a literal. */
  datatype Section = Span(range: Range) | Literal(text: string)

  /** The `sections` of `writeScript`: the whole script, or, when the script
      consumer needs its own default export, the script with `export default`
      replaced by `await` padded to the same width. */
  function ScriptSections(inp: Inputs): seq<Section>
    requires inp.script.Some? && AwaitFits(inp)
  {
    if RewritesAwait(inp) then
      var ed := inp.scriptRanges.value.exportDefault.value;
      [Span(Range(0, ed.start)),
       Literal("await" + Spaces(AwaitWidth(inp) - 5)),
       Span(Range(ed.expression.start, |inp.script.value.content|))]
    else
      [Span(Range(0, |inp.script.value.content|))]
  }

  function SectionPiece(inp: Inputs, section: Section): Piece {
    match section
    case Literal(t) => Plain(t)
    case Span(r) =>
      Code(Substring(BlockContent(inp, Script), r.start, r.end), r, Offset,
           MappingData(Script, ScriptCapabilities(IsScriptLs(inp))))
  }

  function SectionCalls(inp: Inputs, sections: seq<Section>, log: Log): Log {
    if sections == [] then log
    else SectionCalls(inp, sections[..|sections| - 1], log).Add(SectionPiece(inp, sections[|sections| - 1]))
  }

  /** `writeScript`. */
  function ScriptCalls(inp: Inputs, log: Log): Log
    requires AwaitFits(inp)
  {
    if inp.script.None? then log else SectionCalls(inp, ScriptSections(inp), log)
  }

  /** `writeScriptSetup`: the whole script setup, mapped. */
  function ScriptSetupCalls(inp: Inputs, log: Log): Log {
    if inp.scriptSetup.None? then log
    else
      var content := inp.scriptSetup.value.content;
      log.Add(Code(content, Range(0, |content|), Offset,
                  MappingData(ScriptSetup, ScriptSetupCapabilities(IsScriptLs(inp)))))
  }

  /** The placeholder export for the script consumer when there is no block. */
  function FallbackCalls(inp: Inputs, log: Log): Log {
    if inp.lsType == ScriptLs && inp.script.None? && inp.scriptSetup.None? then
      log.Add(Code(EmptyExportDefault, Range(0, 0), Expand, MappingData(Sfc, NoCapabilities)))
    else log
  }

  /** Everything written before the component. */
  function BeforeComponent(inp: Inputs): Log
    requires AwaitFits(inp)
  {
    FallbackCalls(inp, ScriptSetupCalls(inp, ScriptCalls(inp, ScriptSrcCalls(inp, TsNoCheckCalls(inp, Empty)))))
  }

  /** `mapSubText(tag, r.start, r.end)`. */
  function SubText(inp: Inputs, tag: VueTag, r: Range): Piece {
    Code(Substring(BlockContent(inp, tag), r.start, r.end), r, Offset,
         MappingData(tag, ReferencesDefinitionsRename))
  }

  function ComponentHeadCalls(inp: Inputs, log: Log): Log {
    if ShouldAddExportDefault(inp) then log.Add(Plain(ExportDefaultLine))
    else log.Add(Plain("\n")).Add(Plain("export const __VLS_component = __VLS_defineComponent({\n"))
  }

  function ComponentArgsCalls(inp: Inputs, log: Log): Log {
    if HasArgs(inp) then log.Add(Plain("...(")).Add(SubText(inp, Script, Args(inp))).Add(Plain("),\n"))
    else log
  }

  /** The `props` option of the component. */
  function PropsCalls(inp: Inputs, r: ScriptSetupRanges, log: Log): Log {
    if r.propsRuntimeArg.Some? || r.propsTypeArg.Some? then
      var l1 := log.Add(Plain("props: ("));
      var l2 := if r.withDefaultsArg.Some? then l1.Add(Plain("__VLS_mergePropDefaults(")) else l1;
      var l3 :=
        if r.propsRuntimeArg.Some? then l2.Add(SubText(inp, ScriptSetup, r.propsRuntimeArg.value))
        else l2.Add(Plain("{} as __VLS_DefinePropsToOptions<")).Add(SubText(inp, ScriptSetup, r.propsTypeArg.value)).Add(Plain(">"));
      var l4 :=
        if r.withDefaultsArg.Some? then l3.Add(Plain(", ")).Add(SubText(inp, ScriptSetup, r.withDefaultsArg.value)).Add(Plain(")"))
        else l3;
      l4.Add(Plain("),\n"))
    else log
  }

  /** The `emits` option of the component. */
  function EmitsCalls(inp: Inputs, r: ScriptSetupRanges, log: Log): Log {
    if r.emitsRuntimeArg.Some? then
      log.Add(Plain("emits: (")).Add(SubText(inp, ScriptSetup, r.emitsRuntimeArg.value)).Add(Plain("),\n"))
    else if r.emitsTypeArg.Some? then
      log.Add(Plain("emits: ({} as __VLS_ConstructorOverloads<")).Add(SubText(inp, ScriptSetup, r.emitsTypeArg.value))
      .Add(Plain(">),\n"))
    else log
  }

  /** The texts of a block at the given ranges. */
  function BindingTexts(content: string, ranges: seq<Range>): seq<string> {
    seq(|ranges|, i requires 0 <= i < |ranges| => Substring(content, ranges[i].start, ranges[i].end))
  }

  /** An entry of `bindingsArr`. */
  datatype BindingGroup = BindingGroup(bindings: seq<Range>, content: string, vueTag: VueTag)

  /** `bindingsArr`: the script-setup bindings, then the script ones. */
  function BindingGroups(inp: Inputs): seq<BindingGroup>
    requires HasSetupOptions(inp)
  {
    var setup := BindingGroup(inp.scriptSetupRanges.value.bindings, inp.scriptSetup.value.content, ScriptSetup);
    if inp.scriptRanges.Some? && inp.script.Some?
    then [setup] + [BindingGroup(inp.scriptRanges.value.bindings, inp.script.value.content, Script)]
    else [setup]
  }

  /** The names one group exposes. */
  function GroupNames(group: BindingGroup): seq<string> {
    BindingTexts(group.content, group.bindings)
  }

  /** The names the groups expose, in order. */
  function ExposedNames(groups: seq<BindingGroup>): seq<string> {
    if groups == [] then [] else ExposedNames(groups[..|groups| - 1]) + GroupNames(groups[|groups| - 1])
  }

  /** `name: name,\n` for each exposed name. */
  function ExposeCalls(names: seq<string>, log: Log): Log {
    if names == [] then log
    else
      var name := names[|names| - 1];
      ExposeCalls(names[..|names| - 1], log).Add(Plain(name)).Add(Plain(": ")).Add(Plain(name)).Add(Plain(",\n"))
  }

  /** The teleport of a `name: name,\n` pair written at offset `at`: from
      the value occurrence to the key occurrence. */
  function ExposeTeleport(at: int, name: string): Teleport {
    Teleport(Range(at + |name| + 2, at + 2 * |name| + 2), Range(at, at + |name|), Offset,
             ReferencesDefinitionsRename, ReferencesDefinitionsRename)
  }

  /** The teleports of the pairs `ExposeCalls(names, log)` writes. */
  function ExposeTeleports(names: seq<string>, log: Log): seq<Teleport> {
    if names == [] then []
    else
      var init := names[..|names| - 1];
      ExposeTeleports(init, log) + [ExposeTeleport(|TextOf(ExposeCalls(init, log))|, names[|names| - 1])]
  }

  /** One more exposed name writes one more pair and adds one teleport. */
  lemma ExposeOneMore(names: seq<string>, name: string, log: Log)
    ensures ExposeCalls(names + [name], log)
         == ExposeCalls(names, log).Add(Plain(name)).Add(Plain(": ")).Add(Plain(name)).Add(Plain(",\n"))
    ensures ExposeTeleports(names + [name], log)
         == ExposeTeleports(names, log) + [ExposeTeleport(|TextOf(ExposeCalls(names, log))|, name)]
  {
    assert (names + [name])[..|names|] == names;
  }

  /** Exposing `a` then `b` is exposing `a + b`: the pairs of `b` follow
      those of `a`, and so do their teleports. */
  lemma {:induction false} ExposeCallsAppend(a: seq<string>, b: seq<string>, log: Log)
    ensures ExposeCalls(a + b, log) == ExposeCalls(b, ExposeCalls(a, log))
    ensures ExposeTeleports(a + b, log) == ExposeTeleports(a, log) + ExposeTeleports(b, ExposeCalls(a, log))
    decreases |b|
  {
    if b == [] {
      assert a + b == a;
    } else {
      var init, name := b[..|b| - 1], b[|b| - 1];
      ExposeCallsAppend(a, init, log);
      assert b == init + [name];
      assert a + b == (a + init) + [name];
      ExposeOneMore(a + init, name, log);
      ExposeOneMore(init, name, ExposeCalls(a, log));
      var t := [ExposeTeleport(|TextOf(ExposeCalls(a + init, log))|, name)];
      assert ExposeTeleports(a, log) + ExposeTeleports(init, ExposeCalls(a, log)) + t
          == ExposeTeleports(a, log) + (ExposeTeleports(init, ExposeCalls(a, log)) + t);
    }
  }

  lemma SeqAssoc<T>(a: seq<T>, b: seq<T>, c: seq<T>)
    ensures a + b + c == a + (b + c)
  {
  }

  /** Exposing the first `g + 1` groups is exposing the first `g`, then
      group `g`. */
  lemma ExposeGroupsStep(groups: seq<BindingGroup>, g: nat, log: Log)
    requires g < |groups|
    ensures var before := ExposedNames(groups[..g]);
      ExposeCalls(ExposedNames(groups[..g + 1]), log) == ExposeCalls(GroupNames(groups[g]), ExposeCalls(before, log)) &&
      ExposeTeleports(ExposedNames(groups[..g + 1]), log)
      == ExposeTeleports(before, log) + ExposeTeleports(GroupNames(groups[g]), ExposeCalls(before, log))
  {
    assert groups[..g + 1][..g] == groups[..g];
    ExposeCallsAppend(ExposedNames(groups[..g]), GroupNames(groups[g]), log);
  }

  /** The two lines `withCssBinds` writes for each `v-bind()` of one style. */
  function StyleBindCalls(text: string, binds: seq<Range>, log: Log): Log {
    if binds == [] then log
    else
      var b := binds[|binds| - 1];
      StyleBindCalls(text, binds[..|binds| - 1], log)
      .Add(Plain("// @ts-ignore\n")).Add(Plain(Substring(text, b.start, b.end) + ";\n"))
  }

  /** `withCssBinds`. */
  function CssBindCalls(styles: seq<StyleDoc>, log: Log): Log {
    if styles == [] then log
    else
      var last := styles[|styles| - 1];
      StyleBindCalls(last.text, last.binds, CssBindCalls(styles[..|styles| - 1], log))
  }

  /** The names of a block's bindings; a missing block reads as `''`. */
  function BlockBindingNames(block: Option<string>, ranges: seq<Range>): seq<string> {
    if block.Some? then BindingTexts(block.value, ranges) else seq(|ranges|, i => "")
  }

  /** The `bindingNames` of `writeTemplate`. */
  function TemplateBindingNames(inp: Inputs): seq<string> {
    var setupContent := if inp.scriptSetup.Some? then Some(inp.scriptSetup.value.content) else None;
    var scriptContent := if inp.script.Some? then Some(inp.script.value.content) else None;
    var names: seq<string> := [];
    var withSetup :=
      if inp.scriptSetupRanges.Some? then names + BlockBindingNames(setupContent, inp.scriptSetupRanges.value.bindings)
      else names;
    if inp.scriptRanges.Some? then withSetup + BlockBindingNames(scriptContent, inp.scriptRanges.value.bindings)
    else withSetup
  }

  /** Whether a binding is used as a tag of the template, under its own
      name or hyphenated. */
  predicate UsedAsTag(tags: set<string>, name: string) {
    name in tags || Hyphenate(name) in tags
  }

  /** The bare statements that keep a binding used as a template tag from
      being reported unused. */
  function EchoCalls(tags: set<string>, names: seq<string>, log: Log): Log {
    if names == [] then log
    else
      var name := names[|names| - 1];
      var before := EchoCalls(tags, names[..|names| - 1], log);
      if UsedAsTag(tags, name) then before.Add(Plain("// @ts-ignore\n")).Add(Plain(name + ";\n")) else before
  }

  /** `writeTemplate`. */
  function TemplateCalls(inp: Inputs, log: Log): Log {
    if inp.htmlGen.None? then log
    else EchoCalls(inp.htmlGen.value.tags, TemplateBindingNames(inp), log).Add(Plain(inp.htmlGen.value.text))
  }

  /** What the component writes up to `setup() {\n`. */
  function SetupOpenCalls(inp: Inputs, log: Log): Log
    requires HasSetupOptions(inp)
  {
    var r := inp.scriptSetupRanges.value;
    EmitsCalls(inp, r, PropsCalls(inp, r, log)).Add(Plain("setup() {\n"))
  }

  /** The props, emits and `setup()` options of the component. */
  function SetupCalls(inp: Inputs, log: Log): Log
    requires HasSetupOptions(inp)
  {
    var setupOpen := SetupOpenCalls(inp, log);
    var body :=
      if inp.lsType == ScriptLs then
        TemplateCalls(inp, CssBindCalls(inp.styles, setupOpen.Add(Plain("return () => {\n")))).Add(Plain("};\n"))
      else
        ExposeCalls(ExposedNames(BindingGroups(inp)), setupOpen.Add(Plain("return {\n"))).Add(Plain("};\n"));
    body.Add(Plain("},\n"))
  }

  /** `writeExportComponent`. */
  function ComponentCalls(inp: Inputs, log: Log): Log {
    var head := ComponentArgsCalls(inp, ComponentHeadCalls(inp, log));
    (if HasSetupOptions(inp) then SetupCalls(inp, head) else head).Add(Plain("});\n"))
  }

  /** The teleports the setup options add: one per exposed binding, for
      the template consumer only. */
  function SetupTeleports(inp: Inputs, log: Log): seq<Teleport>
    requires HasSetupOptions(inp)
  {
    if inp.lsType == TemplateLs then
      ExposeTeleports(ExposedNames(BindingGroups(inp)), SetupOpenCalls(inp, log).Add(Plain("return {\n")))
    else []
  }

  /** The teleports `writeExportComponent` adds. */
  function ComponentTeleports(inp: Inputs, log: Log): seq<Teleport> {
    if HasSetupOptions(inp) then SetupTeleports(inp, ComponentArgsCalls(inp, ComponentHeadCalls(inp, log)))
    else []
  }

  /** An option of `__VLS_options` copied from the script setup. */
  function SetupOptionCode(inp: Inputs, r: Range, capabilities: Capabilities): Piece {
    Code(Substring(BlockContent(inp, ScriptSetup), r.start, r.end), r, Offset,
         MappingData(ScriptSetup, capabilities))
  }

  /** One `prefix(arg),\n` entry of `__VLS_options`, when the script setup
      and the argument exist. */
  function OptionCalls(inp: Inputs, prefix: string, arg: Option<Range>, capabilities: Capabilities, log: Log): Log {
    if arg.Some? && inp.scriptSetup.Some? then
      log.Add(Plain(prefix)).Add(SetupOptionCode(inp, arg.value, capabilities)).Add(Plain("),\n"))
    else log
  }

  const NoSetupRanges := ScriptSetupRanges(None, None, None, None, None, [])

  /** `scriptSetupRanges?.x` reads `x` of the ranges when they exist, and
      nothing otherwise. */
  function SetupRangesOrNone(inp: Inputs): ScriptSetupRanges {
    if inp.scriptSetupRanges.Some? then inp.scriptSetupRanges.value else NoSetupRanges
  }

  /** `writeExportOptions`. */
  function ExportOptionsCalls(inp: Inputs, log: Log): Log {
    var l0 := log.Add(Plain("\n")).Add(Plain("export const __VLS_options = {\n"));
    var l1 :=
      if HasArgs(inp) then
        var a := Args(inp);
        l0.Add(Plain("...("))
        .Add(Code(Substring(BlockContent(inp, Script), a.start, a.end), a, Offset, MappingData(Script, ReferencesRename)))
        .Add(Plain("),\n"))
      else l0;
    var r := SetupRangesOrNone(inp);
    var l2 := OptionCalls(inp, "props: (", r.propsRuntimeArg, ReferencesDefinitionsRename, l1);
    var l3 := OptionCalls(inp, "props: ({} as ", r.propsTypeArg, ReferencesDefinitionsRename, l2);
    var l4 := OptionCalls(inp, "emits: (", r.emitsRuntimeArg, ReferencesDefinitionsRename, l3);
    var l5 := OptionCalls(inp, "emits: ({} as ", r.emitsTypeArg, NoCapabilities, l4);
    l5.Add(Plain("};\n"))
  }

  /** The component name declared for a script setup in a `.vue` file: the
      file's base name without its extension. */
  function VueBaseName(uri: string): string {
    Basename(TrimExt(uri))
  }

  /** `writeConstNameOption`. */
  function ConstNameCalls(inp: Inputs, log: Log): Log {
    var l0 := log.Add(Plain("\n"));
    if HasArgs(inp) then
      var a := Args(inp);
      l0.Add(Plain("export const __VLS_name = __VLS_getNameOption("))
      .Add(Plain(Substring(BlockContent(inp, Script), a.start, a.end) + " as const"))
      .Add(Plain(");\n"))
    else if inp.scriptSetup.Some? && Extname(inp.uri) == ".vue" then
      l0.Add(Plain("export declare const __VLS_name: '" + VueBaseName(inp.uri) + "';\n"))
    else
      l0.Add(Plain("export const __VLS_name = undefined;\n"))
  }

  /** The zero-length mapping at the end of the script setup, for code actions. */
  function AnchorCalls(inp: Inputs, log: Log): Log {
    if inp.lsType == ScriptLs && inp.scriptSetup.Some? then
      var n := |inp.scriptSetup.value.content|;
      log.Add(Code("", Range(n, n), Offset, MappingData(ScriptSetup, NoCapabilities)))
    else log
  }

  /** Everything `generate` writes before the overlap mappings. */
  function BodyCalls(inp: Inputs): Log
    requires AwaitFits(inp)
  {
    var before := BeforeComponent(inp);
    var component := if WritesComponent(inp) then ComponentCalls(inp, before) else before;
    var options := if inp.lsType == TemplateLs then ConstNameCalls(inp, ExportOptionsCalls(inp, component)) else component;
    AnchorCalls(inp, options)
  }

  /** The overlap range of the re-export lines, when there is a `src`. */
  function SrcOverlapRanges(inp: Inputs): seq<Range> {
    if HasSrc(inp) then [Range(0, |TextOf(ScriptSrcCalls(inp, TsNoCheckCalls(inp, Empty)))|)] else []
  }

  /** `overlapMapRanges`: the re-export lines, then the `export default` line. */
  function OverlapRanges(inp: Inputs): seq<Range>
    requires AwaitFits(inp)
  {
    var componentAt := |TextOf(BeforeComponent(inp))|;
    SrcOverlapRanges(inp)
    + (if ShouldAddExportDefault(inp) then [Range(componentAt, componentAt + |ExportDefaultLine|)] else [])
  }

  function OverlapCalls(ranges: seq<Range>, log: Log): Log {
    if ranges == [] then log
    else OverlapCalls(ranges[..|ranges| - 1], log).Add(Extra(OverlapMapping(ranges[|ranges| - 1])))
  }

  /** The whole call log of `generate`. */
  function AllCalls(inp: Inputs): Log
    requires AwaitFits(inp)
  {
    OverlapCalls(OverlapRanges(inp), BodyCalls(inp))
  }

  /** What `generate` returns. */
  function Expected(inp: Inputs): Output
    requires AwaitFits(inp)
  {
    Output(TextOf(AllCalls(inp)), MappingsOf(AllCalls(inp)), ComponentTeleports(inp, BeforeComponent(inp)))
  }

  // Each loop of the generator extends its log one element at a time; these
  // lemmas give the log of a prefix one element longer.

  lemma SectionCallsStep(inp: Inputs, sections: seq<Section>, i: nat, log: Log)
    requires i < |sections|
    ensures SectionCalls(inp, sections[..i + 1], log) == SectionCalls(inp, sections[..i], log).Add(SectionPiece(inp, sections[i]))
  {
    assert sections[..i + 1][..i] == sections[..i];
  }

  lemma StyleBindCallsStep(text: string, binds: seq<Range>, i: nat, log: Log)
    requires i < |binds|
    ensures StyleBindCalls(text, binds[..i + 1], log)
         == StyleBindCalls(text, binds[..i], log).Add(Plain("// @ts-ignore\n"))
            .Add(Plain(Substring(text, binds[i].start, binds[i].end) + ";\n"))
  {
    assert binds[..i + 1][..i] == binds[..i];
  }

  lemma CssBindCallsStep(styles: seq<StyleDoc>, i: nat, log: Log)
    requires i < |styles|
    ensures CssBindCalls(styles[..i + 1], log) == StyleBindCalls(styles[i].text, styles[i].binds, CssBindCalls(styles[..i], log))
  {
    assert styles[..i + 1][..i] == styles[..i];
  }

  lemma EchoCallsStep(tags: set<string>, names: seq<string>, i: nat, log: Log)
    requires i < |names|
    ensures EchoCalls(tags, names[..i + 1], log)
         == if UsedAsTag(tags, names[i])
            then EchoCalls(tags, names[..i], log).Add(Plain("// @ts-ignore\n")).Add(Plain(names[i] + ";\n"))
            else EchoCalls(tags, names[..i], log)
  {
    assert names[..i + 1][..i] == names[..i];
  }

  lemma OverlapCallsStep(ranges: seq<Range>, i: nat, log: Log)
    requires i < |ranges|
    ensures OverlapCalls(ranges[..i + 1], log) == OverlapCalls(ranges[..i], log).Add(Extra(OverlapMapping(ranges[i])))
  {
    assert ranges[..i + 1][..i] == ranges[..i];
  }

  // ---------------------------------------------------------------------
  // The generator

  /** The state the nested helpers of `generate` share: the buffer, the
      teleports and the overlap ranges. */
  class Generator {
    const inp: Inputs
    const codeGen: CodeGen
    var teleports: seq<Teleport>
    var overlapMapRanges: seq<Range>

    constructor (inp: Inputs)
      ensures this.inp == inp && fresh(codeGen)
      ensures codeGen.Valid() && codeGen.log == Empty && teleports == [] && overlapMapRanges == []
    {
      this.inp := inp;
      codeGen := new CodeGen();
      teleports, overlapMapRanges := [], [];
    }

    method WriteScriptSrc()
      requires codeGen.Valid()
      modifies this, codeGen
      ensures codeGen.Valid()
      ensures codeGen.log == ScriptSrcCalls(inp, old(codeGen.log))
      ensures teleports == old(teleports)
      ensures overlapMapRanges == old(overlapMapRanges)
        + (if HasSrc(inp) then [Range(0, |TextOf(codeGen.log)|)] else [])
    {
      if !HasSrc(inp) {
        return;
      }
      var src := inp.script.value.src.value;
      if EndsWith(src, ".d.ts") {
        src := RemoveExt(src, ".d.ts");
      } else if EndsWith(src, ".ts") {
        src := RemoveExt(src, ".ts");
      } else if EndsWith(src, ".tsx") {
        src := RemoveExt(src, ".tsx");
      }
      codeGen.AddText("export * from ");
      codeGen.AddCode("'" + src + "'", Range(-1, -1), Offset,
                      MappingData(ScriptSrc, SrcCapabilities(inp.lsType == ScriptLs)));
      codeGen.AddText(";\n");
      codeGen.AddText("export { default } from '" + src + "';\n");
      var text := codeGen.GetText();
      overlapMapRanges := overlapMapRanges + [Range(0, |text|)];
    }

    method WriteScript()
      requires codeGen.Valid()
      requires AwaitFits(inp)
      modifies codeGen
      ensures codeGen.Valid()
      ensures codeGen.log == ScriptCalls(inp, old(codeGen.log))
    {
      if inp.script.None? {
        return;
      }
      var script := inp.script.value;
      var sections: seq<Section> := [];
      if ShouldAddExportDefault(inp) && inp.scriptRanges.Some? && inp.scriptRanges.value.exportDefault.Some? {
        var exportDefault := inp.scriptRanges.value.exportDefault.value;
        sections := sections + [Span(Range(0, exportDefault.start))];
        sections := sections + [Literal("await" + Spaces(exportDefault.expression.start - exportDefault.start - 5))];
        sections := sections + [Span(Range(exportDefault.expression.start, |script.content|))];
      } else {
        sections := sections + [Span(Range(0, |script.content|))];
      }
      assert sections == ScriptSections(inp);
      for i := 0 to |sections|
        invariant codeGen.Valid()
        invariant codeGen.log == SectionCalls(inp, sections[..i], old(codeGen.log))
      {
        match sections[i]
        case Literal(t) =>
          codeGen.AddText(t);
        case Span(r) =>
          codeGen.AddCode(Substring(script.content, r.start, r.end), r, Offset,
                          MappingData(Script, ScriptCapabilities(inp.lsType == ScriptLs)));
          SectionCallsStep(inp, sections, i, old(codeGen.log));
      }
      assert sections[..|sections|] == sections;
    }

    method WriteScriptSetup()
      requires codeGen.Valid()
      modifies codeGen
      ensures codeGen.Valid()
      ensures codeGen.log == ScriptSetupCalls(inp, old(codeGen.log))
    {
      if inp.scriptSetup.None? {
        return;
      }
      var content := inp.scriptSetup.value.content;
      codeGen.AddCode(content, Range(0, |content|), Offset,
                      MappingData(ScriptSetup, ScriptSetupCapabilities(inp.lsType == ScriptLs)));
    }

    /** `mapSubText`. */
    method MapSubText(vueTag: VueTag, start: int, end: int)
      requires codeGen.Valid()
      requires (vueTag == Script && inp.script.Some?) || (vueTag == ScriptSetup && inp.scriptSetup.Some?)
      modifies codeGen
      ensures codeGen.Valid()
      ensures codeGen.log == old(codeGen.log).Add(SubText(inp, vueTag, Range(start, end)))
    {
      var content := if vueTag == ScriptSetup then inp.scriptSetup.value.content else inp.script.value.content;
      codeGen.AddCode(Substring(content, start, end), Range(start, end), Offset,
                      MappingData(vueTag, ReferencesDefinitionsRename));
    }

    /** The `props` option of the component. */
    method WriteProps(r: ScriptSetupRanges)
      requires codeGen.Valid()
      requires inp.scriptSetup.Some?
      modifies codeGen
      ensures codeGen.Valid()
      ensures codeGen.log == PropsCalls(inp, r, old(codeGen.log))
    {
      if r.propsRuntimeArg.Some? || r.propsTypeArg.Some? {
        codeGen.AddText("props: (");
        if r.withDefaultsArg.Some? {
          codeGen.AddText("__VLS_mergePropDefaults(");
        }
        if r.propsRuntimeArg.Some? {
          MapSubText(ScriptSetup, r.propsRuntimeArg.value.start, r.propsRuntimeArg.value.end);
        } else if r.propsTypeArg.Some? {
          codeGen.AddText("{} as __VLS_DefinePropsToOptions<");
          MapSubText(ScriptSetup, r.propsTypeArg.value.start, r.propsTypeArg.value.end);
          codeGen.AddText(">");
        }
        if r.withDefaultsArg.Some? {
          codeGen.AddText(", ");
          MapSubText(ScriptSetup, r.withDefaultsArg.value.start, r.withDefaultsArg.value.end);
          codeGen.AddText(")");
        }
        codeGen.AddText("),\n");
      }
    }

    /** The `emits` option of the component. */
    method WriteEmits(r: ScriptSetupRanges)
      requires codeGen.Valid()
      requires inp.scriptSetup.Some?
      modifies codeGen
      ensures codeGen.Valid()
      ensures codeGen.log == EmitsCalls(inp, r, old(codeGen.log))
    {
      if r.emitsRuntimeArg.Some? {
        codeGen.AddText("emits: (");
        MapSubText(ScriptSetup, r.emitsRuntimeArg.value.start, r.emitsRuntimeArg.value.end);
        codeGen.AddText("),\n");
      } else if r.emitsTypeArg.Some? {
        codeGen.AddText("emits: ({} as __VLS_ConstructorOverloads<");
        MapSubText(ScriptSetup, r.emitsTypeArg.value.start, r.emitsTypeArg.value.end);
        codeGen.AddText(">),\n");
      }
    }

    /** One `name: name,\n` pair of the object `setup()` returns, with the
        teleport from its value to its key. */
    method ExposeBinding(varName: string)
      requires codeGen.Valid()
      modifies this, codeGen
      ensures codeGen.Valid()
      ensures codeGen.log == old(codeGen.log).Add(Plain(varName)).Add(Plain(": ")).Add(Plain(varName)).Add(Plain(",\n"))
      ensures teleports == old(teleports) + [ExposeTeleport(|TextOf(old(codeGen.log))|, varName)]
      ensures overlapMapRanges == old(overlapMapRanges)
    {
      ghost var start := codeGen.log;
      var templateSideRange := codeGen.AddTextRange(varName);
      codeGen.AddText(": ");
      var scriptSideRange := codeGen.AddTextRange(varName);
      codeGen.AddText(",\n");
      teleports := teleports + [Teleport(scriptSideRange, templateSideRange, Offset,
                                         ReferencesDefinitionsRename, ReferencesDefinitionsRename)];
    }

    /** The object the template consumer's `setup()` returns. */
    method WriteExposedBindings(bindingsArr: seq<BindingGroup>)
      requires codeGen.Valid()
      modifies this, codeGen
      ensures codeGen.Valid()
      ensures codeGen.log == ExposeCalls(ExposedNames(bindingsArr), old(codeGen.log))
      ensures teleports == old(teleports) + ExposeTeleports(ExposedNames(bindingsArr), old(codeGen.log))
      ensures overlapMapRanges == old(overlapMapRanges)
    {
      ghost var start, t0 := codeGen.log, teleports;
      for g := 0 to |bindingsArr|
        invariant codeGen.Valid()
        invariant overlapMapRanges == old(overlapMapRanges)
        invariant codeGen.log == ExposeCalls(ExposedNames(bindingsArr[..g]), start)
        invariant teleports == t0 + ExposeTeleports(ExposedNames(bindingsArr[..g]), start)
      {
        ghost var t := teleports;
        ExposeGroup(bindingsArr[g]);
        ExposeGroupsStep(bindingsArr, g, start);
        SeqAssoc(t0, ExposeTeleports(ExposedNames(bindingsArr[..g]), start),
                 ExposeTeleports(GroupNames(bindingsArr[g]), ExposeCalls(ExposedNames(bindingsArr[..g]), start)));
      }
      assert bindingsArr[..|bindingsArr|] == bindingsArr;
    }

    /** The pairs of one entry of `bindingsArr`. */
    method ExposeGroup(group: BindingGroup)
      requires codeGen.Valid()
      modifies this, codeGen
      ensures codeGen.Valid()
      ensures codeGen.log == ExposeCalls(GroupNames(group), old(codeGen.log))
      ensures teleports == old(teleports) + ExposeTeleports(GroupNames(group), old(codeGen.log))
      ensures overlapMapRanges == old(overlapMapRanges)
    {
      ghost var start, t0 := codeGen.log, teleports;
      ghost var names := GroupNames(group);
      for k := 0 to |group.bindings|
        invariant codeGen.Valid()
        invariant overlapMapRanges == old(overlapMapRanges)
        invariant codeGen.log == ExposeCalls(names[..k], start)
        invariant teleports == t0 + ExposeTeleports(names[..k], start)
      {
        var expose := group.bindings[k];
        var varName := Substring(group.content, expose.start, expose.end);
        ghost var done, t := names[..k], teleports;
        ExposeBinding(varName);
        ExposeOneMore(done, varName, start);
        assert names[..k + 1] == done + [varName];
        SeqAssoc(t0, ExposeTeleports(done, start), [ExposeTeleport(|TextOf(ExposeCalls(done, start))|, varName)]);
      }
      assert names[..|group.bindings|] == names;
    }

    method WithCssBinds()
      requires codeGen.Valid()
      modifies codeGen
      ensures codeGen.Valid()
      ensures codeGen.log == CssBindCalls(inp.styles, old(codeGen.log))
    {
      ghost var start := codeGen.log;
      for s := 0 to |inp.styles|
        invariant codeGen.Valid()
        invariant codeGen.log == CssBindCalls(inp.styles[..s], start)
      {
        var style := inp.styles[s];
        var docText := style.text;
        ghost var before := codeGen.log;
        for b := 0 to |style.binds|
          invariant codeGen.Valid()
          invariant codeGen.log == StyleBindCalls(docText, style.binds[..b], before)
        {
          var cssBind := style.binds[b];
          var bindText := Substring(docText, cssBind.start, cssBind.end);
          codeGen.AddText("// @ts-ignore\n");
          codeGen.AddText(bindText + ";\n");
          StyleBindCallsStep(docText, style.binds, b, before);
        }
        assert style.binds[..|style.binds|] == style.binds;
        CssBindCallsStep(inp.styles, s, start);
      }
      assert inp.styles[..|inp.styles|] == inp.styles;
    }

    method WriteTemplate()
      requires codeGen.Valid()
      modifies codeGen
      ensures codeGen.Valid()
      ensures codeGen.log == TemplateCalls(inp, old(codeGen.log))
    {
      if inp.htmlGen.None? {
        return;
      }
      var htmlGen := inp.htmlGen.value;
      var setupContent := if inp.scriptSetup.Some? then Some(inp.scriptSetup.value.content) else None;
      var scriptContent := if inp.script.Some? then Some(inp.script.value.content) else None;
      var bindingNames: seq<string> := [];
      if inp.scriptSetupRanges.Some? {
        bindingNames := bindingNames + BlockBindingNames(setupContent, inp.scriptSetupRanges.value.bindings);
      }
      if inp.scriptRanges.Some? {
        bindingNames := bindingNames + BlockBindingNames(scriptContent, inp.scriptRanges.value.bindings);
      }
      assert bindingNames == TemplateBindingNames(inp);
      for i := 0 to |bindingNames|
        invariant codeGen.Valid()
        invariant codeGen.log == EchoCalls(htmlGen.tags, bindingNames[..i], old(codeGen.log))
      {
        var varName := bindingNames[i];
        if varName in htmlGen.tags || Hyphenate(varName) in htmlGen.tags {
          codeGen.AddText("// @ts-ignore\n");
          codeGen.AddText(varName + ";\n");
        }
        EchoCallsStep(htmlGen.tags, bindingNames, i, old(codeGen.log));
      }
      assert bindingNames[..|bindingNames|] == bindingNames;
      codeGen.AddText(htmlGen.text);
    }

    /** The opening line of the component: `export default` for the script
        consumer, whose line is an overlap range, or a `__VLS_component`
        constant. */
    method WriteComponentHead()
      requires codeGen.Valid()
      modifies this, codeGen
      ensures codeGen.Valid()
      ensures codeGen.log == ComponentHeadCalls(inp, old(codeGen.log))
      ensures ShouldAddExportDefault(inp) ==>
        overlapMapRanges == old(overlapMapRanges)
          + [Range(|TextOf(old(codeGen.log))|, |TextOf(old(codeGen.log))| + |ExportDefaultLine|)]
      ensures !ShouldAddExportDefault(inp) ==> overlapMapRanges == old(overlapMapRanges)
      ensures teleports == old(teleports)
    {
      if ShouldAddExportDefault(inp) {
        var start := codeGen.GetText();
        codeGen.AddText(ExportDefaultLine);
        var text := codeGen.GetText();
        overlapMapRanges := overlapMapRanges + [Range(|start|, |text|)];
      } else {
        codeGen.AddText("\n");
        codeGen.AddText("export const __VLS_component = __VLS_defineComponent({\n");
      }
    }

    method WriteExportComponent()
      requires codeGen.Valid()
      modifies this, codeGen
      ensures codeGen.Valid()
      ensures codeGen.log == ComponentCalls(inp, old(codeGen.log))
      ensures ShouldAddExportDefault(inp) ==>
        overlapMapRanges == old(overlapMapRanges)
          + [Range(|TextOf(old(codeGen.log))|, |TextOf(old(codeGen.log))| + |ExportDefaultLine|)]
      ensures !ShouldAddExportDefault(inp) ==> overlapMapRanges == old(overlapMapRanges)
      ensures HasSetupOptions(inp) ==>
        teleports == old(teleports)
          + SetupTeleports(inp, ComponentArgsCalls(inp, ComponentHeadCalls(inp, old(codeGen.log))))
      ensures !HasSetupOptions(inp) ==> teleports == old(teleports)
    {
      WriteComponentHead();
      if HasArgs(inp) {
        var args := Args(inp);
        codeGen.AddText("...(");
        MapSubText(Script, args.start, args.end);
        codeGen.AddText("),\n");
      }
      if inp.scriptSetup.Some? && inp.scriptSetupRanges.Some? {
        WriteSetupOptions();
      }
      codeGen.AddText("});\n");
    }

    /** The part of `writeExportComponent` for a script setup with its
        ranges: props, emits and `setup()`. */
    method WriteSetupOptions()
      requires codeGen.Valid()
      requires HasSetupOptions(inp)
      modifies this, codeGen
      ensures codeGen.Valid()
      ensures codeGen.log == SetupCalls(inp, old(codeGen.log))
      ensures teleports == old(teleports) + SetupTeleports(inp, old(codeGen.log))
      ensures overlapMapRanges == old(overlapMapRanges)
    {
      var ranges := inp.scriptSetupRanges.value;
      WriteProps(ranges);
      WriteEmits(ranges);
      var bindingsArr := [BindingGroup(ranges.bindings, inp.scriptSetup.value.content, ScriptSetup)];
      if inp.scriptRanges.Some? && inp.script.Some? {
        bindingsArr := bindingsArr + [BindingGroup(inp.scriptRanges.value.bindings, inp.script.value.content, Script)];
      }
      codeGen.AddText("setup() {\n");
      if inp.lsType == ScriptLs {
        codeGen.AddText("return () => {\n");
        WithCssBinds();
        WriteTemplate();
        codeGen.AddText("};\n");
      } else {
        codeGen.AddText("return {\n");
        WriteExposedBindings(bindingsArr);
        codeGen.AddText("};\n");
      }
      codeGen.AddText("},\n");
    }

    /** One `prefix(arg),\n` entry of `__VLS_options`. */
    method WriteOption(prefix: string, arg: Option<Range>, capabilities: Capabilities)
      requires codeGen.Valid()
      modifies codeGen
      ensures codeGen.Valid()
      ensures codeGen.log == OptionCalls(inp, prefix, arg, capabilities, old(codeGen.log))
    {
      if arg.Some? && inp.scriptSetup.Some? {
        codeGen.AddText(prefix);
        codeGen.AddCode(Substring(inp.scriptSetup.value.content, arg.value.start, arg.value.end), arg.value, Offset,
                        MappingData(ScriptSetup, capabilities));
        codeGen.AddText("),\n");
      }
    }

    method WriteExportOptions()
      requires codeGen.Valid()
      modifies codeGen
      ensures codeGen.Valid()
      ensures codeGen.log == ExportOptionsCalls(inp, old(codeGen.log))
    {
      codeGen.AddText("\n");
      codeGen.AddText("export const __VLS_options = {\n");
      if HasArgs(inp) {
        var args := Args(inp);
        codeGen.AddText("...(");
        codeGen.AddCode(Substring(inp.script.value.content, args.start, args.end), args, Offset,
                        MappingData(Script, ReferencesRename));
        codeGen.AddText("),\n");
      }
      var ranges := SetupRangesOrNone(inp);
      WriteOption("props: (", ranges.propsRuntimeArg, ReferencesDefinitionsRename);
      WriteOption("props: ({} as ", ranges.propsTypeArg, ReferencesDefinitionsRename);
      WriteOption("emits: (", ranges.emitsRuntimeArg, ReferencesDefinitionsRename);
      WriteOption("emits: ({} as ", ranges.emitsTypeArg, NoCapabilities);
      codeGen.AddText("};\n");
    }

    method WriteConstNameOption()
      requires codeGen.Valid()
      modifies codeGen
      ensures codeGen.Valid()
      ensures codeGen.log == ConstNameCalls(inp, old(codeGen.log))
    {
      codeGen.AddText("\n");
      if HasArgs(inp) {
        var args := Args(inp);
        codeGen.AddText("export const __VLS_name = __VLS_getNameOption(");
        codeGen.AddText(Substring(inp.script.value.content, args.start, args.end) + " as const");
        codeGen.AddText(");\n");
      } else if inp.scriptSetup.Some? && Extname(inp.uri) == ".vue" {
        codeGen.AddText("export declare const __VLS_name: '" + Basename(TrimExt(inp.uri)) + "';\n");
      } else {
        codeGen.AddText("export const __VLS_name = undefined;\n");
      }
    }

    /** The statements of `generate` before the component: the
        `@ts-nocheck` line, the three blocks and the placeholder export. */
    method WriteBeforeComponent()
      requires codeGen.Valid()
      requires AwaitFits(inp)
      requires codeGen.log == Empty && teleports == [] && overlapMapRanges == []
      modifies this, codeGen
      ensures codeGen.Valid()
      ensures codeGen.log == BeforeComponent(inp)
      ensures teleports == [] && overlapMapRanges == SrcOverlapRanges(inp)
    {
      if inp.lsType == TemplateLs {
        codeGen.AddText(TsNoCheck);
      }
      WriteScriptSrc();
      WriteScript();
      WriteScriptSetup();
      if inp.lsType == ScriptLs && inp.script.None? && inp.scriptSetup.None? {
        codeGen.AddCode(EmptyExportDefault, Range(0, 0), Expand, MappingData(Sfc, NoCapabilities));
      }
    }

    /** The statements of `generate` before the loop over
        `overlapMapRanges`: everything but the `Overlap` mappings. */
    method WriteBody()
      requires codeGen.Valid()
      requires AwaitFits(inp)
      requires codeGen.log == Empty && teleports == [] && overlapMapRanges == []
      modifies this, codeGen
      ensures codeGen.Valid()
      ensures codeGen.log == BodyCalls(inp)
      ensures overlapMapRanges == OverlapRanges(inp)
      ensures teleports == ComponentTeleports(inp, BeforeComponent(inp))
    {
      WriteBeforeComponent();
      if inp.lsType == TemplateLs || ShouldAddExportDefault(inp) {
        WriteExportComponent();
      }
      assert overlapMapRanges == OverlapRanges(inp);
      assert teleports == ComponentTeleports(inp, BeforeComponent(inp));
      WriteAfterComponent();
    }

    /** The statements of `generate` between the component and the
        `Overlap` mappings: the options and the name for the template
        consumer, the code-action anchor for the script one. */
    method WriteAfterComponent()
      requires codeGen.Valid()
      modifies codeGen
      ensures codeGen.Valid()
      ensures codeGen.log == AnchorCalls(inp,
        if inp.lsType == TemplateLs then ConstNameCalls(inp, ExportOptionsCalls(inp, old(codeGen.log))) else old(codeGen.log))
    {
      if inp.lsType == TemplateLs {
        WriteExportOptions();
        WriteConstNameOption();
      }
      if inp.lsType == ScriptLs && inp.scriptSetup.Some? {
        var n := |inp.scriptSetup.value.content|;
        codeGen.AddCode("", Range(n, n), Offset, MappingData(ScriptSetup, NoCapabilities));
      }
    }

    /** The `Overlap` mappings of the ranges collected in `overlapMapRanges`. */
    method WriteOverlapMappings()
      requires codeGen.Valid()
      modifies codeGen
      ensures codeGen.Valid()
      ensures codeGen.log == OverlapCalls(overlapMapRanges, old(codeGen.log))
    {
      for i := 0 to |overlapMapRanges|
        invariant codeGen.Valid()
        invariant codeGen.log == OverlapCalls(overlapMapRanges[..i], old(codeGen.log))
      {
        codeGen.AddMapping2(Mapping(Range(0, 0), overlapMapRanges[i], Overlap, MappingData(Sfc, NoCapabilities)));
        OverlapCallsStep(overlapMapRanges, i, old(codeGen.log));
      }
      assert overlapMapRanges[..|overlapMapRanges|] == overlapMapRanges;
    }
  }

  /** `generate`: runs the steps in the source's order and returns the
      buffer's text and mappings with the teleports. */
  method Generate(inp: Inputs) returns (out: Output)
    requires AwaitFits(inp)
    ensures out == Expected(inp)
  {
    var gen := new Generator(inp);
    gen.WriteBody();
    var teleports := gen.teleports;
    gen.WriteOverlapMappings();
    var text := gen.codeGen.GetText();
    var mappings := gen.codeGen.GetMappings();
    out := Output(text, mappings, teleports);
  }
}
