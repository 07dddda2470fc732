/** The entry document of the template language service: a TypeScript stub
    named after the `.vue` file that imports the options, the name and the
    component from the generated scripts, declares the completion contexts
    and exports the component type with its slots. It is rebuilt by
    successive appends whenever a block appears or disappears, gets the next
    version number each time, and is mapped to the component by a single
    `Overlap` mapping. */
module SfcEntryForTemplateLs {
  import opened SourceMaps
  import opened JsStrings

  /** The five marker identifiers the completion code searches for. */
  datatype SearchTexts = SearchTexts(context: string, components: string, setupReturns: string, props: string, globalAttrs: string)

  /** Which blocks the component has, and whether a TypeScript copy of the
      script is generated. */
  datatype Blocks = Blocks(hasScript: bool, hasScriptSetup: bool, hasTemplate: bool, hasTsDoc: bool)

  datatype TextDocument = TextDocument(uri: string, languageId: string, version: nat, text: string)

  // ---------------------------------------------------------------------
  // The content, as the sequence of strings appended to it

  /** The strings joined in order. */
  function Concat(parts: seq<string>): string {
    if parts == [] then [] else Concat(parts[..|parts| - 1]) + parts[|parts| - 1]
  }

  lemma ConcatSnoc(parts: seq<string>, x: string)
    ensures Concat(parts + [x]) == Concat(parts) + x
  {
    assert (parts + [x])[..|parts|] == parts;
  }

  lemma {:induction false} ConcatAppend(a: seq<string>, b: seq<string>)
    ensures Concat(a + b) == Concat(a) + Concat(b)
    decreases |b|
  {
    if b == [] {
      assert a + b == a;
    } else {
      var init, x := b[..|b| - 1], b[|b| - 1];
      assert a + b == (a + init) + [x];
      ConcatSnoc(a + init, x);
      ConcatAppend(a, init);
      ConcatSnoc(init, x);
      assert b == init + [x];
    }
  }

  const NoCheckLine := "// @ts-nocheck\n"

  /** The generated script the `_ts` imports read from. */
  function TsScriptFile(hasTsDoc: bool): string {
    if hasTsDoc then ScriptModule + "_ts" else ScriptModule
  }

  const ScriptModule := "__VLS_script"

  /** `from './<file>.<module>';` and the line end. */
  function From(fileName: string, target: string): string {
    "from './" + fileName + "." + target + "';\n"
  }

  // The lines shared by both kinds of script (source lines 24-27).

  function ImportOptionsTs(fileName: string, ts: string): string {
    "import { __VLS_options " + "as __VLS_options_ts, " + "__VLS_name " + "as __VLS_name_ts } " + From(fileName, ts)
  }

  function ImportOptions(fileName: string): string {
    "import { __VLS_options, " + "__VLS_name } " + From(fileName, ScriptModule)
  }

  function ExportOptions(fileName: string): string {
    "export { __VLS_options, " + "__VLS_name } " + From(fileName, ScriptModule)
  }

  function ExportAll(fileName: string): string {
    "export * " + From(fileName, ScriptModule)
  }

  function OptionsLines(fileName: string, ts: string): seq<string> {
    [ImportOptionsTs(fileName, ts), ImportOptions(fileName), ExportOptions(fileName), ExportAll(fileName)]
  }

  // The component exported by name from a script setup (source lines 30-32).

  function ImportComponentTs(fileName: string, ts: string): string {
    "import { __VLS_component " + "as __VLS_component_ts } " + From(fileName, ts)
  }

  function ImportComponent(fileName: string): string {
    "import { __VLS_component } " + From(fileName, ScriptModule)
  }

  function ExportComponent(fileName: string): string {
    "export { __VLS_component } " + From(fileName, ScriptModule)
  }

  function SetupComponentLines(fileName: string, ts: string): seq<string> {
    [ImportComponentTs(fileName, ts), ImportComponent(fileName), ExportComponent(fileName)]
  }

  // The component of a plain script, chosen between its default export and
  // its named one (source lines 35-40).

  function ImportDefaultTs(fileName: string, ts: string): string {
    "import __VLS_component_1_ts " + From(fileName, ts)
  }

  function ImportDefault(fileName: string): string {
    "import __VLS_component_1 " + From(fileName, ScriptModule)
  }

  function ImportNamedTs(fileName: string, ts: string): string {
    "import { __VLS_component " + "as __VLS_component_2_ts } " + From(fileName, ts)
  }

  function ImportNamed(fileName: string): string {
    "import { __VLS_component " + "as __VLS_component_2 } " + From(fileName, ScriptModule)
  }

  const SelectComponentTs :=
    "declare var " + "__VLS_component_ts: " + "__VLS_SelectComponent<" + "typeof __VLS_component_1_ts, " + "typeof __VLS_component_2_ts" + ">;\n"

  const SelectComponent :=
    "export declare var " + "__VLS_component: " + "__VLS_SelectComponent<" + "typeof __VLS_component_1, " + "typeof __VLS_component_2" + ">;\n"

  function ScriptComponentLines(fileName: string, ts: string): seq<string> {
    [ImportDefaultTs(fileName, ts), ImportDefault(fileName), ImportNamedTs(fileName, ts), ImportNamed(fileName),
     SelectComponentTs, SelectComponent]
  }

  // The declarations that stand in when there is no script at all (source
  // lines 44-47).

  const FallbackOptions := "export var " + "__VLS_options = {};\n"
  const FallbackName := "export var " + "__VLS_name = undefined;\n"
  const FallbackComponentTs := "var __VLS_component_ts " + "= __VLS_defineComponent" + "({});\n"
  const FallbackComponent := "export var " + "__VLS_component " + "= __VLS_defineComponent" + "({});\n"

  const FallbackLines := [FallbackOptions, FallbackName, FallbackComponentTs, FallbackComponent]

  /** What the blocks contribute (source lines 23-48). */
  function BlockLines(fileName: string, b: Blocks): seq<string> {
    var ts := TsScriptFile(b.hasTsDoc);
    if b.hasScriptSetup || b.hasScript then
      OptionsLines(fileName, ts) +
      (if b.hasScriptSetup then SetupComponentLines(fileName, ts)
       else ScriptComponentLines(fileName, ts))
    else FallbackLines
  }

  // The context declarations and the completion markers (source lines
  // 49-57); the markers' line has no line end of its own.

  const CtxDecl := "declare var " + "__VLS_ctx: " + "__VLS_ComponentContext<" + "typeof __VLS_component_ts" + ">;\n"
  const ComponentsWrapDecl := "declare var " + "__VLS_ComponentsWrap: " + "typeof __VLS_options " + "& { components: { } };\n"
  const ComponentsDecl :=
    "declare var " + "__VLS_Components: " + "typeof " + "__VLS_ComponentsWrap" + ".components " +
    "& __VLS_GlobalComponents " + "& __VLS_PickComponents<" + "typeof __VLS_ctx> " +
    "& __VLS_SelfComponent<" + "typeof __VLS_name, " + "typeof __VLS_component" + ">;\n"

  function ContextMarker(s: SearchTexts): string {
    "__VLS_ctx." + s.context + ";\n"
  }

  function ComponentsMarker(s: SearchTexts): string {
    "__VLS_Components." + s.components + ";\n"
  }

  function SetupReturnsMarker(s: SearchTexts): string {
    "({} as " + "__VLS_OptionsSetupReturns<" + "typeof __VLS_options_ts>)." + s.setupReturns + ";\n"
  }

  function PropsMarker(s: SearchTexts): string {
    "({} as " + "__VLS_OptionsProps<" + "typeof __VLS_options_ts>)." + s.props + ";\n"
  }

  function GlobalAttrsMarker(s: SearchTexts): string {
    "({} as " + "__VLS_GlobalAttrs)." + s.globalAttrs + ";"
  }

  const LineEnd := "\n"

  function ContextLines(s: SearchTexts): seq<string> {
    [CtxDecl, ComponentsWrapDecl, ComponentsDecl,
     ContextMarker(s), ComponentsMarker(s), SetupReturnsMarker(s), PropsMarker(s), GlobalAttrsMarker(s),
     LineEnd]
  }

  // The exported component type (source lines 58-62).

  const ExportDefaultHead := "export default {} " + "as typeof __VLS_component " + "& {\n"
  const RawMember := "__VLS_raw: " + "typeof __VLS_component\n"
  const OptionsMember := "__VLS_options: " + "typeof __VLS_options,\n"
  const NoTemplateLine := "// no template\n"

  /** The slots of the template's render function. */
  function SlotsMember(fileName: string): string {
    "__VLS_slots: " + "typeof import " + "('./" + fileName + ".__VLS_template')" + ".default,\n"
  }

  function SlotLine(fileName: string, hasTemplate: bool): string {
    if hasTemplate then SlotsMember(fileName) else NoTemplateLine
  }

  const ClosingLine := "};\n"

  function ExportLines(fileName: string, hasTemplate: bool): seq<string> {
    [ExportDefaultHead, RawMember, OptionsMember, SlotLine(fileName, hasTemplate), ClosingLine]
  }

  /** Every string appended to the content, in order. */
  function Chunks(fileName: string, b: Blocks, s: SearchTexts): seq<string> {
    [NoCheckLine] + BlockLines(fileName, b) + ContextLines(s) + ExportLines(fileName, b.hasTemplate)
  }

  // ---------------------------------------------------------------------
  // Building the document

  // Appending a fixed number of lines one by one appends their join.

  lemma Concat3(p: seq<string>, a: string, b: string, c: string)
    ensures Concat(p + [a, b, c]) == Concat(p) + a + b + c
  {
    assert p + [] == p;
    assert p + [a] == (p + []) + [a];
    ConcatSnoc(p + [], a);
    assert p + [a, b] == (p + [a]) + [b];
    ConcatSnoc(p + [a], b);
    assert p + [a, b, c] == (p + [a, b]) + [c];
    ConcatSnoc(p + [a, b], c);
  }

  lemma Concat4(p: seq<string>, a: string, b: string, c: string, d: string)
    ensures Concat(p + [a, b, c, d]) == Concat(p) + a + b + c + d
  {
    assert p + [] == p;
    assert p + [a] == (p + []) + [a];
    ConcatSnoc(p + [], a);
    assert p + [a, b] == (p + [a]) + [b];
    ConcatSnoc(p + [a], b);
    assert p + [a, b, c] == (p + [a, b]) + [c];
    ConcatSnoc(p + [a, b], c);
    assert p + [a, b, c, d] == (p + [a, b, c]) + [d];
    ConcatSnoc(p + [a, b, c], d);
  }

  lemma Concat5(p: seq<string>, a: string, b: string, c: string, d: string, e: string)
    ensures Concat(p + [a, b, c, d, e]) == Concat(p) + a + b + c + d + e
  {
    assert p + [] == p;
    assert p + [a] == (p + []) + [a];
    ConcatSnoc(p + [], a);
    assert p + [a, b] == (p + [a]) + [b];
    ConcatSnoc(p + [a], b);
    assert p + [a, b, c] == (p + [a, b]) + [c];
    ConcatSnoc(p + [a, b], c);
    assert p + [a, b, c, d] == (p + [a, b, c]) + [d];
    ConcatSnoc(p + [a, b, c], d);
    assert p + [a, b, c, d, e] == (p + [a, b, c, d]) + [e];
    ConcatSnoc(p + [a, b, c, d], e);
  }

  lemma Concat6(p: seq<string>, a: string, b: string, c: string, d: string, e: string, f: string)
    ensures Concat(p + [a, b, c, d, e, f]) == Concat(p) + a + b + c + d + e + f
  {
    assert p + [] == p;
    assert p + [a] == (p + []) + [a];
    ConcatSnoc(p + [], a);
    assert p + [a, b] == (p + [a]) + [b];
    ConcatSnoc(p + [a], b);
    assert p + [a, b, c] == (p + [a, b]) + [c];
    ConcatSnoc(p + [a, b], c);
    assert p + [a, b, c, d] == (p + [a, b, c]) + [d];
    ConcatSnoc(p + [a, b, c], d);
    assert p + [a, b, c, d, e] == (p + [a, b, c, d]) + [e];
    ConcatSnoc(p + [a, b, c, d], e);
    assert p + [a, b, c, d, e, f] == (p + [a, b, c, d, e]) + [f];
    ConcatSnoc(p + [a, b, c, d, e], f);
  }

  lemma Concat9(p: seq<string>, a: string, b: string, c: string, d: string, e: string, f: string, g: string, h: string, i: string)
    ensures Concat(p + [a, b, c, d, e, f, g, h, i]) == Concat(p) + a + b + c + d + e + f + g + h + i
  {
    assert p + [] == p;
    assert p + [a] == (p + []) + [a];
    ConcatSnoc(p + [], a);
    assert p + [a, b] == (p + [a]) + [b];
    ConcatSnoc(p + [a], b);
    assert p + [a, b, c] == (p + [a, b]) + [c];
    ConcatSnoc(p + [a, b], c);
    assert p + [a, b, c, d] == (p + [a, b, c]) + [d];
    ConcatSnoc(p + [a, b, c], d);
    assert p + [a, b, c, d, e] == (p + [a, b, c, d]) + [e];
    ConcatSnoc(p + [a, b, c, d], e);
    assert p + [a, b, c, d, e, f] == (p + [a, b, c, d, e]) + [f];
    ConcatSnoc(p + [a, b, c, d, e], f);
    assert p + [a, b, c, d, e, f, g] == (p + [a, b, c, d, e, f]) + [g];
    ConcatSnoc(p + [a, b, c, d, e, f], g);
    assert p + [a, b, c, d, e, f, g, h] == (p + [a, b, c, d, e, f, g]) + [h];
    ConcatSnoc(p + [a, b, c, d, e, f, g], h);
    assert p + [a, b, c, d, e, f, g, h, i] == (p + [a, b, c, d, e, f, g, h]) + [i];
    ConcatSnoc(p + [a, b, c, d, e, f, g, h], i);
  }

  lemma AppendAssoc(a: seq<string>, b: seq<string>, c: seq<string>)
    ensures a + (b + c) == (a + b) + c
  {
  }

  /** The imports, or the stand-in declarations, for the blocks present. */
  method AppendBlockLines(content: string, ghost parts: seq<string>, fileName: string, b: Blocks) returns (r: string)
    requires content == Concat(parts)
    ensures r == Concat(parts + BlockLines(fileName, b))
  {
    var ts := TsScriptFile(b.hasTsDoc);
    r := content;
    if b.hasScriptSetup || b.hasScript {
      r := r + ImportOptionsTs(fileName, ts);
      r := r + ImportOptions(fileName);
      r := r + ExportOptions(fileName);
      r := r + ExportAll(fileName);
      ghost var options := parts + OptionsLines(fileName, ts);
      Concat4(parts, ImportOptionsTs(fileName, ts), ImportOptions(fileName), ExportOptions(fileName), ExportAll(fileName));
      if b.hasScriptSetup {
        r := r + ImportComponentTs(fileName, ts);
        r := r + ImportComponent(fileName);
        r := r + ExportComponent(fileName);
        Concat3(options, ImportComponentTs(fileName, ts), ImportComponent(fileName), ExportComponent(fileName));
        AppendAssoc(parts, OptionsLines(fileName, ts), SetupComponentLines(fileName, ts));
      } else {
        r := r + ImportDefaultTs(fileName, ts);
        r := r + ImportDefault(fileName);
        r := r + ImportNamedTs(fileName, ts);
        r := r + ImportNamed(fileName);
        r := r + SelectComponentTs;
        r := r + SelectComponent;
        Concat6(options, ImportDefaultTs(fileName, ts), ImportDefault(fileName), ImportNamedTs(fileName, ts),
                ImportNamed(fileName), SelectComponentTs, SelectComponent);
        AppendAssoc(parts, OptionsLines(fileName, ts), ScriptComponentLines(fileName, ts));
      }
    } else {
      r := r + FallbackOptions;
      r := r + FallbackName;
      r := r + FallbackComponentTs;
      r := r + FallbackComponent;
      Concat4(parts, FallbackOptions, FallbackName, FallbackComponentTs, FallbackComponent);
    }
  }

  /** The context declarations and the completion markers. */
  method AppendContextLines(content: string, ghost parts: seq<string>, s: SearchTexts) returns (r: string)
    requires content == Concat(parts)
    ensures r == Concat(parts + ContextLines(s))
  {
    r := content;
    r := r + CtxDecl;
    r := r + ComponentsWrapDecl;
    r := r + ComponentsDecl;
    r := r + ContextMarker(s);
    r := r + ComponentsMarker(s);
    r := r + SetupReturnsMarker(s);
    r := r + PropsMarker(s);
    r := r + GlobalAttrsMarker(s);
    r := r + LineEnd;
    Concat9(parts, CtxDecl, ComponentsWrapDecl, ComponentsDecl, ContextMarker(s), ComponentsMarker(s),
            SetupReturnsMarker(s), PropsMarker(s), GlobalAttrsMarker(s), LineEnd);
  }

  /** The exported component type, with the slots when there is a template. */
  method AppendExportLines(content: string, ghost parts: seq<string>, fileName: string, hasTemplate: bool) returns (r: string)
    requires content == Concat(parts)
    ensures r == Concat(parts + ExportLines(fileName, hasTemplate))
  {
    r := content;
    r := r + ExportDefaultHead;
    r := r + RawMember;
    r := r + OptionsMember;
    r := r + (if hasTemplate then SlotsMember(fileName) else NoTemplateLine);
    r := r + ClosingLine;
    Concat5(parts, ExportDefaultHead, RawMember, OptionsMember, SlotLine(fileName, hasTemplate), ClosingLine);
  }

  /** The content, appended piece by piece as the source does. */
  method BuildContent(fileName: string, b: Blocks, s: SearchTexts) returns (content: string)
    ensures content == Concat(Chunks(fileName, b, s))
  {
    content := "";
    content := content + NoCheckLine;
    assert [NoCheckLine] == [] + [NoCheckLine];
    ConcatSnoc([], NoCheckLine);
    content := AppendBlockLines(content, [NoCheckLine], fileName, b);
    content := AppendContextLines(content, [NoCheckLine] + BlockLines(fileName, b), s);
    content := AppendExportLines(content, [NoCheckLine] + BlockLines(fileName, b) + ContextLines(s), fileName, b.hasTemplate);
  }

  /** The `textDocument` computation together with the version counter it
      closes over. `fsPath` is the file-system path of `vueUri`, which the
      source obtains from `uriToFsPath`. */
  class EntryDocument {
    const vueUri: string
    const fsPath: string
    const searchTexts: SearchTexts
    var version: nat

    constructor (vueUri: string, fsPath: string, searchTexts: SearchTexts)
      ensures this.vueUri == vueUri && this.fsPath == fsPath && this.searchTexts == searchTexts
      ensures version == 0
    {
      this.vueUri := vueUri;
      this.fsPath := fsPath;
      this.searchTexts := searchTexts;
      version := 0;
    }

    /** One evaluation: the document for the blocks present, numbered with
        the current version, which then moves on by one. */
    method Compute(b: Blocks) returns (doc: TextDocument)
      modifies this
      ensures doc == TextDocument(vueUri + ".ts", "typescript", old(version), Concat(Chunks(Basename(fsPath), b, searchTexts)))
      ensures version == old(version) + 1
    {
      var uri := vueUri + ".ts";
      var vueFileName := Basename(fsPath);
      var content := BuildContent(vueFileName, b, searchTexts);
      doc := TextDocument(uri, "typescript", version, content);
      version := version + 1;
    }
  }

  /** The mappings of the source map built for a document: one `Overlap`
      mapping over the whole text (source lines 74-88). */
  function EntryMappings(doc: TextDocument): seq<Mapping> {
    [OverlapMapping(Range(0, |doc.text|))]
  }

  /** Some mapping of `ms` maps offset `i`. */
  predicate Maps(ms: seq<Mapping>, i: int) {
    exists m :: m in ms && m.mappedRange.start <= i < m.mappedRange.end
  }

  /** Every offset of the document is mapped, all of it to the component as
      a whole, and no mapping reaches past the text. */
  lemma EntryMappingsCoverText(doc: TextDocument)
    ensures forall m :: m in EntryMappings(doc) ==>
              InBounds(m.mappedRange, |doc.text|) && m.mode == Overlap && m.sourceRange == Range(0, 0)
    ensures forall i :: 0 <= i < |doc.text| ==> Maps(EntryMappings(doc), i)
  {
    var m := OverlapMapping(Range(0, |doc.text|));
    assert m in EntryMappings(doc);
  }

  // ---------------------------------------------------------------------
  // Properties of the document

  lemma ConcatStartsWith(x: string, rest: seq<string>)
    ensures StartsWith(Concat([x] + rest), x)
  {
    ConcatAppend([x], rest);
    assert [x] == [] + [x];
    ConcatSnoc([], x);
  }

  lemma ConcatEndsWith(init: seq<string>, x: string)
    ensures EndsWith(Concat(init + [x]), x)
  {
    ConcatSnoc(init, x);
  }

  /** The document opens with the no-check pragma and closes the exported
      type. */
  lemma EntryFrame(fileName: string, b: Blocks, s: SearchTexts)
    ensures StartsWith(Concat(Chunks(fileName, b, s)), NoCheckLine)
    ensures EndsWith(Concat(Chunks(fileName, b, s)), ClosingLine)
  {
    var e := ExportLines(fileName, b.hasTemplate);
    FirstOfFour(NoCheckLine, BlockLines(fileName, b), ContextLines(s), e);
    assert e == e[..4] + [ClosingLine];
    LastOfFour([NoCheckLine], BlockLines(fileName, b), ContextLines(s), e[..4], ClosingLine);
  }

  lemma FirstOfFour(x: string, b: seq<string>, c: seq<string>, d: seq<string>)
    ensures StartsWith(Concat([x] + b + c + d), x)
  {
    assert [x] + b + c + d == [x] + (b + c + d);
    ConcatStartsWith(x, b + c + d);
  }

  lemma LastOfFour(a: seq<string>, b: seq<string>, c: seq<string>, init: seq<string>, x: string)
    ensures EndsWith(Concat(a + b + c + (init + [x])), x)
  {
    assert a + b + c + (init + [x]) == (a + b + c + init) + [x];
    ConcatEndsWith(a + b + c + init, x);
  }

  /** The stand-in declarations follow the pragma exactly when the component
      has neither a script nor a script setup. */
  lemma FallbackIffNoScript(fileName: string, b: Blocks, s: SearchTexts)
    ensures Chunks(fileName, b, s)[1..5] == FallbackLines <==> !b.hasScript && !b.hasScriptSetup
  {
    var c := Chunks(fileName, b, s);
    if b.hasScript || b.hasScriptSetup {
      var ts := TsScriptFile(b.hasTsDoc);
      assert c[1] == ImportOptionsTs(fileName, ts);
      assert c[1][0] == 'i';
      assert FallbackOptions[0] == 'e';
    } else {
      assert c[1..5] == FallbackLines;
    }
  }

  /** Without any script, no line of the document is an import. */
  lemma NoScriptNoImports(fileName: string, b: Blocks, s: SearchTexts)
    requires !b.hasScript && !b.hasScriptSetup
    ensures forall i :: 0 <= i < |Chunks(fileName, b, s)| ==> !StartsWith(Chunks(fileName, b, s)[i], "import ")
  {
    var c := Chunks(fileName, b, s);
    assert c == [NoCheckLine] + FallbackLines + ContextLines(s) + ExportLines(fileName, b.hasTemplate);
    assert NoCheckLine[0] == '/';
    assert FallbackOptions[0] == 'e' && FallbackName[0] == 'e' && FallbackComponentTs[0] == 'v' && FallbackComponent[0] == 'e';
    assert CtxDecl[0] == 'd' && ComponentsWrapDecl[0] == 'd' && ComponentsDecl[0] == 'd';
    assert ContextMarker(s)[0] == '_' && ComponentsMarker(s)[0] == '_';
    assert SetupReturnsMarker(s)[0] == '(' && PropsMarker(s)[0] == '(' && GlobalAttrsMarker(s)[0] == '(';
    assert LineEnd[0] == '\n' && ExportDefaultHead[0] == 'e' && RawMember[0] == '_' && OptionsMember[0] == '_';
    assert SlotsMember(fileName)[0] == '_' && NoTemplateLine[0] == '/' && ClosingLine[0] == '}';
    forall i | 0 <= i < |c|
      ensures !StartsWith(c[i], "import ")
    {
      assert c[i][0] != 'i' && "import "[0] == 'i';
    }
  }

  /** A plain script beside a script setup changes nothing: the options and
      the component are then taken from the script setup's generated code. */
  lemma ScriptSetupTakesPrecedence(fileName: string, b: Blocks, s: SearchTexts)
    requires b.hasScriptSetup
    ensures Chunks(fileName, b, s) == Chunks(fileName, b.(hasScript := false), s)
    ensures Chunks(fileName, b, s)[6] == ImportComponent(fileName)
  {
    assert BlockLines(fileName, b) == BlockLines(fileName, b.(hasScript := false));
  }

  /** With a script setup, neither line choosing the component of a plain
      script is written. */
  lemma ScriptSetupSelectsNothing(fileName: string, b: Blocks)
    requires b.hasScriptSetup
    ensures SelectComponentTs !in BlockLines(fileName, b) && SelectComponent !in BlockLines(fileName, b)
  {
    var ts := TsScriptFile(b.hasTsDoc);
    var lines := BlockLines(fileName, b);
    assert lines == OptionsLines(fileName, ts) + SetupComponentLines(fileName, ts);
    assert SelectComponentTs[0] == 'd' && SelectComponent[0] == 'e' && SelectComponent[7] == 'd';
    assert lines[0][0] == 'i' && lines[1][0] == 'i' && lines[4][0] == 'i' && lines[5][0] == 'i';
    assert lines[2][0] == 'e' && lines[2][7] == '{' && lines[6][0] == 'e' && lines[6][7] == '{';
    assert lines[3][0] == 'e' && lines[3][7] == '*';
  }

  /** Without any script the document does not depend on whether a
      TypeScript copy is generated. */
  lemma NoScriptIgnoresTsDoc(fileName: string, b: Blocks, s: SearchTexts)
    requires !b.hasScript && !b.hasScriptSetup
    ensures Chunks(fileName, b, s) == Chunks(fileName, b.(hasTsDoc := !b.hasTsDoc), s)
  {
  }

  lemma EndsWithAppend(x: string, y: string, z: string)
    requires |z| <= |y|
    ensures EndsWith(x + y, z) <==> EndsWith(y, z)
  {
    assert (x + y)[|x + y| - |z|..] == y[|y| - |z|..];
  }

  const TsSuffix := "_ts';\n"

  /** The import path of `target` ends in `_ts` exactly when `target` does. */
  lemma FromTsSuffix(fileName: string, target: string)
    ensures EndsWith(From(fileName, target), TsSuffix) <==> EndsWith(target, "_ts")
  {
    var head := "from './" + fileName + ".";
    assert From(fileName, target) == head + (target + "';\n");
    if |target| >= 3 {
      EndsWithAppend(head, target + "';\n", TsSuffix);
      var tail := target + "';\n";
      assert tail[|tail| - 6..] == target[|target| - 3..] + "';\n";
      assert TsSuffix == "_ts" + "';\n";
      if tail[|tail| - 6..] == TsSuffix {
        assert target[|target| - 3..] == (target[|target| - 3..] + "';\n")[..3] == TsSuffix[..3] == "_ts";
      }
    } else {
      var f := From(fileName, target);
      assert f[|f| - 4 - |target|] == '.';
      assert TsSuffix[2 - |target|] != '.';
    }
  }

  /** The lines that read the TypeScript copy of the script do so exactly
      when that copy is generated; the other imports never do. */
  lemma TsImportsIffTsDoc(fileName: string, hasTsDoc: bool)
    ensures var ts := TsScriptFile(hasTsDoc);
            && (EndsWith(ImportOptionsTs(fileName, ts), TsSuffix) <==> hasTsDoc)
            && (EndsWith(ImportComponentTs(fileName, ts), TsSuffix) <==> hasTsDoc)
            && (EndsWith(ImportDefaultTs(fileName, ts), TsSuffix) <==> hasTsDoc)
            && (EndsWith(ImportNamedTs(fileName, ts), TsSuffix) <==> hasTsDoc)
    ensures !EndsWith(ImportOptions(fileName), TsSuffix) && !EndsWith(ImportComponent(fileName), TsSuffix)
    ensures !EndsWith(ImportDefault(fileName), TsSuffix) && !EndsWith(ImportNamed(fileName), TsSuffix)
  {
    var ts := TsScriptFile(hasTsDoc);
    FromTsSuffix(fileName, ts);
    FromTsSuffix(fileName, ScriptModule);
    if hasTsDoc {
      assert ts == ScriptModule + "_ts";
    } else {
      assert ts[|ts| - 3] == 'i';
    }
    var from, plain := From(fileName, ts), From(fileName, ScriptModule);
    EndsWithAppend("import { __VLS_options " + "as __VLS_options_ts, " + "__VLS_name " + "as __VLS_name_ts } ", from, TsSuffix);
    EndsWithAppend("import { __VLS_component " + "as __VLS_component_ts } ", from, TsSuffix);
    EndsWithAppend("import __VLS_component_1_ts ", from, TsSuffix);
    EndsWithAppend("import { __VLS_component " + "as __VLS_component_2_ts } ", from, TsSuffix);
    EndsWithAppend("import { __VLS_options, " + "__VLS_name } ", plain, TsSuffix);
    EndsWithAppend("import { __VLS_component } ", plain, TsSuffix);
    EndsWithAppend("import __VLS_component_1 ", plain, TsSuffix);
    EndsWithAppend("import { __VLS_component " + "as __VLS_component_2 } ", plain, TsSuffix);
  }

  /** The slots line names the template's generated module exactly when
      there is a template; otherwise a comment stands in its place. */
  lemma SlotsIffTemplate(fileName: string, b: Blocks, s: SearchTexts)
    ensures var c := Chunks(fileName, b, s);
            c[|c| - 2] == SlotsMember(fileName) <==> b.hasTemplate
    ensures var c := Chunks(fileName, b, s);
            c[|c| - 2] == NoTemplateLine <==> !b.hasTemplate
  {
    assert SlotsMember(fileName)[0] == '_';
    assert NoTemplateLine[0] == '/';
  }
}
