/** How the logs of the generator's steps extend one another. Every step
    only appends calls to the buffer, and every call it appends is well
    formed: a mapping without text is an `Overlap` one, and the text of an
    `Offset` mapping taken from the script or the script setup is the
    substring of that block at the mapping's source range. */
module ScriptGenLogs {
  import opened Wrappers
  import opened SourceMaps
  import opened CodeGen
  import opened JsStrings
  import opened ScriptGen

  /** A call the generator may make. */
  predicate PieceOk(inp: Inputs, p: Piece) {
    (p.Extra? ==> p.mapping.mode == Overlap) &&
    (p.Code? && p.mode == Offset && (p.data.vueTag == Script || p.data.vueTag == ScriptSetup) ==>
       p.s == Substring(BlockContent(inp, p.data.vueTag), p.sourceRange.start, p.sourceRange.end))
  }

  /** `b` is `a` followed by calls the generator may make. */
  predicate Grows(inp: Inputs, a: Log, b: Log) {
    b == a || (b.Call? && Grows(inp, a, b.before) && PieceOk(inp, b.piece))
  }

  /** `a` is a prefix of `b`. */
  predicate IsPrefix<T(==)>(a: seq<T>, b: seq<T>) {
    |a| <= |b| && b[..|a|] == a
  }

  lemma GrowsAdd(inp: Inputs, a: Log, b: Log, p: Piece)
    requires Grows(inp, a, b) && PieceOk(inp, p)
    ensures Grows(inp, a, b.Add(p))
  {
  }

  lemma {:induction false} GrowsTrans(inp: Inputs, a: Log, b: Log, c: Log)
    requires Grows(inp, a, b) && Grows(inp, b, c)
    ensures Grows(inp, a, c)
  {
    if c != b {
      GrowsTrans(inp, a, b, c.before);
    }
  }

  /** A log that grows keeps its text as a prefix and its mappings as a
      prefix. */
  lemma {:induction false} GrowsPrefix(inp: Inputs, a: Log, b: Log)
    requires Grows(inp, a, b)
    ensures IsPrefix(TextOf(a), TextOf(b))
    ensures IsPrefix(MappingsOf(a), MappingsOf(b))
  {
    if b != a {
      GrowsPrefix(inp, a, b.before);
      var t, m := TextOf(b.before), MappingsOf(b.before);
      assert (t + PieceText(b.piece))[..|t|] == t;
      assert (m + PieceMappings(|t|, b.piece))[..|m|] == m;
    }
  }

  /** A log grown from the empty one records no textless mapping other
      than an `Overlap` one. */
  lemma {:induction false} GrowsExtrasOverlap(inp: Inputs, log: Log)
    requires Grows(inp, Empty, log)
    ensures ExtrasOverlap(log)
  {
    if log != Empty {
      GrowsExtrasOverlap(inp, log.before);
    }
  }

  // ---------------------------------------------------------------------
  // Every step grows its log

  lemma TsNoCheckGrows(inp: Inputs, log: Log)
    ensures Grows(inp, log, TsNoCheckCalls(inp, log))
  {
    assert Grows(inp, log, log);
  }

  lemma ScriptSrcGrows(inp: Inputs, log: Log)
    ensures Grows(inp, log, ScriptSrcCalls(inp, log))
  {
    assert Grows(inp, log, log);
    if HasSrc(inp) {
      var l1 := log.Add(Plain("export * from "));
      var l2 := l1.Add(SrcCode(inp));
      var l3 := l2.Add(Plain(";\n"));
      assert Grows(inp, log, l1);
      assert Grows(inp, log, l2);
      assert Grows(inp, log, l3);
    }
  }

  lemma {:induction false} SectionsGrow(inp: Inputs, sections: seq<Section>, log: Log)
    ensures Grows(inp, log, SectionCalls(inp, sections, log))
    decreases |sections|
  {
    assert Grows(inp, log, log);
    if sections != [] {
      SectionsGrow(inp, sections[..|sections| - 1], log);
    }
  }

  lemma ScriptGrows(inp: Inputs, log: Log)
    requires AwaitFits(inp)
    ensures Grows(inp, log, ScriptCalls(inp, log))
  {
    assert Grows(inp, log, log);
    if inp.script.Some? {
      SectionsGrow(inp, ScriptSections(inp), log);
    }
  }

  lemma ScriptSetupGrows(inp: Inputs, log: Log)
    ensures Grows(inp, log, ScriptSetupCalls(inp, log))
  {
    assert Grows(inp, log, log);
    if inp.scriptSetup.Some? {
      var content := inp.scriptSetup.value.content;
      SubstringSlice(content, 0, |content|);
    }
  }

  lemma FallbackGrows(inp: Inputs, log: Log)
    ensures Grows(inp, log, FallbackCalls(inp, log))
  {
    assert Grows(inp, log, log);
  }

  /** What follows the re-export lines up to the component grows the log. */
  lemma AfterSrcGrows(inp: Inputs)
    requires AwaitFits(inp)
    ensures Grows(inp, ScriptSrcCalls(inp, TsNoCheckCalls(inp, Empty)), BeforeComponent(inp))
  {
    var l1 := ScriptSrcCalls(inp, TsNoCheckCalls(inp, Empty));
    var l2 := ScriptCalls(inp, l1);
    var l3 := ScriptSetupCalls(inp, l2);
    ScriptGrows(inp, l1);
    ScriptSetupGrows(inp, l2);
    FallbackGrows(inp, l3);
    GrowsTrans(inp, l1, l2, l3);
    GrowsTrans(inp, l1, l3, BeforeComponent(inp));
  }

  lemma BeforeComponentGrows(inp: Inputs)
    requires AwaitFits(inp)
    ensures Grows(inp, Empty, BeforeComponent(inp))
  {
    var l0 := TsNoCheckCalls(inp, Empty);
    var l1 := ScriptSrcCalls(inp, l0);
    TsNoCheckGrows(inp, Empty);
    ScriptSrcGrows(inp, l0);
    GrowsTrans(inp, Empty, l0, l1);
    AfterSrcGrows(inp);
    GrowsTrans(inp, Empty, l1, BeforeComponent(inp));
  }

  lemma ComponentHeadGrows(inp: Inputs, log: Log)
    ensures Grows(inp, log, ComponentHeadCalls(inp, log))
  {
    assert Grows(inp, log, log);
    if !ShouldAddExportDefault(inp) {
      assert Grows(inp, log, log.Add(Plain("\n")));
    }
  }

  lemma ComponentArgsGrows(inp: Inputs, log: Log)
    ensures Grows(inp, log, ComponentArgsCalls(inp, log))
  {
    assert Grows(inp, log, log);
    if HasArgs(inp) {
      var l1 := log.Add(Plain("...("));
      var l2 := l1.Add(SubText(inp, Script, Args(inp)));
      assert Grows(inp, log, l1);
      assert Grows(inp, log, l2);
    }
  }

  lemma PropsGrows(inp: Inputs, r: ScriptSetupRanges, log: Log)
    ensures Grows(inp, log, PropsCalls(inp, r, log))
  {
    assert Grows(inp, log, log);
    if r.propsRuntimeArg.Some? || r.propsTypeArg.Some? {
      var l1 := log.Add(Plain("props: ("));
      var l2 := if r.withDefaultsArg.Some? then l1.Add(Plain("__VLS_mergePropDefaults(")) else l1;
      assert Grows(inp, log, l1);
      assert Grows(inp, log, l2);
      var l3 :=
        if r.propsRuntimeArg.Some? then l2.Add(SubText(inp, ScriptSetup, r.propsRuntimeArg.value))
        else l2.Add(Plain("{} as __VLS_DefinePropsToOptions<")).Add(SubText(inp, ScriptSetup, r.propsTypeArg.value)).Add(Plain(">"));
      if r.propsRuntimeArg.None? {
        assert Grows(inp, log, l2.Add(Plain("{} as __VLS_DefinePropsToOptions<")));
        assert Grows(inp, log, l2.Add(Plain("{} as __VLS_DefinePropsToOptions<")).Add(SubText(inp, ScriptSetup, r.propsTypeArg.value)));
      }
      assert Grows(inp, log, l3);
      var l4 :=
        if r.withDefaultsArg.Some? then l3.Add(Plain(", ")).Add(SubText(inp, ScriptSetup, r.withDefaultsArg.value)).Add(Plain(")"))
        else l3;
      if r.withDefaultsArg.Some? {
        assert Grows(inp, log, l3.Add(Plain(", ")));
        assert Grows(inp, log, l3.Add(Plain(", ")).Add(SubText(inp, ScriptSetup, r.withDefaultsArg.value)));
      }
      assert Grows(inp, log, l4);
    }
  }

  lemma EmitsGrows(inp: Inputs, r: ScriptSetupRanges, log: Log)
    ensures Grows(inp, log, EmitsCalls(inp, r, log))
  {
    assert Grows(inp, log, log);
    if r.emitsRuntimeArg.Some? {
      var l1 := log.Add(Plain("emits: ("));
      assert Grows(inp, log, l1);
      assert Grows(inp, log, l1.Add(SubText(inp, ScriptSetup, r.emitsRuntimeArg.value)));
    } else if r.emitsTypeArg.Some? {
      var l1 := log.Add(Plain("emits: ({} as __VLS_ConstructorOverloads<"));
      assert Grows(inp, log, l1);
      assert Grows(inp, log, l1.Add(SubText(inp, ScriptSetup, r.emitsTypeArg.value)));
    }
  }

  lemma {:induction false} ExposeGrows(inp: Inputs, names: seq<string>, log: Log)
    ensures Grows(inp, log, ExposeCalls(names, log))
    decreases |names|
  {
    assert Grows(inp, log, log);
    if names != [] {
      var name := names[|names| - 1];
      var l0 := ExposeCalls(names[..|names| - 1], log);
      ExposeGrows(inp, names[..|names| - 1], log);
      assert Grows(inp, log, l0.Add(Plain(name)));
      assert Grows(inp, log, l0.Add(Plain(name)).Add(Plain(": ")));
      assert Grows(inp, log, l0.Add(Plain(name)).Add(Plain(": ")).Add(Plain(name)));
    }
  }

  lemma {:induction false} StyleBindGrows(inp: Inputs, text: string, binds: seq<Range>, log: Log)
    ensures Grows(inp, log, StyleBindCalls(text, binds, log))
    decreases |binds|
  {
    assert Grows(inp, log, log);
    if binds != [] {
      var l0 := StyleBindCalls(text, binds[..|binds| - 1], log);
      StyleBindGrows(inp, text, binds[..|binds| - 1], log);
      assert Grows(inp, log, l0.Add(Plain("// @ts-ignore\n")));
    }
  }

  lemma {:induction false} CssBindGrows(inp: Inputs, styles: seq<StyleDoc>, log: Log)
    ensures Grows(inp, log, CssBindCalls(styles, log))
    decreases |styles|
  {
    assert Grows(inp, log, log);
    if styles != [] {
      var last := styles[|styles| - 1];
      var l0 := CssBindCalls(styles[..|styles| - 1], log);
      CssBindGrows(inp, styles[..|styles| - 1], log);
      StyleBindGrows(inp, last.text, last.binds, l0);
      GrowsTrans(inp, log, l0, StyleBindCalls(last.text, last.binds, l0));
    }
  }

  lemma {:induction false} EchoGrows(inp: Inputs, tags: set<string>, names: seq<string>, log: Log)
    ensures Grows(inp, log, EchoCalls(tags, names, log))
    decreases |names|
  {
    assert Grows(inp, log, log);
    if names != [] {
      var l0 := EchoCalls(tags, names[..|names| - 1], log);
      EchoGrows(inp, tags, names[..|names| - 1], log);
      assert Grows(inp, log, l0.Add(Plain("// @ts-ignore\n")));
    }
  }

  lemma TemplateGrows(inp: Inputs, log: Log)
    ensures Grows(inp, log, TemplateCalls(inp, log))
  {
    assert Grows(inp, log, log);
    if inp.htmlGen.Some? {
      EchoGrows(inp, inp.htmlGen.value.tags, TemplateBindingNames(inp), log);
    }
  }

  lemma SetupOpenGrows(inp: Inputs, log: Log)
    requires HasSetupOptions(inp)
    ensures Grows(inp, log, SetupOpenCalls(inp, log))
  {
    assert Grows(inp, log, log);
    var r := inp.scriptSetupRanges.value;
    PropsGrows(inp, r, log);
    EmitsGrows(inp, r, PropsCalls(inp, r, log));
    GrowsTrans(inp, log, PropsCalls(inp, r, log), EmitsCalls(inp, r, PropsCalls(inp, r, log)));
  }

  /** What follows the exposed pairs up to the end of the setup options. */
  lemma SetupCloseGrows(inp: Inputs, body: Log)
    ensures Grows(inp, body, body.Add(Plain("};\n")).Add(Plain("},\n")))
  {
    assert Grows(inp, body, body);
    assert Grows(inp, body, body.Add(Plain("};\n")));
  }

  lemma SetupGrows(inp: Inputs, log: Log)
    requires HasSetupOptions(inp)
    ensures Grows(inp, log, SetupCalls(inp, log))
  {
    assert Grows(inp, log, log);
    var setupOpen := SetupOpenCalls(inp, log);
    SetupOpenGrows(inp, log);
    assert Grows(inp, setupOpen, setupOpen);
    if inp.lsType == ScriptLs {
      var l1 := setupOpen.Add(Plain("return () => {\n"));
      var l2 := CssBindCalls(inp.styles, l1);
      var l3 := TemplateCalls(inp, l2);
      CssBindGrows(inp, inp.styles, l1);
      TemplateGrows(inp, l2);
      GrowsTrans(inp, log, setupOpen, l1);
      GrowsTrans(inp, log, l1, l2);
      GrowsTrans(inp, log, l2, l3);
      SetupCloseGrows(inp, l3);
      GrowsTrans(inp, log, l3, SetupCalls(inp, log));
    } else {
      var l1 := setupOpen.Add(Plain("return {\n"));
      var l2 := ExposeCalls(ExposedNames(BindingGroups(inp)), l1);
      ExposeGrows(inp, ExposedNames(BindingGroups(inp)), l1);
      GrowsTrans(inp, log, setupOpen, l1);
      GrowsTrans(inp, log, l1, l2);
      SetupCloseGrows(inp, l2);
      GrowsTrans(inp, log, l2, SetupCalls(inp, log));
    }
  }

  lemma ComponentGrows(inp: Inputs, log: Log)
    ensures Grows(inp, log, ComponentCalls(inp, log))
  {
    assert Grows(inp, log, log);
    var l1 := ComponentHeadCalls(inp, log);
    var l2 := ComponentArgsCalls(inp, l1);
    ComponentHeadGrows(inp, log);
    ComponentArgsGrows(inp, l1);
    GrowsTrans(inp, log, l1, l2);
    if HasSetupOptions(inp) {
      SetupGrows(inp, l2);
      GrowsTrans(inp, log, l2, SetupCalls(inp, l2));
    }
  }

  lemma OptionGrows(inp: Inputs, prefix: string, arg: Option<Range>, capabilities: Capabilities, log: Log)
    ensures Grows(inp, log, OptionCalls(inp, prefix, arg, capabilities, log))
  {
    assert Grows(inp, log, log);
    if arg.Some? && inp.scriptSetup.Some? {
      var l1 := log.Add(Plain(prefix));
      assert Grows(inp, log, l1);
      assert Grows(inp, log, l1.Add(SetupOptionCode(inp, arg.value, capabilities)));
    }
  }

  lemma ExportOptionsGrows(inp: Inputs, log: Log)
    ensures Grows(inp, log, ExportOptionsCalls(inp, log))
  {
    assert Grows(inp, log, log);
    var l0 := log.Add(Plain("\n")).Add(Plain("export const __VLS_options = {\n"));
    assert Grows(inp, log, log.Add(Plain("\n")));
    assert Grows(inp, log, l0);
    var l1 :=
      if HasArgs(inp) then
        var a := Args(inp);
        l0.Add(Plain("...("))
        .Add(Code(Substring(BlockContent(inp, Script), a.start, a.end), a, Offset, MappingData(Script, ReferencesRename)))
        .Add(Plain("),\n"))
      else l0;
    if HasArgs(inp) {
      var a := Args(inp);
      assert Grows(inp, log, l0.Add(Plain("...(")));
      assert Grows(inp, log, l0.Add(Plain("...("))
        .Add(Code(Substring(BlockContent(inp, Script), a.start, a.end), a, Offset, MappingData(Script, ReferencesRename))));
    }
    assert Grows(inp, log, l1);
    var r := SetupRangesOrNone(inp);
    var l2 := OptionCalls(inp, "props: (", r.propsRuntimeArg, ReferencesDefinitionsRename, l1);
    var l3 := OptionCalls(inp, "props: ({} as ", r.propsTypeArg, ReferencesDefinitionsRename, l2);
    var l4 := OptionCalls(inp, "emits: (", r.emitsRuntimeArg, ReferencesDefinitionsRename, l3);
    var l5 := OptionCalls(inp, "emits: ({} as ", r.emitsTypeArg, NoCapabilities, l4);
    OptionGrows(inp, "props: (", r.propsRuntimeArg, ReferencesDefinitionsRename, l1);
    OptionGrows(inp, "props: ({} as ", r.propsTypeArg, ReferencesDefinitionsRename, l2);
    OptionGrows(inp, "emits: (", r.emitsRuntimeArg, ReferencesDefinitionsRename, l3);
    OptionGrows(inp, "emits: ({} as ", r.emitsTypeArg, NoCapabilities, l4);
    GrowsTrans(inp, log, l1, l2);
    GrowsTrans(inp, log, l2, l3);
    GrowsTrans(inp, log, l3, l4);
    GrowsTrans(inp, log, l4, l5);
  }

  lemma ConstNameGrows(inp: Inputs, log: Log)
    ensures Grows(inp, log, ConstNameCalls(inp, log))
  {
    assert Grows(inp, log, log);
    var l0 := log.Add(Plain("\n"));
    assert Grows(inp, log, l0);
    if HasArgs(inp) {
      assert Grows(inp, log, l0.Add(Plain("export const __VLS_name = __VLS_getNameOption(")));
      var a := Args(inp);
      assert Grows(inp, log, l0.Add(Plain("export const __VLS_name = __VLS_getNameOption("))
        .Add(Plain(Substring(BlockContent(inp, Script), a.start, a.end) + " as const")));
    }
  }

  lemma AnchorGrows(inp: Inputs, log: Log)
    ensures Grows(inp, log, AnchorCalls(inp, log))
  {
    assert Grows(inp, log, log);
    if inp.lsType == ScriptLs && inp.scriptSetup.Some? {
      var n := |inp.scriptSetup.value.content|;
      SubstringSlice(inp.scriptSetup.value.content, n, n);
    }
  }

  lemma {:induction false} OverlapGrows(inp: Inputs, ranges: seq<Range>, log: Log)
    ensures Grows(inp, log, OverlapCalls(ranges, log))
    decreases |ranges|
  {
    assert Grows(inp, log, log);
    if ranges != [] {
      OverlapGrows(inp, ranges[..|ranges| - 1], log);
    }
  }

  /** Everything after the component grows the log. */
  lemma AfterComponentGrows(inp: Inputs, component: Log)
    requires AwaitFits(inp)
    ensures Grows(inp, component,
                  AnchorCalls(inp, if inp.lsType == TemplateLs then ConstNameCalls(inp, ExportOptionsCalls(inp, component)) else component))
  {
    var options := if inp.lsType == TemplateLs then ConstNameCalls(inp, ExportOptionsCalls(inp, component)) else component;
    if inp.lsType == TemplateLs {
      ExportOptionsGrows(inp, component);
      ConstNameGrows(inp, ExportOptionsCalls(inp, component));
      GrowsTrans(inp, component, ExportOptionsCalls(inp, component), options);
    }
    AnchorGrows(inp, options);
    GrowsTrans(inp, component, options, AnchorCalls(inp, options));
  }

  /** The component grows into the body, and the body into the whole log. */
  lemma BodyGrows(inp: Inputs)
    requires AwaitFits(inp)
    ensures Grows(inp, BeforeComponent(inp), BodyCalls(inp))
    ensures Grows(inp, BodyCalls(inp), AllCalls(inp))
  {
    var before := BeforeComponent(inp);
    var component := if WritesComponent(inp) then ComponentCalls(inp, before) else before;
    if WritesComponent(inp) {
      ComponentGrows(inp, before);
    }
    AfterComponentGrows(inp, component);
    GrowsTrans(inp, before, component, BodyCalls(inp));
    OverlapGrows(inp, OverlapRanges(inp), BodyCalls(inp));
  }

  /** The whole log of `generate` is made of calls the generator may make. */
  lemma AllCallsGrow(inp: Inputs)
    requires AwaitFits(inp)
    ensures Grows(inp, Empty, AllCalls(inp))
    ensures Grows(inp, BeforeComponent(inp), AllCalls(inp))
  {
    assert Grows(inp, Empty, Empty);
    BeforeComponentGrows(inp);
    BodyGrows(inp);
    GrowsTrans(inp, BeforeComponent(inp), BodyCalls(inp), AllCalls(inp));
    GrowsTrans(inp, Empty, BeforeComponent(inp), AllCalls(inp));
  }

  /** From the head of the component to the end of the log. */
  lemma HeadGrowsToAll(inp: Inputs)
    requires AwaitFits(inp) && WritesComponent(inp)
    ensures Grows(inp, ComponentHeadCalls(inp, BeforeComponent(inp)), AllCalls(inp))
  {
    var head := ComponentHeadCalls(inp, BeforeComponent(inp));
    var args := ComponentArgsCalls(inp, head);
    var setup := if HasSetupOptions(inp) then SetupCalls(inp, args) else args;
    var component := ComponentCalls(inp, BeforeComponent(inp));
    ComponentArgsGrows(inp, head);
    assert Grows(inp, setup, setup);
    if HasSetupOptions(inp) {
      SetupGrows(inp, args);
    }
    GrowsTrans(inp, head, args, setup);
    GrowsTrans(inp, head, setup, component);
    ToAllGrows(inp, component);
    GrowsTrans(inp, head, component, AllCalls(inp));
  }

  /** From the component to the end of the log. */
  lemma ToAllGrows(inp: Inputs, component: Log)
    requires AwaitFits(inp) && WritesComponent(inp) && component == ComponentCalls(inp, BeforeComponent(inp))
    ensures Grows(inp, component, AllCalls(inp))
  {
    AfterComponentGrows(inp, component);
    OverlapGrows(inp, OverlapRanges(inp), BodyCalls(inp));
    GrowsTrans(inp, component, BodyCalls(inp), AllCalls(inp));
  }

  /** The log the exposed pairs are written after. */
  function ExposeStart(inp: Inputs): Log
    requires AwaitFits(inp) && HasSetupOptions(inp)
  {
    SetupOpenCalls(inp, ComponentArgsCalls(inp, ComponentHeadCalls(inp, BeforeComponent(inp)))).Add(Plain("return {\n"))
  }

  /** From the last exposed pair to the end of the log. */
  lemma ExposedGrowsToAll(inp: Inputs)
    requires AwaitFits(inp) && inp.lsType == TemplateLs && HasSetupOptions(inp)
    ensures Grows(inp, ExposeCalls(ExposedNames(BindingGroups(inp)), ExposeStart(inp)), AllCalls(inp))
  {
    var pairs := ExposeCalls(ExposedNames(BindingGroups(inp)), ExposeStart(inp));
    var head := ComponentArgsCalls(inp, ComponentHeadCalls(inp, BeforeComponent(inp)));
    var setup := pairs.Add(Plain("};\n")).Add(Plain("},\n"));
    assert setup == SetupCalls(inp, head);
    var component := setup.Add(Plain("});\n"));
    assert component == ComponentCalls(inp, BeforeComponent(inp));
    assert Grows(inp, pairs, pairs);
    assert Grows(inp, pairs, pairs.Add(Plain("};\n")));
    assert Grows(inp, pairs, setup);
    assert Grows(inp, pairs, component);
    ToAllGrows(inp, component);
    GrowsTrans(inp, pairs, component, AllCalls(inp));
  }

  /** The log the body of the render function is written after, for the
      script consumer. */
  function RenderStart(inp: Inputs): Log
    requires AwaitFits(inp) && HasSetupOptions(inp)
  {
    SetupOpenCalls(inp, ComponentArgsCalls(inp, ComponentHeadCalls(inp, BeforeComponent(inp)))).Add(Plain("return () => {\n"))
  }

  /** From the render function's body to the end of the log. */
  lemma RenderedGrowsToAll(inp: Inputs)
    requires AwaitFits(inp) && inp.lsType == ScriptLs && HasSetupOptions(inp)
    ensures Grows(inp, RenderStart(inp), TemplateCalls(inp, CssBindCalls(inp.styles, RenderStart(inp))))
    ensures Grows(inp, TemplateCalls(inp, CssBindCalls(inp.styles, RenderStart(inp))), AllCalls(inp))
  {
    var start := RenderStart(inp);
    var css := CssBindCalls(inp.styles, start);
    var rendered := TemplateCalls(inp, css);
    CssBindGrows(inp, inp.styles, start);
    TemplateGrows(inp, css);
    GrowsTrans(inp, start, css, rendered);
    var head := ComponentArgsCalls(inp, ComponentHeadCalls(inp, BeforeComponent(inp)));
    var setup := rendered.Add(Plain("};\n")).Add(Plain("},\n"));
    assert setup == SetupCalls(inp, head);
    var component := setup.Add(Plain("});\n"));
    assert component == ComponentCalls(inp, BeforeComponent(inp));
    assert Grows(inp, rendered, rendered);
    assert Grows(inp, rendered, rendered.Add(Plain("};\n")));
    assert Grows(inp, rendered, setup);
    assert Grows(inp, rendered, component);
    ToAllGrows(inp, component);
    GrowsTrans(inp, rendered, component, AllCalls(inp));
  }

  /** A log that grows into one without textless non-`Overlap` mappings has
      none either. */
  lemma {:induction false} ExtrasOverlapPrefix(inp: Inputs, a: Log, b: Log)
    requires Grows(inp, a, b) && ExtrasOverlap(b)
    ensures ExtrasOverlap(a)
  {
    if b != a {
      ExtrasOverlapPrefix(inp, a, b.before);
    }
  }

  /** What the render function's body is written after records no textless
      non-`Overlap` mapping. */
  lemma RenderStartExtras(inp: Inputs)
    requires AwaitFits(inp) && inp.lsType == ScriptLs && HasSetupOptions(inp)
    ensures ExtrasOverlap(RenderStart(inp))
  {
    var rendered := TemplateCalls(inp, CssBindCalls(inp.styles, RenderStart(inp)));
    AllCallsGrow(inp);
    GrowsExtrasOverlap(inp, AllCalls(inp));
    RenderedGrowsToAll(inp);
    GrowsTrans(inp, RenderStart(inp), rendered, AllCalls(inp));
    ExtrasOverlapPrefix(inp, RenderStart(inp), AllCalls(inp));
  }

  /** The mappings a growing log adds that are not `Overlap` ones all start
      at or after the end of the text it grew from. */
  lemma {:induction false} GrowsMapsAfter(inp: Inputs, a: Log, b: Log)
    requires Grows(inp, a, b)
    ensures |MappingsOf(a)| <= |MappingsOf(b)|
    ensures forall j :: |MappingsOf(a)| <= j < |MappingsOf(b)| && MappingsOf(b)[j].mode != Overlap ==>
              |TextOf(a)| <= MappingsOf(b)[j].mappedRange.start
  {
    if b != a {
      GrowsMapsAfter(inp, a, b.before);
      GrowsPrefix(inp, a, b.before);
      var ms0 := MappingsOf(b.before);
      var at := |TextOf(b.before)|;
      var tail := PieceMappings(at, b.piece);
      var ms := MappingsOf(b);
      assert ms == ms0 + tail;
      forall j | |MappingsOf(a)| <= j < |ms| && ms[j].mode != Overlap
        ensures |TextOf(a)| <= ms[j].mappedRange.start
      {
        if j < |ms0| {
          assert ms[j] == ms0[j];
        } else {
          assert ms[j] == tail[j - |ms0|];
        }
      }
    }
  }
}
