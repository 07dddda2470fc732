/** What `generate` promises about its output: the re-exported path, the
    length-preserving `await` rewrite, mapped text that copies its source,
    mappings in order inside the text, the `name: name` pairs and their
    teleports, the placeholder output, the code-action anchor, the trailing
    overlap mappings and the three-way name rule. */
module ScriptGenProperties {
  import opened Wrappers
  import opened SourceMaps
  import opened CodeGen
  import opened JsStrings
  import opened ScriptGen
  import opened ScriptGenLogs

  // ---------------------------------------------------------------------
  // The re-exported path

  /** A string ending with `.d.ts` ends with `.ts`. */
  lemma DtsEndsWithTs(s: string)
    requires EndsWith(s, ".d.ts")
    ensures EndsWith(s, ".ts")
  {
    assert s[|s| - 3..] == s[|s| - 5..][2..];
  }

  lemma StripDts(x: string)
    ensures StripTsExt(x + ".d.ts") == x
  {
    var d := x + ".d.ts";
    assert d[|d| - 5..] == ".d.ts";
    RemoveExtAppended(x, ".d.ts");
  }

  /** `x + ".ts"` ends with `.d.ts` exactly when `x` ends with `.d`. */
  lemma DtsIffD(x: string)
    ensures EndsWith(x + ".ts", ".d.ts") <==> EndsWith(x, ".d")
  {
    var d := x + ".ts";
    if |x| >= 2 {
      var tail := x[|x| - 2..];
      assert d[|d| - 5..] == tail + ".ts";
      assert (tail + ".ts")[..2] == tail && ".d.ts"[..2] == ".d";
    }
  }

  lemma StripTs(x: string)
    requires !EndsWith(x, ".d")
    ensures StripTsExt(x + ".ts") == x
  {
    var d := x + ".ts";
    assert d[|d| - 3..] == ".ts";
    DtsIffD(x);
    RemoveExtAppended(x, ".ts");
  }

  lemma StripTsx(x: string)
    ensures StripTsExt(x + ".tsx") == x
  {
    var t := x + ".tsx";
    assert t[|t| - 4..] == ".tsx";
    assert t[|t| - 1] == 'x';
    if EndsWith(t, ".d.ts") {
      DtsEndsWithTs(t);
    }
    RemoveExtAppended(x, ".tsx");
  }

  lemma StripOther(other: string)
    requires !EndsWith(other, ".ts") && !EndsWith(other, ".tsx")
    ensures StripTsExt(other) == other
  {
    if EndsWith(other, ".d.ts") {
      DtsEndsWithTs(other);
    }
  }

  /** `.d.ts` is tested before `.ts`, `.tsx` is stripped too, and any other
      path is kept. */
  lemma StripTsExtCases(x: string, other: string)
    ensures StripTsExt(x + ".d.ts") == x
    ensures !EndsWith(x, ".d") ==> StripTsExt(x + ".ts") == x
    ensures StripTsExt(x + ".tsx") == x
    ensures !EndsWith(other, ".ts") && !EndsWith(other, ".tsx") ==> StripTsExt(other) == other
  {
    StripDts(x);
    if !EndsWith(x, ".d") {
      StripTs(x);
    }
    StripTsx(x);
    if !EndsWith(other, ".ts") && !EndsWith(other, ".tsx") {
      StripOther(other);
    }
  }

  /** The text before the script: the `@ts-nocheck` line of the template
      consumer, then the two re-export lines. */
  lemma ReexportText(inp: Inputs)
    requires HasSrc(inp)
    ensures TextOf(ScriptSrcCalls(inp, TsNoCheckCalls(inp, Empty)))
         == (if inp.lsType == TemplateLs then TsNoCheck else "") + "export * from " + ("'" + SrcPath(inp) + "'") + ";\n" +
            ("export { default } from '" + SrcPath(inp) + "';\n")
  {
    var l0 := TsNoCheckCalls(inp, Empty);
    var p := SrcPath(inp);
    var t0 := if inp.lsType == TemplateLs then TsNoCheck else "";
    assert TextOf(l0) == t0;
    var l1 := l0.Add(Plain("export * from "));
    var l2 := l1.Add(SrcCode(inp));
    var l3 := l2.Add(Plain(";\n"));
    var l4 := l3.Add(Plain("export { default } from '" + p + "';\n"));
    assert l4 == ScriptSrcCalls(inp, l0);
    assert TextOf(l2) == t0 + "export * from " + ("'" + p + "'");
  }

  /** With a `src`, the text starts with the two re-export lines of the
      stripped path, and the first overlap range covers exactly them. */
  lemma SrcReexport(inp: Inputs)
    requires AwaitFits(inp) && HasSrc(inp)
    ensures var out := Expected(inp);
      var head := (if inp.lsType == TemplateLs then TsNoCheck else "") + "export * from " + ("'" + SrcPath(inp) + "'") + ";\n" +
                  ("export { default } from '" + SrcPath(inp) + "';\n");
      |head| <= |out.text| && out.text[..|head|] == head &&
      OverlapRanges(inp)[0] == Range(0, |head|)
  {
    var l0 := TsNoCheckCalls(inp, Empty);
    var l1 := ScriptSrcCalls(inp, l0);
    ReexportText(inp);
    AfterSrcGrows(inp);
    AllCallsGrow(inp);
    GrowsTrans(inp, l1, BeforeComponent(inp), AllCalls(inp));
    GrowsPrefix(inp, l1, AllCalls(inp));
  }

  // ---------------------------------------------------------------------
  // The `await` rewrite

  lemma SectionCallsThree(inp: Inputs, a: Section, b: Section, c: Section, log: Log)
    ensures TextOf(SectionCalls(inp, [a, b, c], log))
         == TextOf(log) + PieceText(SectionPiece(inp, a)) + PieceText(SectionPiece(inp, b)) + PieceText(SectionPiece(inp, c))
  {
    assert [a, b, c][..2] == [a, b];
    assert [a, b][..1] == [a];
    assert [a][..0] == [];
    var l1 := SectionCalls(inp, [a], log);
    var l2 := SectionCalls(inp, [a, b], log);
    assert SectionCalls(inp, [a][..0], log) == log;
    assert l1 == log.Add(SectionPiece(inp, a));
    assert SectionCalls(inp, [a, b][..1], log) == l1;
    assert l2 == l1.Add(SectionPiece(inp, b));
    assert SectionCalls(inp, [a, b, c][..2], log) == l2;
    assert SectionCalls(inp, [a, b, c], log) == l2.Add(SectionPiece(inp, c));
    assert TextOf(l2) == TextOf(log) + PieceText(SectionPiece(inp, a)) + PieceText(SectionPiece(inp, b));
  }

  /** For the script consumer with a script setup, `export default` is
      replaced by `await` padded with spaces to the same width, so the
      script keeps its length. */
  lemma AwaitRewriteText(inp: Inputs, log: Log)
    requires AwaitFits(inp) && RewritesAwait(inp)
    requires var ed := inp.scriptRanges.value.exportDefault.value;
      0 <= ed.start <= ed.expression.start <= |inp.script.value.content|
    ensures var content := inp.script.value.content;
      var ed := inp.scriptRanges.value.exportDefault.value;
      TextOf(ScriptCalls(inp, log))
      == TextOf(log) + content[..ed.start] + "await" + Spaces(ed.expression.start - ed.start - 5) + content[ed.expression.start..]
    ensures |TextOf(ScriptCalls(inp, log))| == |TextOf(log)| + |inp.script.value.content|
  {
    var content := inp.script.value.content;
    var ed := inp.scriptRanges.value.exportDefault.value;
    var ss := ScriptSections(inp);
    var pad := "await" + Spaces(ed.expression.start - ed.start - 5);
    SectionCallsThree(inp, ss[0], ss[1], ss[2], log);
    SubstringSlice(content, 0, ed.start);
    SubstringSlice(content, ed.expression.start, |content|);
    assert PieceText(SectionPiece(inp, ss[0])) == content[..ed.start];
    assert PieceText(SectionPiece(inp, ss[1])) == pad;
    assert PieceText(SectionPiece(inp, ss[2])) == content[ed.expression.start..];
    SpacesAreSpaces(ed.expression.start - ed.start - 5);
    assert |pad| == ed.expression.start - ed.start;
  }

  /** Otherwise the script is copied whole. */
  lemma ScriptCopiedWhole(inp: Inputs, log: Log)
    requires AwaitFits(inp) && inp.script.Some? && !RewritesAwait(inp)
    ensures TextOf(ScriptCalls(inp, log)) == TextOf(log) + inp.script.value.content
  {
    var content := inp.script.value.content;
    SubstringSlice(content, 0, |content|);
    assert content[0..|content|] == content;
    var s := Span(Range(0, |content|));
    assert [s][..0] == [];
    assert SectionCalls(inp, [s], log) == log.Add(SectionPiece(inp, s));
  }

  // ---------------------------------------------------------------------
  // Mappings

  /** Every `Offset` mapping from the script or the script setup covers
      text that is the source range's substring of that block. */
  predicate CopiesSource(inp: Inputs, text: string, mappings: seq<Mapping>) {
    forall m :: m in mappings && m.mode == Offset && (m.data.vueTag == Script || m.data.vueTag == ScriptSetup) ==>
      0 <= m.mappedRange.start <= m.mappedRange.end <= |text| &&
      text[m.mappedRange.start..m.mappedRange.end]
      == Substring(BlockContent(inp, m.data.vueTag), m.sourceRange.start, m.sourceRange.end)
  }

  lemma {:induction false} GrowsCopiesSource(inp: Inputs, a: Log, b: Log)
    requires Grows(inp, a, b) && CopiesSource(inp, TextOf(a), MappingsOf(a))
    ensures CopiesSource(inp, TextOf(b), MappingsOf(b))
  {
    if b != a {
      GrowsCopiesSource(inp, a, b.before);
      var t := TextOf(b.before);
      var t' := TextOf(b);
      assert t' == t + PieceText(b.piece);
      forall m | m in MappingsOf(b) && m.mode == Offset && (m.data.vueTag == Script || m.data.vueTag == ScriptSetup)
        ensures 0 <= m.mappedRange.start <= m.mappedRange.end <= |t'|
        ensures t'[m.mappedRange.start..m.mappedRange.end]
             == Substring(BlockContent(inp, m.data.vueTag), m.sourceRange.start, m.sourceRange.end)
      {
        if m in MappingsOf(b.before) {
          assert t'[m.mappedRange.start..m.mappedRange.end] == t[m.mappedRange.start..m.mappedRange.end];
        } else {
          assert m in PieceMappings(|t|, b.piece);
          assert t'[|t|..] == b.piece.s;
        }
      }
    }
  }

  /** Where a mapping copies a valid range of its block, mapped and source
      lengths agree. */
  lemma CopiesSourceLengths(inp: Inputs, text: string, mappings: seq<Mapping>)
    requires CopiesSource(inp, text, mappings)
    ensures forall m ::
      (m in mappings && m.mode == Offset && (m.data.vueTag == Script || m.data.vueTag == ScriptSetup) &&
       0 <= m.sourceRange.start <= m.sourceRange.end <= |BlockContent(inp, m.data.vueTag)|) ==>
      m.mappedRange.end - m.mappedRange.start == m.sourceRange.end - m.sourceRange.start
  {
    forall m | m in mappings && m.mode == Offset && (m.data.vueTag == Script || m.data.vueTag == ScriptSetup) &&
      0 <= m.sourceRange.start <= m.sourceRange.end <= |BlockContent(inp, m.data.vueTag)|
      ensures m.mappedRange.end - m.mappedRange.start == m.sourceRange.end - m.sourceRange.start
    {
      CopiedLength(BlockContent(inp, m.data.vueTag), text, m.mappedRange, m.sourceRange);
    }
  }

  lemma CopiedLength(content: string, text: string, mapped: Range, source: Range)
    requires 0 <= mapped.start <= mapped.end <= |text|
    requires text[mapped.start..mapped.end] == Substring(content, source.start, source.end)
    requires 0 <= source.start <= source.end <= |content|
    ensures mapped.end - mapped.start == source.end - source.start
  {
    SubstringSlice(content, source.start, source.end);
  }

  /** The text at every `Offset` mapping from the script or the script
      setup is the block's text at the mapping's source range; when that
      range is valid, source and mapped lengths agree. */
  lemma OffsetMappingsCopySource(inp: Inputs)
    requires AwaitFits(inp)
    ensures CopiesSource(inp, Expected(inp).text, Expected(inp).mappings)
    ensures forall m ::
      (m in Expected(inp).mappings && m.mode == Offset &&
       (m.data.vueTag == Script || m.data.vueTag == ScriptSetup) &&
       0 <= m.sourceRange.start <= m.sourceRange.end <= |BlockContent(inp, m.data.vueTag)|) ==>
      m.mappedRange.end - m.mappedRange.start == m.sourceRange.end - m.sourceRange.start
  {
    var log := AllCalls(inp);
    AllCallsGrow(inp);
    GrowsCopiesSource(inp, Empty, log);
    CopiesSourceLengths(inp, TextOf(log), MappingsOf(log));
  }

  /** The buffer only appends: every mapping of the output that is not an
      `Overlap` one lies inside the text, and they follow one another. */
  lemma MappingsInOrder(inp: Inputs)
    requires AwaitFits(inp)
    ensures var out := Expected(inp);
      (forall m :: m in out.mappings && m.mode != Overlap ==> InBounds(m.mappedRange, |out.text|)) &&
      (forall i, j ::
         (0 <= i < j < |out.mappings| && out.mappings[i].mode != Overlap && out.mappings[j].mode != Overlap) ==>
         out.mappings[i].mappedRange.end <= out.mappings[j].mappedRange.start)
  {
    AllCallsGrow(inp);
    GrowsExtrasOverlap(inp, AllCalls(inp));
    MappingsAppendOnly(AllCalls(inp));
  }

  /** `text` is the text of `log`, and `mappings` are the mappings of `log`
      followed by one overlap mapping per range, in order. */
  predicate EndsWithOverlaps(text: string, mappings: seq<Mapping>, log: Log, ranges: seq<Range>) {
    var n := |MappingsOf(log)|;
    text == TextOf(log) && |mappings| == n + |ranges| && mappings[..n] == MappingsOf(log) &&
    forall i :: 0 <= i < |ranges| ==> mappings[n + i] == OverlapMapping(ranges[i])
  }

  /** The overlap calls add no text, and one mapping per range. */
  lemma {:induction false} OverlapCallsEffect(ranges: seq<Range>, log: Log)
    ensures var all := OverlapCalls(ranges, log);
      EndsWithOverlaps(TextOf(all), MappingsOf(all), log, ranges)
    decreases |ranges|
  {
    if ranges != [] {
      var init := ranges[..|ranges| - 1];
      OverlapCallsEffect(init, log);
      var ms0 := MappingsOf(OverlapCalls(init, log));
      var ms := MappingsOf(OverlapCalls(ranges, log));
      assert ms == ms0 + [OverlapMapping(ranges[|ranges| - 1])];
      var n := |MappingsOf(log)|;
      assert ms[..n] == ms0[..n];
      forall i | 0 <= i < |ranges|
        ensures ms[n + i] == OverlapMapping(ranges[i])
      {
        if i < |init| {
          assert ranges[i] == init[i];
        }
      }
    }
  }

  /** The output ends with one `Overlap` mapping from `[0, 0)` of the
      component, with no capabilities, per recorded overlap range; before
      them come the text and the mappings of everything else written. */
  lemma TrailingOverlaps(inp: Inputs)
    requires AwaitFits(inp)
    ensures EndsWithOverlaps(Expected(inp).text, Expected(inp).mappings, BodyCalls(inp), OverlapRanges(inp))
  {
    OverlapCallsEffect(OverlapRanges(inp), BodyCalls(inp));
  }

  /** One overlap range is recorded for the re-export lines when there is a
      `src`, and one for the `export default` line when the script consumer
      needs its own default export. */
  lemma OverlapRangeCount(inp: Inputs)
    requires AwaitFits(inp)
    ensures |OverlapRanges(inp)| == (if HasSrc(inp) then 1 else 0) + (if ShouldAddExportDefault(inp) then 1 else 0)
  {
  }

  /** The last overlap range of the script consumer with a script setup
      covers the `export default __VLS_defineComponent({` line. */
  lemma ExportDefaultOverlap(inp: Inputs)
    requires AwaitFits(inp) && ShouldAddExportDefault(inp)
    ensures var out := Expected(inp);
      var ranges := OverlapRanges(inp);
      var r := ranges[|ranges| - 1];
      0 <= r.start <= r.end <= |out.text| && out.text[r.start..r.end] == ExportDefaultLine
  {
    var before := BeforeComponent(inp);
    var head := ComponentHeadCalls(inp, before);
    HeadGrowsToAll(inp);
    GrowsPrefix(inp, head, AllCalls(inp));
    assert TextOf(head) == TextOf(before) + ExportDefaultLine;
    assert TextOf(head)[|TextOf(before)|..] == ExportDefaultLine;
  }

  /** For the script consumer with a script setup, the last mapping before
      the overlaps is the zero-length anchor at the end of the script setup,
      mapped to the end of the text, without capabilities. */
  lemma CodeActionAnchor(inp: Inputs)
    requires AwaitFits(inp) && inp.lsType == ScriptLs && inp.scriptSetup.Some?
    ensures var out := Expected(inp);
      var k := |out.mappings| - |OverlapRanges(inp)| - 1;
      var n := |inp.scriptSetup.value.content|;
      0 <= k && out.mappings[k] == Mapping(Range(n, n), Range(|out.text|, |out.text|), Offset, MappingData(ScriptSetup, NoCapabilities))
  {
    TrailingOverlaps(inp);
    var out := Expected(inp);
    var body := BodyCalls(inp);
    var k := |out.mappings| - |OverlapRanges(inp)| - 1;
    assert MappingsOf(body)[|MappingsOf(body)| - 1] == out.mappings[..k + 1][k];
  }

  /** The script consumer with neither block gets only the placeholder
      default export, mapped by one `Expand` mapping from `[0, 0)`. */
  lemma PlaceholderOnly(inp: Inputs)
    requires inp.lsType == ScriptLs && inp.script.None? && inp.scriptSetup.None?
    ensures AwaitFits(inp)
    ensures Expected(inp)
         == Output(EmptyExportDefault,
                   [Mapping(Range(0, 0), Range(0, |EmptyExportDefault|), Expand, MappingData(Sfc, NoCapabilities))],
                   [])
  {
    assert OverlapRanges(inp) == [];
    assert BeforeComponent(inp) == Empty.Add(Code(EmptyExportDefault, Range(0, 0), Expand, MappingData(Sfc, NoCapabilities)));
  }

  /** The template consumer's text starts with `// @ts-nocheck`. */
  lemma TemplateNoCheck(inp: Inputs)
    requires AwaitFits(inp) && inp.lsType == TemplateLs
    ensures |TsNoCheck| <= |Expected(inp).text| && Expected(inp).text[..|TsNoCheck|] == TsNoCheck
  {
    var l0 := TsNoCheckCalls(inp, Empty);
    var l1 := ScriptSrcCalls(inp, l0);
    ScriptSrcGrows(inp, l0);
    AfterSrcGrows(inp);
    AllCallsGrow(inp);
    GrowsTrans(inp, l1, BeforeComponent(inp), AllCalls(inp));
    GrowsTrans(inp, l0, l1, AllCalls(inp));
    GrowsPrefix(inp, l0, AllCalls(inp));
  }

  // ---------------------------------------------------------------------
  // The exposed bindings and their teleports

  /** The features a teleport carries in both directions for a renamed
      binding. */
  predicate LinksRename(c: Capabilities) {
    c.references == Some(true) && c.definitions == Some(true) && c.rename == Some(true)
  }

  /** `tp` links the key and the value of a `name: name` pair of `text`:
      its mapped range is the key, its source range the value. */
  predicate PairAt(text: string, tp: Teleport, name: string) {
    0 <= tp.mappedRange.start <= tp.mappedRange.end &&
    tp.mappedRange.end + 2 == tp.sourceRange.start <= tp.sourceRange.end <= |text| &&
    text[tp.mappedRange.start..tp.mappedRange.end] == name &&
    text[tp.mappedRange.end..tp.sourceRange.start] == ": " &&
    text[tp.sourceRange.start..tp.sourceRange.end] == name &&
    tp.mode == Offset && LinksRename(tp.toSource) && LinksRename(tp.toTarget)
  }

  lemma PairAtExtended(text: string, more: string, tp: Teleport, name: string)
    requires PairAt(text, tp, name)
    ensures PairAt(text + more, tp, name)
  {
    var t := text + more;
    assert t[tp.mappedRange.start..tp.mappedRange.end] == text[tp.mappedRange.start..tp.mappedRange.end];
    assert t[tp.mappedRange.end..tp.sourceRange.start] == text[tp.mappedRange.end..tp.sourceRange.start];
    assert t[tp.sourceRange.start..tp.sourceRange.end] == text[tp.sourceRange.start..tp.sourceRange.end];
  }

  /** The pair written after `t0` holds the name, `: ` and the name again,
      as its teleport says. */
  lemma PairAtNew(t0: string, name: string)
    ensures PairAt(t0 + (name + ": " + name + ",\n"), ExposeTeleport(|t0|, name), name)
  {
    var text := t0 + (name + ": " + name + ",\n");
    var at := |t0|;
    assert text[at..at + |name|] == name;
    assert text[at + |name|..at + |name| + 2] == ": ";
    assert text[at + |name| + 2..at + 2 * |name| + 2] == name;
  }

  lemma ExposeLastText(names: seq<string>, log: Log)
    requires names != []
    ensures var name := names[|names| - 1];
      TextOf(ExposeCalls(names, log)) == TextOf(ExposeCalls(names[..|names| - 1], log)) + (name + ": " + name + ",\n")
  {
    var name := names[|names| - 1];
    var l0 := ExposeCalls(names[..|names| - 1], log);
    var l1 := l0.Add(Plain(name));
    var l2 := l1.Add(Plain(": "));
    var l3 := l2.Add(Plain(name));
    assert ExposeCalls(names, log) == l3.Add(Plain(",\n"));
    var t0 := TextOf(l0);
    assert TextOf(l1) == t0 + name;
    assert TextOf(l2) == t0 + name + ": ";
    assert TextOf(l3) == t0 + name + ": " + name;
    SeqAssoc(t0, name, ": ");
    SeqAssoc(t0, name + ": ", name);
    SeqAssoc(t0, name + ": " + name, ",\n");
  }

  /** Every teleport of `tps` links a `name: name` pair of `text`. */
  predicate PairsAt(text: string, tps: seq<Teleport>, names: seq<string>) {
    |tps| == |names| && forall i :: 0 <= i < |names| ==> PairAt(text, tps[i], names[i])
  }

  lemma PairsExtended(text: string, more: string, tps: seq<Teleport>, names: seq<string>)
    requires PairsAt(text, tps, names)
    ensures PairsAt(text + more, tps, names)
  {
    forall i | 0 <= i < |names|
      ensures PairAt(text + more, tps[i], names[i])
    {
      PairAtExtended(text, more, tps[i], names[i]);
    }
  }

  lemma PairsSnoc(text: string, tps: seq<Teleport>, names: seq<string>, tp: Teleport)
    requires names != []
    requires PairsAt(text, tps, names[..|names| - 1]) && PairAt(text, tp, names[|names| - 1])
    ensures PairsAt(text, tps + [tp], names)
  {
    var tps' := tps + [tp];
    forall i | 0 <= i < |names|
      ensures PairAt(text, tps'[i], names[i])
    {
      if i < |names| - 1 {
        assert tps'[i] == tps[i] && names[..|names| - 1][i] == names[i];
      }
    }
  }


  /** Each exposed name writes `name: name,\n` and one teleport from the
      value to the key. */
  lemma {:induction false} ExposePairs(names: seq<string>, log: Log)
    ensures var text := TextOf(ExposeCalls(names, log));
      |TextOf(log)| <= |text| && text[..|TextOf(log)|] == TextOf(log) &&
      PairsAt(text, ExposeTeleports(names, log), names)
    decreases |names|
  {
    if names != [] {
      var init, name := names[..|names| - 1], names[|names| - 1];
      ExposePairs(init, log);
      var t0 := TextOf(ExposeCalls(init, log));
      var more := name + ": " + name + ",\n";
      ExposeLastText(names, log);
      var tps0 := ExposeTeleports(init, log);
      var tp := ExposeTeleport(|t0|, name);
      assert ExposeTeleports(names, log) == tps0 + [tp];
      PairsExtended(t0, more, tps0, init);
      PairAtNew(t0, name);
      PairsSnoc(t0 + more, tps0, names, tp);
      assert (t0 + more)[..|TextOf(log)|] == t0[..|TextOf(log)|];
    }
  }

  /** The template consumer exposes the script-setup bindings, then the
      script ones. */
  lemma ExposedNamesOrder(inp: Inputs)
    requires HasSetupOptions(inp)
    ensures ExposedNames(BindingGroups(inp))
         == BindingTexts(inp.scriptSetup.value.content, inp.scriptSetupRanges.value.bindings) +
            (if inp.script.Some? && inp.scriptRanges.Some?
             then BindingTexts(inp.script.value.content, inp.scriptRanges.value.bindings) else [])
  {
    var groups := BindingGroups(inp);
    var setup := GroupNames(groups[0]);
    assert ExposedNames(groups[..1]) == setup by {
      assert groups[..1][..0] == [];
    }
    if |groups| == 2 {
      assert groups[..1] == groups[..|groups| - 1];
    } else {
      assert groups == groups[..1];
      assert setup + [] == setup;
    }
  }

  /** For the template consumer with a script setup, every exposed binding
      (script-setup bindings first, then script ones) is written as a
      `name: name` pair of the output text, and contributes exactly one
      teleport, from the value to the key, carrying references,
      definitions and rename both ways. No other teleport is produced. */
  lemma ExposedTeleports(inp: Inputs)
    requires AwaitFits(inp)
    ensures var out := Expected(inp);
      if inp.lsType == TemplateLs && HasSetupOptions(inp) then
        PairsAt(out.text, out.teleports,
                BindingTexts(inp.scriptSetup.value.content, inp.scriptSetupRanges.value.bindings) +
                (if inp.script.Some? && inp.scriptRanges.Some?
                 then BindingTexts(inp.script.value.content, inp.scriptRanges.value.bindings) else []))
      else out.teleports == []
  {
    if inp.lsType == TemplateLs && HasSetupOptions(inp) {
      ExposedNamesOrder(inp);
      ExposedPairsWritten(inp);
    }
  }

  /** The pairs written for the exposed names stay in the whole text. */
  lemma ExposedPairsWritten(inp: Inputs)
    requires AwaitFits(inp) && inp.lsType == TemplateLs && HasSetupOptions(inp)
    ensures var names := ExposedNames(BindingGroups(inp));
      PairsAt(TextOf(AllCalls(inp)), ExposeTeleports(names, ExposeStart(inp)), names)
  {
    var names := ExposedNames(BindingGroups(inp));
    var pairs := ExposeCalls(names, ExposeStart(inp));
    ExposePairs(names, ExposeStart(inp));
    ExposedGrowsToAll(inp);
    GrowsPrefix(inp, pairs, AllCalls(inp));
    PairsInPrefix(TextOf(pairs), TextOf(AllCalls(inp)), ExposeTeleports(names, ExposeStart(inp)), names);
  }

  lemma PairsInPrefix(t: string, u: string, tps: seq<Teleport>, names: seq<string>)
    requires PairsAt(t, tps, names) && IsPrefix(t, u)
    ensures PairsAt(u, tps, names)
  {
    assert u == t + u[|t|..];
    PairsExtended(t, u[|t|..], tps, names);
  }

  // ---------------------------------------------------------------------
  // The component name

  lemma EndsWithBoth(p: string, b: string, x: string)
    requires EndsWith(p, b)
    ensures EndsWith(p + x, b + x)
  {
    assert (p + x)[|p + x| - |b + x|..] == p[|p| - |b|..] + x;
  }

  /** The base name of a `.vue` file: no `/` in it, and the uri ends with
      it followed by `.vue`. */
  lemma VueBaseNameSpec(uri: string)
    requires Extname(uri) == ".vue"
    ensures EndsWith(uri, VueBaseName(uri) + ".vue")
    ensures forall i :: 0 <= i < |VueBaseName(uri)| ==> VueBaseName(uri)[i] != '/'
  {
    TrimExtSpec(uri);
    var p := TrimExt(uri);
    BasenameSpec(p);
    var b := Basename(p);
    assert uri == p + ".vue";
    EndsWithBoth(p, b, ".vue");
  }

  /** Plain calls append their texts in order and record no mapping. */
  lemma PlainCalls2(log: Log, a: string, b: string)
    ensures TextOf(log.Add(Plain(a)).Add(Plain(b))) == TextOf(log) + a + b
    ensures MappingsOf(log.Add(Plain(a)).Add(Plain(b))) == MappingsOf(log)
  {
  }

  lemma PlainCalls4(log: Log, a: string, b: string, c: string, d: string)
    ensures TextOf(log.Add(Plain(a)).Add(Plain(b)).Add(Plain(c)).Add(Plain(d))) == TextOf(log) + a + (b + c + d)
    ensures MappingsOf(log.Add(Plain(a)).Add(Plain(b)).Add(Plain(c)).Add(Plain(d))) == MappingsOf(log)
  {
    var l2 := log.Add(Plain(a)).Add(Plain(b));
    PlainCalls2(log, a, b);
    PlainCalls2(l2, c, d);
    var t := TextOf(log) + a;
    assert t + b + c + d == t + (b + c + d);
  }

  /** The declaration of `__VLS_name`: the unmapped text of the `export
      default` argument when there is one, else the `.vue` file's base name
      for a script setup, else `undefined`. */
  function NameDeclaration(inp: Inputs): string {
    if HasArgs(inp) then
      "export const __VLS_name = __VLS_getNameOption("
      + (Substring(inp.script.value.content, Args(inp).start, Args(inp).end) + " as const") + ");\n"
    else if inp.scriptSetup.Some? && Extname(inp.uri) == ".vue" then
      "export declare const __VLS_name: '" + VueBaseName(inp.uri) + "';\n"
    else "export const __VLS_name = undefined;\n"
  }

  /** `writeConstNameOption` adds a line break and the declaration, and no
      mapping. */
  lemma ConstNameRule(inp: Inputs, log: Log)
    ensures MappingsOf(ConstNameCalls(inp, log)) == MappingsOf(log)
    ensures TextOf(ConstNameCalls(inp, log)) == TextOf(log) + "\n" + NameDeclaration(inp)
  {
    if HasArgs(inp) {
      var a := Substring(inp.script.value.content, Args(inp).start, Args(inp).end);
      assert BlockContent(inp, Script) == inp.script.value.content;
      PlainCalls4(log, "\n", "export const __VLS_name = __VLS_getNameOption(", a + " as const", ");\n");
    } else if inp.scriptSetup.Some? && Extname(inp.uri) == ".vue" {
      PlainCalls2(log, "\n", "export declare const __VLS_name: '" + VueBaseName(inp.uri) + "';\n");
    } else {
      PlainCalls2(log, "\n", "export const __VLS_name = undefined;\n");
    }
  }


  /** The template consumer's text ends with the declaration of
      `__VLS_name`, after a line break. */
  lemma NameDeclaredLast(inp: Inputs)
    requires AwaitFits(inp) && inp.lsType == TemplateLs
    ensures EndsWith(Expected(inp).text, "\n" + NameDeclaration(inp))
  {
    var options := ExportOptionsCalls(inp, ComponentCalls(inp, BeforeComponent(inp)));
    ConstNameRule(inp, options);
    TrailingOverlaps(inp);
    EndsWithSum(TextOf(options), "\n", NameDeclaration(inp));
  }

  lemma EndsWithSum(t: string, a: string, b: string)
    ensures EndsWith(t + a + b, a + b)
  {
    assert (t + a + b)[|t|..] == a + b;
  }
}
