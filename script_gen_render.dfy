/** What the script consumer's render function holds: for a component with
    a script setup, `setup()` returns a function whose body is the
    `v-bind()` expressions of the styles, then a bare statement for each
    binding the template uses as a tag, then the template's generated code.
    The texts are defined here directly, one line after another, and the
    generator's calls are shown to write exactly them and to map none of
    them. */
module ScriptGenRender {
  import opened SourceMaps
  import opened CodeGen
  import opened JsStrings
  import opened ScriptGen
  import opened ScriptGenLogs
  import opened ScriptGenProperties

  // ---------------------------------------------------------------------
  // The texts

  /** The two lines written for one `v-bind()`: the ignore comment, then
      the bound expression as a statement. */
  function BindLine(text: string, b: Range): string {
    "// @ts-ignore\n" + (Substring(text, b.start, b.end) + ";\n")
  }

  /** The lines of every `v-bind()` of one style, in order. */
  function BindLines(text: string, binds: seq<Range>): string {
    if binds == [] then [] else BindLine(text, binds[0]) + BindLines(text, binds[1..])
  }

  /** The lines of every style, in order. */
  function CssText(styles: seq<StyleDoc>): string {
    if styles == [] then [] else BindLines(styles[0].text, styles[0].binds) + CssText(styles[1..])
  }

  /** The two lines that keep a binding used as a tag from being reported
      unused. */
  function EchoLine(name: string): string {
    "// @ts-ignore\n" + (name + ";\n")
  }

  /** The names, in order, that the template uses as tags. */
  function Echoed(tags: set<string>, names: seq<string>): seq<string> {
    if names == [] then []
    else (if UsedAsTag(tags, names[0]) then [names[0]] else []) + Echoed(tags, names[1..])
  }

  function EchoText(names: seq<string>): string {
    if names == [] then [] else EchoLine(names[0]) + EchoText(names[1..])
  }

  /** The body of the render function: the style bindings, then, with a
      template, the echoes and the template's code. */
  function RenderBodyText(inp: Inputs): string {
    CssText(inp.styles) +
    if inp.htmlGen.Some? then EchoText(Echoed(inp.htmlGen.value.tags, TemplateBindingNames(inp))) + inp.htmlGen.value.text
    else []
  }

  /** A name is echoed exactly when it is a binding name used as a tag. */
  lemma {:induction false} EchoedExactly(tags: set<string>, names: seq<string>)
    ensures forall n :: n in Echoed(tags, names) <==> n in names && UsedAsTag(tags, n)
    decreases |names|
  {
    if names != [] {
      EchoedExactly(tags, names[1..]);
      assert names == [names[0]] + names[1..];
    }
  }

  // ---------------------------------------------------------------------
  // Growing the texts at their end

  lemma {:induction false} BindLinesLast(text: string, binds: seq<Range>)
    requires binds != []
    ensures BindLines(text, binds) == BindLines(text, binds[..|binds| - 1]) + BindLine(text, binds[|binds| - 1])
    decreases |binds|
  {
    if |binds| == 1 {
      assert binds[1..] == [] && binds[..0] == [];
    } else {
      var tail := binds[1..];
      BindLinesLast(text, tail);
      var init := binds[..|binds| - 1];
      assert init[0] == binds[0] && init[1..] == tail[..|tail| - 1];
      SeqAssoc(BindLine(text, binds[0]), BindLines(text, tail[..|tail| - 1]), BindLine(text, binds[|binds| - 1]));
    }
  }

  lemma {:induction false} CssTextLast(styles: seq<StyleDoc>)
    requires styles != []
    ensures var last := styles[|styles| - 1];
      CssText(styles) == CssText(styles[..|styles| - 1]) + BindLines(last.text, last.binds)
    decreases |styles|
  {
    if |styles| == 1 {
      assert styles[1..] == [] && styles[..0] == [];
    } else {
      var tail := styles[1..];
      CssTextLast(tail);
      var init := styles[..|styles| - 1];
      var last := styles[|styles| - 1];
      assert init[0] == styles[0] && init[1..] == tail[..|tail| - 1];
      SeqAssoc(BindLines(styles[0].text, styles[0].binds), CssText(tail[..|tail| - 1]), BindLines(last.text, last.binds));
    }
  }

  lemma {:induction false} EchoedLast(tags: set<string>, names: seq<string>)
    requires names != []
    ensures var name := names[|names| - 1];
      Echoed(tags, names) == Echoed(tags, names[..|names| - 1]) + (if UsedAsTag(tags, name) then [name] else [])
    decreases |names|
  {
    if |names| == 1 {
      assert names[1..] == [] && names[..0] == [];
    } else {
      var tail := names[1..];
      EchoedLast(tags, tail);
      var init := names[..|names| - 1];
      assert init[0] == names[0] && init[1..] == tail[..|tail| - 1];
    }
  }

  lemma {:induction false} EchoTextSnoc(names: seq<string>, name: string)
    ensures EchoText(names + [name]) == EchoText(names) + EchoLine(name)
    decreases |names|
  {
    if names == [] {
      assert ([] + [name])[1..] == [];
    } else {
      EchoTextSnoc(names[1..], name);
      assert (names + [name])[1..] == names[1..] + [name];
      SeqAssoc(EchoLine(names[0]), EchoText(names[1..]), EchoLine(name));
    }
  }

  // ---------------------------------------------------------------------
  // The calls write the texts and map nothing

  lemma {:induction false} StyleBindCallsText(text: string, binds: seq<Range>, log: Log)
    ensures TextOf(StyleBindCalls(text, binds, log)) == TextOf(log) + BindLines(text, binds)
    ensures MappingsOf(StyleBindCalls(text, binds, log)) == MappingsOf(log)
    decreases |binds|
  {
    if binds == [] {
      assert TextOf(log) + [] == TextOf(log);
    } else {
      var init, b := binds[..|binds| - 1], binds[|binds| - 1];
      var l0 := StyleBindCalls(text, init, log);
      StyleBindCallsText(text, init, log);
      BindLinesLast(text, binds);
      var s := Substring(text, b.start, b.end) + ";\n";
      PlainCalls2(l0, "// @ts-ignore\n", s);
      SeqAssoc(TextOf(log) + BindLines(text, init), "// @ts-ignore\n", s);
      SeqAssoc(TextOf(log), BindLines(text, init), BindLine(text, b));
    }
  }

  lemma {:induction false} CssBindCallsText(styles: seq<StyleDoc>, log: Log)
    ensures TextOf(CssBindCalls(styles, log)) == TextOf(log) + CssText(styles)
    ensures MappingsOf(CssBindCalls(styles, log)) == MappingsOf(log)
    decreases |styles|
  {
    if styles == [] {
      assert TextOf(log) + [] == TextOf(log);
    } else {
      var init, last := styles[..|styles| - 1], styles[|styles| - 1];
      CssBindCallsText(init, log);
      StyleBindCallsText(last.text, last.binds, CssBindCalls(init, log));
      CssTextLast(styles);
      SeqAssoc(TextOf(log), CssText(init), BindLines(last.text, last.binds));
    }
  }

  lemma {:induction false} EchoCallsText(tags: set<string>, names: seq<string>, log: Log)
    ensures TextOf(EchoCalls(tags, names, log)) == TextOf(log) + EchoText(Echoed(tags, names))
    ensures MappingsOf(EchoCalls(tags, names, log)) == MappingsOf(log)
    decreases |names|
  {
    if names == [] {
      assert TextOf(log) + [] == TextOf(log);
    } else {
      var init, name := names[..|names| - 1], names[|names| - 1];
      var l0 := EchoCalls(tags, init, log);
      var e0 := Echoed(tags, init);
      EchoCallsText(tags, init, log);
      EchoedLast(tags, names);
      if UsedAsTag(tags, name) {
        PlainCalls2(l0, "// @ts-ignore\n", name + ";\n");
        EchoTextSnoc(e0, name);
        SeqAssoc(TextOf(log) + EchoText(e0), "// @ts-ignore\n", name + ";\n");
        SeqAssoc(TextOf(log), EchoText(e0), EchoLine(name));
      } else {
        assert e0 + [] == e0;
      }
    }
  }

  lemma RenderBodyCalls(inp: Inputs, log: Log)
    ensures TextOf(TemplateCalls(inp, CssBindCalls(inp.styles, log))) == TextOf(log) + RenderBodyText(inp)
    ensures MappingsOf(TemplateCalls(inp, CssBindCalls(inp.styles, log))) == MappingsOf(log)
  {
    var css := CssBindCalls(inp.styles, log);
    CssBindCallsText(inp.styles, log);
    if inp.htmlGen.Some? {
      var tags, names := inp.htmlGen.value.tags, TemplateBindingNames(inp);
      var echo := EchoText(Echoed(tags, names));
      EchoCallsText(tags, names, css);
      var t := TextOf(log);
      var c := CssText(inp.styles);
      assert TextOf(TemplateCalls(inp, css)) == t + c + echo + inp.htmlGen.value.text;
      SeqAssoc(t + c, echo, inp.htmlGen.value.text);
      SeqAssoc(t, c, echo + inp.htmlGen.value.text);
    } else {
      assert TextOf(log) + CssText(inp.styles) + [] == TextOf(log) + CssText(inp.styles);
    }
  }

  // ---------------------------------------------------------------------
  // In the output

  /** `w` is at offset `k` of `text`, right after `p`, and no mapping other
      than an `Overlap` one reaches into it. */
  predicate UnmappedAfter(text: string, mappings: seq<Mapping>, p: string, k: int, w: string) {
    |p| <= k && k + |w| <= |text| && text[k - |p|..k] == p && text[k..k + |w|] == w &&
    forall m :: m in mappings && m.mode != Overlap ==> m.mappedRange.end <= k || k + |w| <= m.mappedRange.start
  }

  /** A text that starts with `t0 + p + w` holds `p` and then `w` after `t0`. */
  lemma PrefixParts(t: string, t0: string, p: string, w: string)
    requires IsPrefix(t0 + p + w, t)
    ensures t[|t0|..|t0| + |p|] == p && t[|t0| + |p|..|t0| + |p| + |w|] == w
  {
    var u := t0 + p + w;
    assert t[|t0|..|t0| + |p|] == u[|t0|..|t0| + |p|];
    assert t[|t0| + |p|..|t0| + |p| + |w|] == u[|t0| + |p|..];
  }

  /** Mappings that keep an old prefix ending by `k` and add only mappings
      starting at `kb` or later leave `[k, kb)` unmapped. */
  lemma MapsClear(ms0: seq<Mapping>, ms: seq<Mapping>, k: int, kb: int)
    requires IsPrefix(ms0, ms)
    requires forall m :: m in ms0 && m.mode != Overlap ==> m.mappedRange.end <= k
    requires forall j :: |ms0| <= j < |ms| && ms[j].mode != Overlap ==> kb <= ms[j].mappedRange.start
    ensures forall m :: m in ms && m.mode != Overlap ==> m.mappedRange.end <= k || kb <= m.mappedRange.start
  {
    forall m | m in ms && m.mode != Overlap
      ensures m.mappedRange.end <= k || kb <= m.mappedRange.start
    {
      var j :| 0 <= j < |ms| && ms[j] == m;
      if j < |ms0| {
        assert ms[..|ms0|][j] == m;
      }
    }
  }

  lemma UnmappedParts(t: string, ms0: seq<Mapping>, ms: seq<Mapping>, t0: string, p: string, w: string)
    requires IsPrefix(t0 + p + w, t) && IsPrefix(ms0, ms)
    requires forall m :: m in ms0 && m.mode != Overlap ==> m.mappedRange.end <= |t0 + p|
    requires forall j :: |ms0| <= j < |ms| && ms[j].mode != Overlap ==> |t0 + p + w| <= ms[j].mappedRange.start
    ensures UnmappedAfter(t, ms, p, |t0 + p|, w)
  {
    PrefixParts(t, t0, p, w);
    MapsClear(ms0, ms, |t0 + p|, |t0 + p + w|);
  }

  lemma UnmappedAfterGrowth(inp: Inputs, a: Log, b: Log, c: Log, t0: string, p: string, w: string)
    requires ExtrasOverlap(a) && Grows(inp, b, c)
    requires TextOf(a) == t0 + p
    requires TextOf(b) == TextOf(a) + w && MappingsOf(b) == MappingsOf(a)
    ensures UnmappedAfter(TextOf(c), MappingsOf(c), p, |TextOf(a)|, w)
  {
    GrowsPrefix(inp, b, c);
    GrowsMapsAfter(inp, b, c);
    MappingsAppendOnly(a);
    UnmappedParts(TextOf(c), MappingsOf(a), MappingsOf(c), t0, p, w);
  }

  /** For the script consumer with a script setup, right after
      `return () => {\n` the output holds the `// @ts-ignore` line and the
      bound expression of every `v-bind()` of every style, in order; then,
      with a template, the `// @ts-ignore` line and `name;` for exactly the
      binding names the template uses as tags (script-setup names first),
      and the template's code. No mapping other than an `Overlap` one
      reaches into that text. */
  lemma RenderBody(inp: Inputs)
    requires AwaitFits(inp) && inp.lsType == ScriptLs && HasSetupOptions(inp)
    ensures UnmappedAfter(Expected(inp).text, Expected(inp).mappings, "return () => {\n",
                          |TextOf(RenderStart(inp))|, RenderBodyText(inp))
  {
    var start := RenderStart(inp);
    var rendered := TemplateCalls(inp, CssBindCalls(inp.styles, start));
    var open := SetupOpenCalls(inp, ComponentArgsCalls(inp, ComponentHeadCalls(inp, BeforeComponent(inp))));
    RenderBodyCalls(inp, start);
    RenderedGrowsToAll(inp);
    RenderStartExtras(inp);
    UnmappedAfterGrowth(inp, start, rendered, AllCalls(inp), TextOf(open), "return () => {\n", RenderBodyText(inp));
  }
}
