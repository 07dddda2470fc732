/** Value types shared by the code generator and the source maps built from
    it: half-open offset ranges, mapping modes, the tag naming the block a
    source range belongs to, capability sets, mappings and teleports. */
module SourceMaps {
  import opened Wrappers

  /** A half-open range `[start, end)` of offsets in one text. The bounds are
      integers: the re-export of a `src` attribute is recorded with the
      deliberate source range `{-1, -1}`. */
  datatype Range = Range(start: int, end: int)

  /** How a mapped range relates to its source range. */
  datatype Mode = Offset | Expand | Overlap

  /** The block of the single-file component a source range belongs to. */
  datatype VueTag = Sfc | Script | ScriptSetup | ScriptSrc

  /** The language features a mapping takes part in; an unset flag is `None`. */
  datatype Capabilities = Capabilities(
    basic: Option<bool>,
    references: Option<bool>,
    definitions: Option<bool>,
    rename: Option<bool>,
    diagnostic: Option<bool>,
    formatting: Option<bool>,
    completion: Option<bool>,
    semanticTokens: Option<bool>,
    foldingRanges: Option<bool>)

  /** `{}`: the text is there but takes part in no language feature. */
  const NoCapabilities := Capabilities(None, None, None, None, None, None, None, None, None)

  /** `{ references: true, definitions: true, rename: true }`. */
  const ReferencesDefinitionsRename :=
    Capabilities(None, Some(true), Some(true), Some(true), None, None, None, None, None)

  /** `{ references: true, rename: true }`. */
  const ReferencesRename :=
    Capabilities(None, Some(true), None, Some(true), None, None, None, None, None)

  /** The payload of a mapping: the originating block and its capabilities. */
  datatype MappingData = MappingData(vueTag: VueTag, capabilities: Capabilities)

  datatype Mapping = Mapping(sourceRange: Range, mappedRange: Range, mode: Mode, data: MappingData)

  /** A link between two ranges of the same generated text; `toSource`
      applies from `mappedRange` to `sourceRange`, `toTarget` the other way. */
  datatype Teleport = Teleport(
    sourceRange: Range,
    mappedRange: Range,
    mode: Mode,
    toSource: Capabilities,
    toTarget: Capabilities)

  /** Whether `r` lies within a text of length `n`. */
  predicate InBounds(r: Range, n: int) {
    0 <= r.start <= r.end <= n
  }

  /** The mapping that ties `r` of a generated text to the whole component
      rather than to a span of it: source range `[0, 0)`, mode `Overlap`,
      block `sfc`, no capabilities. */
  function OverlapMapping(r: Range): Mapping {
    Mapping(Range(0, 0), r, Overlap, MappingData(Sfc, NoCapabilities))
  }
}
