/** The code-generation buffer the script generator appends to: a text and
    the ordered list of mappings recorded for it. The buffer is modelled by
    the log of calls made on it, from which the text and the mappings are
    both determined. */
module CodeGen {
  import opened SourceMaps

  /** One call on the buffer: `addText(s)`, `addCode(s, sourceRange, mode, data)`
      or `addMapping2(mapping)`. */
  datatype Piece =
    | Plain(s: string)
    | Code(s: string, sourceRange: Range, mode: Mode, data: MappingData)
    | Extra(mapping: Mapping)

  /** The calls made on a buffer, the most recent last. */
  datatype Log = Empty | Call(before: Log, piece: Piece)
  {
    /** The log after one more call. */
    function Add(p: Piece): Log {
      Call(this, p)
    }
  }

  /** The text a call appends; `addMapping2` appends none. */
  function PieceText(p: Piece): string {
    if p.Extra? then [] else p.s
  }

  /** The text produced by a log of calls. */
  function TextOf(log: Log): string {
    match log
    case Empty => []
    case Call(before, p) => TextOf(before) + PieceText(p)
  }

  /** The mappings a call records when the buffer already holds `at` characters. */
  function PieceMappings(at: int, p: Piece): seq<Mapping> {
    match p
    case Plain(_) => []
    case Code(s, src, mode, data) => [Mapping(src, Range(at, at + |s|), mode, data)]
    case Extra(m) => [m]
  }

  /** The mappings recorded by a log of calls made on an empty buffer. */
  function MappingsOf(log: Log): seq<Mapping> {
    match log
    case Empty => []
    case Call(before, p) => MappingsOf(before) + PieceMappings(|TextOf(before)|, p)
  }

  /** Every mapping recorded without text is an `Overlap` one. */
  predicate ExtrasOverlap(log: Log) {
    match log
    case Empty => true
    case Call(before, p) => ExtrasOverlap(before) && (p.Extra? ==> p.mapping.mode == Overlap)
  }

  /** The buffer only appends: every mapping that is not an `Overlap` one
      lies inside the text the calls produced, and such mappings come in the
      order of their mapped ranges without overlapping one another. */
  lemma {:induction false} MappingsAppendOnly(log: Log)
    requires ExtrasOverlap(log)
    ensures forall m :: m in MappingsOf(log) && m.mode != Overlap ==>
              0 <= m.mappedRange.start <= m.mappedRange.end <= |TextOf(log)|
    ensures forall i, j ::
              (0 <= i < j < |MappingsOf(log)| &&
               MappingsOf(log)[i].mode != Overlap && MappingsOf(log)[j].mode != Overlap) ==>
              MappingsOf(log)[i].mappedRange.end <= MappingsOf(log)[j].mappedRange.start
  {
    match log
    case Empty =>
    case Call(before, p) =>
      MappingsAppendOnly(before);
      var at := |TextOf(before)|;
      var tail := PieceMappings(at, p);
      assert forall m :: m in tail && m.mode != Overlap ==>
        at <= m.mappedRange.start <= m.mappedRange.end == |TextOf(log)|;
  }

  /** The buffer of `@volar/code-gen`, modelled by what its user sees: the
      text and the mappings, which only grow. The ghost log of the calls
      made on it determines both. */
  class CodeGen {
    var text: string
    var mappings: seq<Mapping>
    ghost var log: Log

    ghost predicate Valid()
      reads this
    {
      text == TextOf(log) && mappings == MappingsOf(log)
    }

    constructor ()
      ensures Valid() && log == Empty
    {
      text, mappings := [], [];
      log := Empty;
    }

    /** `getText()`. */
    method GetText() returns (t: string)
      requires Valid()
      ensures t == text && t == TextOf(log)
    {
      t := text;
    }

    /** The `mappings` the buffer exposes. */
    method GetMappings() returns (ms: seq<Mapping>)
      requires Valid()
      ensures ms == mappings && ms == MappingsOf(log)
    {
      ms := mappings;
    }

    /** `addText(s)` where the caller ignores the range it returns. */
    method AddText(s: string)
      requires Valid()
      modifies this
      ensures Valid() && log == old(log).Add(Plain(s))
      ensures text == old(text) + s && mappings == old(mappings)
    {
      text := text + s;
      log := log.Add(Plain(s));
    }

    /** `addText(s)`: appends `s` and returns the range it now occupies. */
    method AddTextRange(s: string) returns (r: Range)
      requires Valid()
      modifies this
      ensures Valid() && log == old(log).Add(Plain(s))
      ensures text == old(text) + s && mappings == old(mappings)
      ensures r == Range(|old(text)|, |text|)
    {
      var start := |text|;
      text := text + s;
      log := log.Add(Plain(s));
      r := Range(start, |text|);
    }

    /** `addCode(s, sourceRange, mode, data)`: appends `s` and records one
        mapping whose mapped range is the span just appended. */
    method AddCode(s: string, sourceRange: Range, mode: Mode, data: MappingData)
      requires Valid()
      modifies this
      ensures Valid() && log == old(log).Add(Code(s, sourceRange, mode, data))
      ensures text == old(text) + s
      ensures mappings == old(mappings) + [Mapping(sourceRange, Range(|old(text)|, |text|), mode, data)]
    {
      mappings := mappings + [Mapping(sourceRange, Range(|text|, |text| + |s|), mode, data)];
      text := text + s;
      log := log.Add(Code(s, sourceRange, mode, data));
    }

    /** `addMapping2(mapping)`: records a mapping without adding text. */
    method AddMapping2(mapping: Mapping)
      requires Valid()
      modifies this
      ensures Valid() && log == old(log).Add(Extra(mapping))
      ensures text == old(text) && mappings == old(mappings) + [mapping]
    {
      mappings := mappings + [mapping];
      log := log.Add(Extra(mapping));
    }
  }
}
