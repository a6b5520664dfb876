/**
 * The event decoder: each call of the iterator releases the event it
 * holds, pulls the next event from the parsing engine and turns it into an
 * event table, or raises an error.
 *
 * The engine is kept abstract: it is the sequence of results that
 * `fy_parser_parse` will return, `None` standing for NULL (a parse failure;
 * an exhausted engine also returns NULL).
 */
module EventDecoder {
  import opened Lua
  import opened Vocabulary

  /** `struct fy_mark`: byte offset, line and column. */
  datatype Mark = Mark(inputPos: nat, line: nat, column: nat)

  /** A style enum as the engine reports it: one of the enumerators, or a value outside them. */
  datatype RawStyle<S> = KnownStyle(style: S) | OutOfRange(code: int)

  /**
   * An engine event as the decoder reads it.  Marks are `None` when the
   * engine gives no mark; token texts are `None` when `fy_token_get_text0`
   * returns NULL.  `startToken` says whether a collection start carries its
   * start-indicator token.  `OtherEvent` is a type the decoder does not know.
   */
  datatype ParseEvent =
    | NoEvent
    | StreamStartEvent(startMark: Option<Mark>, endMark: Option<Mark>)
    | StreamEndEvent(startMark: Option<Mark>, endMark: Option<Mark>)
    | DocumentStartEvent(startMark: Option<Mark>, endMark: Option<Mark>, implicit: bool,
                         version: Option<Version>, tags: seq<TagDirective>)
    | DocumentEndEvent(startMark: Option<Mark>, endMark: Option<Mark>, implicit: bool)
    | MappingStartEvent(startMark: Option<Mark>, endMark: Option<Mark>, nodeStyle: RawStyle<NodeStyle>,
                        anchor: Option<string>, tag: Option<string>, startToken: bool)
    | MappingEndEvent(startMark: Option<Mark>, endMark: Option<Mark>)
    | SequenceStartEvent(startMark: Option<Mark>, endMark: Option<Mark>, nodeStyle: RawStyle<NodeStyle>,
                         anchor: Option<string>, tag: Option<string>, startToken: bool)
    | SequenceEndEvent(startMark: Option<Mark>, endMark: Option<Mark>)
    | ScalarEvent(startMark: Option<Mark>, endMark: Option<Mark>, scalarStyle: RawStyle<ScalarStyle>,
                  anchor: Option<string>, tag: Option<string>, value: Option<string>)
    | AliasEvent(startMark: Option<Mark>, endMark: Option<Mark>, anchor: Option<string>)
    | OtherEvent(code: int)

  /** What one call of the iterator gives Lua: a table, nil, or a raised error. */
  datatype Decoded = Produced(table: Fields) | Nil | Raised(message: string)

  /** The `type` name the decoder writes for an event it knows. */
  function KindName(ev: ParseEvent): string
    requires !ev.NoEvent? && !ev.OtherEvent?
  {
    match ev
    case StreamStartEvent(_, _) => "STREAM_START"
    case StreamEndEvent(_, _) => "STREAM_END"
    case DocumentStartEvent(_, _, _, _, _) => "DOCUMENT_START"
    case DocumentEndEvent(_, _, _) => "DOCUMENT_END"
    case MappingStartEvent(_, _, _, _, _, _) => "MAPPING_START"
    case MappingEndEvent(_, _) => "MAPPING_END"
    case SequenceStartEvent(_, _, _, _, _, _) => "SEQUENCE_START"
    case SequenceEndEvent(_, _) => "SEQUENCE_END"
    case ScalarEvent(_, _, _, _, _, _) => "SCALAR"
    case AliasEvent(_, _, _) => "ALIAS"
  }

  const AliasAnchorMessage := "fy_token_get_text0() failed"

  const ProblemPrefix := "A problem at document: "

  /** `parser_generate_error_message`: the fixed text and the number of documents started so far. */
  function ProblemMessage(documentCount: int): (m: string)
    ensures |m| > |ProblemPrefix| && m[..|ProblemPrefix|] == ProblemPrefix
  {
    ProblemPrefix + IntToString(documentCount)
  }

  /** A token text pushed as a Lua string, `""` when the token gives none. */
  function TextOrEmpty(o: Option<string>): Value
  {
    Str(if o.Some? then CStr(o.value) else "")
  }

  /** `parser_set_mark`: the three fields of a mark, each 0 when there is no mark. */
  function MarkTable(m: Option<Mark>): (v: Value)
    ensures v.Table? && v.items == [] && v.fields.Keys == {"index", "line", "column"}
    ensures m.None? ==> forall k | k in v.fields :: v.fields[k] == Int(0)
  {
    Table(map["index" := Int(if m.Some? then m.value.inputPos else 0),
              "line" := Int(if m.Some? then m.value.line else 0),
              "column" := Int(if m.Some? then m.value.column else 0)], [])
  }

  /** `parser_push_eventtable`: a table with `type` and both marks. */
  function EventTable(name: string, startMark: Option<Mark>, endMark: Option<Mark>): (t: Fields)
    ensures t.Keys == {"type", "start_mark", "end_mark"} && t["type"] == Str(name)
  {
    map["type" := Str(name), "start_mark" := MarkTable(startMark), "end_mark" := MarkTable(endMark)]
  }

  function BaseTable(ev: ParseEvent): Fields
    requires !ev.NoEvent? && !ev.OtherEvent?
  {
    EventTable(KindName(ev), ev.startMark, ev.endMark)
  }

  function TagDirectiveTable(d: TagDirective): Value
  {
    Table(map["handle" := Str(CStr(d.handle)), "prefix" := Str(CStr(d.prefix))], [])
  }

  /** The `tag_directives` list: element i (Lua index i+1) is the i-th directive the engine iterates. */
  function TagDirectiveItems(tags: seq<TagDirective>): seq<Value>
  {
    seq(|tags|, i requires 0 <= i < |tags| => TagDirectiveTable(tags[i]))
  }

  /** The table `parse_DOCUMENT_START` builds. */
  function DocumentStartTable(ev: ParseEvent): (t: Fields)
    requires ev.DocumentStartEvent?
    ensures "type" in t && t["type"] == Str("DOCUMENT_START")
    ensures "implicit" in t && t["implicit"] == Bool(ev.implicit)
    ensures "version_directive" in t <==> ev.version.Some?
    ensures "tag_directives" in t <==> ev.tags != []
  {
    var base := BaseTable(ev)["implicit" := Bool(ev.implicit)];
    var withVersion :=
      if ev.version.Some? then
        base["version_directive" := Table(map["major" := Int(ev.version.value.major),
                                                "minor" := Int(ev.version.value.minor)], [])]
      else base;
    if ev.tags != [] then withVersion["tag_directives" := Table(map[], TagDirectiveItems(ev.tags))]
    else withVersion
  }

  /** `parse_ALIAS`: the anchor text is required. */
  function ParseAlias(ev: ParseEvent): (d: Decoded)
    requires ev.AliasEvent?
    ensures d.Raised? <==> ev.anchor.None?
    ensures d.Produced? ==> d.table.Keys == {"type", "start_mark", "end_mark", "anchor"}
  {
    if ev.anchor.None? then Raised(AliasAnchorMessage)
    else Produced(BaseTable(ev)["anchor" := Str(CStr(ev.anchor.value))])
  }

  /** `parse_SCALAR`; its message for an unknown style says "sequence", as the source does. */
  function ParseScalar(ev: ParseEvent): (d: Decoded)
    requires ev.ScalarEvent?
    ensures d.Raised? <==> ev.scalarStyle.OutOfRange?
    ensures d.Produced? ==> "style" in d.table && d.table["style"] == Str(ScalarStyleName(ev.scalarStyle.style))
  {
    match ev.scalarStyle
    case OutOfRange(code) => Raised("invalid sequence style " + IntToString(code))
    case KnownStyle(st) =>
      Produced(BaseTable(ev)["anchor" := TextOrEmpty(ev.anchor)]["tag" := TextOrEmpty(ev.tag)]
                            ["value" := TextOrEmpty(ev.value)]
                            ["plain_implicit" := Bool(false)]["quoted_implicit" := Bool(false)]
                            ["style" := Str(ScalarStyleName(st))])
  }

  /** `parse_SEQUENCE_START` and `parse_MAPPING_START`, which differ only in their names. */
  function ParseCollectionStart(ev: ParseEvent): (d: Decoded)
    requires ev.SequenceStartEvent? || ev.MappingStartEvent?
    ensures d.Raised? <==> ev.nodeStyle.OutOfRange?
    ensures d.Produced? ==> "implicit" in d.table && d.table["implicit"] == Bool(!ev.startToken)
  {
    match ev.nodeStyle
    case OutOfRange(code) =>
      Raised((if ev.SequenceStartEvent? then "invalid sequence style " else "invalid mapping style ") + IntToString(code))
    case KnownStyle(st) =>
      Produced(BaseTable(ev)["anchor" := TextOrEmpty(ev.anchor)]["tag" := TextOrEmpty(ev.tag)]
                            ["implicit" := Bool(!ev.startToken)]["style" := Str(NodeStyleName(st))])
  }

  /** The `switch` of `event_iter`: what Lua receives for the event just pulled. */
  function Translate(ev: ParseEvent): (r: Decoded)
    ensures r.Nil? <==> ev.NoEvent?
    ensures r.Produced? ==> !ev.NoEvent? && !ev.OtherEvent? && "type" in r.table && r.table["type"] == Str(KindName(ev))
  {
    match ev
    case NoEvent => Nil
    case OtherEvent(code) => Raised("invalid event " + IntToString(code))
    case StreamEndEvent(_, _) => Produced(BaseTable(ev))
    case SequenceEndEvent(_, _) => Produced(BaseTable(ev))
    case MappingEndEvent(_, _) => Produced(BaseTable(ev))
    case StreamStartEvent(_, _) => Produced(BaseTable(ev)["encoding" := Str("UTF8")])
    case DocumentStartEvent(_, _, _, _, _) => Produced(DocumentStartTable(ev))
    case DocumentEndEvent(_, _, implicit) => Produced(BaseTable(ev)["implicit" := Bool(implicit)])
    case AliasEvent(_, _, _) => ParseAlias(ev)
    case ScalarEvent(_, _, _, _, _, _) => ParseScalar(ev)
    case SequenceStartEvent(_, _, _, _, _, _) => ParseCollectionStart(ev)
    case MappingStartEvent(_, _, _, _, _, _) => ParseCollectionStart(ev)
  }

  /**
   * The `lyaml_parser` state with the engine's side of it: the held event,
   * the document count, the results the engine has still to give, every
   * event it has handed out and every event handed back to
   * `fy_parser_event_free`, whether the engine exists, and how often
   * `fy_parser_destroy` was called.
   */
  datatype ParserState = ParserState(event: Option<ParseEvent>, documentCount: nat,
                                     upcoming: seq<Option<ParseEvent>>,
                                     pulled: seq<ParseEvent>, freed: seq<ParseEvent>,
                                     hasEngine: bool, destroyCalls: nat)

  function Held(e: Option<ParseEvent>): seq<ParseEvent>
  {
    if e.Some? then [e.value] else []
  }

  /** `parser_delete_event`. */
  function DeleteEventSpec(s: ParserState): ParserState
  {
    s.(event := None, freed := s.freed + Held(s.event))
  }

  /** `fy_parser_parse`: the engine's next result. */
  function PullSpec(s: ParserState): (ParserState, Option<ParseEvent>)
  {
    if s.upcoming == [] then (s, None)
    else if s.upcoming[0].None? then (s.(upcoming := s.upcoming[1..]), None)
    else (s.(upcoming := s.upcoming[1..], pulled := s.pulled + [s.upcoming[0].value]), s.upcoming[0])
  }

  function CountIncrement(ev: ParseEvent): nat
  {
    if ev.DocumentStartEvent? then 1 else 0
  }

  /** The state `event_iter` leaves: the held event released, the next one pulled and held, a document counted. */
  function IterState(s: ParserState): ParserState
  {
    var (s2, next) := PullSpec(DeleteEventSpec(s));
    if next.None? then s2
    else s2.(event := next, documentCount := s2.documentCount + CountIncrement(next.value))
  }

  /** `event_iter`: release, pull, then translate; a NULL result raises the problem message. */
  function IterSpec(s: ParserState): (ParserState, Decoded)
  {
    var (s2, next) := PullSpec(DeleteEventSpec(s));
    (IterState(s), if next.None? then Raised(ProblemMessage(s2.documentCount)) else Translate(next.value))
  }

  /** `parser_gc`. */
  function GcSpec(s: ParserState): ParserState
  {
    var s1 := DeleteEventSpec(s);
    if s1.hasEngine then s1.(destroyCalls := s1.destroyCalls + 1) else s1
  }

  class Parser {
    var event: Option<ParseEvent>
    var documentCount: nat
    var upcoming: seq<Option<ParseEvent>>
    var pulled: seq<ParseEvent>
    var freed: seq<ParseEvent>
    var hasEngine: bool
    var destroyCalls: nat

    function Snapshot(): ParserState
      reads this
    {
      ParserState(event, documentCount, upcoming, pulled, freed, hasEngine, destroyCalls)
    }

    /** `Pparser`: a zeroed parser over an engine that will return `results`; `created` says whether `fy_parser_create` succeeded. */
    constructor (results: seq<Option<ParseEvent>>, created: bool)
      ensures Snapshot() == ParserState(None, 0, results, [], [], created, 0)
    {
      event, documentCount := None, 0;
      upcoming, pulled, freed := results, [], [];
      hasEngine, destroyCalls := created, 0;
    }

    /** `parser_delete_event`: frees only a held event, and leaves the slot empty. */
    method DeleteEvent()
      modifies this
      ensures Snapshot() == DeleteEventSpec(old(Snapshot()))
    {
      if event.Some? {
        freed := freed + [event.value];
        event := None;
      }
    }

    /** `fy_parser_parse`. */
    method FyParserParse() returns (next: Option<ParseEvent>)
      modifies this
      ensures (Snapshot(), next) == PullSpec(old(Snapshot()))
    {
      if upcoming == [] {
        return None;
      }
      next := upcoming[0];
      upcoming := upcoming[1..];
      if next.Some? {
        pulled := pulled + [next.value];
      }
    }

    /** The `do ... while` loop of `parse_DOCUMENT_START`: each directive is appended at index `#list + 1`. */
    static method BuildTagDirectiveList(tags: seq<TagDirective>) returns (list: seq<Value>)
      requires tags != []
      ensures list == TagDirectiveItems(tags)
    {
      list := [];
      var i := 0;
      while i < |tags|
        invariant 0 <= i <= |tags|
        invariant list == TagDirectiveItems(tags[..i])
      {
        list := list + [Table(map["handle" := Str(CStr(tags[i].handle)), "prefix" := Str(CStr(tags[i].prefix))], [])];
        i := i + 1;
      }
      assert tags[..i] == tags;
    }

    /** `parse_DOCUMENT_START`: counts the document, then builds its table. */
    method ParseDocumentStart() returns (t: Fields)
      requires event.Some? && event.value.DocumentStartEvent?
      modifies this`documentCount
      ensures documentCount == old(documentCount) + 1
      ensures t == DocumentStartTable(event.value)
    {
      documentCount := documentCount + 1;
      var ev := event.value;
      t := BaseTable(ev)["implicit" := Bool(ev.implicit)];
      if ev.version.Some? {
        t := t["version_directive" := Table(map["major" := Int(ev.version.value.major),
                                                 "minor" := Int(ev.version.value.minor)], [])];
      }
      if ev.tags != [] {
        var list := BuildTagDirectiveList(ev.tags);
        t := t["tag_directives" := Table(map[], list)];
      }
    }

    /** `event_iter`. */
    method EventIter() returns (d: Decoded)
      modifies this
      ensures (Snapshot(), d) == IterSpec(old(Snapshot()))
    {
      DeleteEvent();
      event := FyParserParse();
      if event.None? {
        return Raised(ProblemMessage(documentCount));
      }
      match event.value
      case DocumentStartEvent(_, _, _, _, _) =>
        var t := ParseDocumentStart();
        d := Produced(t);
      case _ =>
        d := Translate(event.value);
    }

    /** `parser_gc`: `p` is the userdata pointer, which may be NULL. */
    static method Gc(p: Parser?)
      modifies p
      ensures p != null ==> p.Snapshot() == GcSpec(old(p.Snapshot()))
    {
      if p != null {
        p.DeleteEvent();
        if p.hasEngine {
          p.destroyCalls := p.destroyCalls + 1;
        }
      }
    }
  }
}
