/**
 * The two translators side by side: a table the decoder produces, handed
 * straight to the encoder, makes the encoder issue the engine event the
 * decoded event describes (`Reencoded`), except where the decoded style is
 * ANY, a name the encoder's lookups refuse.  `Reencoded` is not the decoded
 * event itself: an anchor, tag or scalar value the engine did not give is
 * written by the decoder as "" and handed back to the engine as "", not
 * as NULL, and every text comes back as its C string.
 */
module RoundTrip {
  import opened Lua
  import opened Vocabulary
  import D = EventDecoder
  import E = EventEncoder
  import EP = EncoderProperties
  import DP = DecoderProperties

  /** The decoded event names the ANY style. */
  predicate UsesAnyStyle(ev: D.ParseEvent)
  {
    ((ev.MappingStartEvent? || ev.SequenceStartEvent?) && ev.nodeStyle == D.KnownStyle(AnyNode))
    || (ev.ScalarEvent? && ev.scalarStyle == D.KnownStyle(AnyScalar))
  }

  /** A token text as it ends up on the engine's side: its C view, `""` when the token gave none. */
  function Text(o: Option<string>): string
  {
    if o.Some? then CStr(o.value) else ""
  }

  function Given<S>(st: D.RawStyle<S>): E.StyleArg<S>
  {
    if st.KnownStyle? then E.Given(st.style) else E.Uninitialized
  }

  /** The directive array the engine should receive: each directive's C strings, in order, then NULL. */
  function EngineTags(tags: seq<TagDirective>): seq<Option<TagDirective>>
  {
    seq(|tags|, i requires 0 <= i < |tags| => Some(TagDirective(CStr(tags[i].handle), CStr(tags[i].prefix)))) + [None]
  }

  /**
   * The engine event that carries the same information as a decoded event:
   * the same kind, style, flags, version and directives, with absent texts
   * turned into empty strings rather than NULL.
   */
  function Reencoded(ev: D.ParseEvent): E.EngineEvent
    requires !ev.NoEvent? && !ev.OtherEvent?
  {
    match ev
    case StreamStartEvent(_, _) => E.StreamStartEv
    case StreamEndEvent(_, _) => E.StreamEndEv
    case DocumentStartEvent(_, _, implicit, version, tags) =>
      E.DocumentStartEv(implicit, version,
        if tags == [] then None else Some(EngineTags(tags)))
    case DocumentEndEvent(_, _, implicit) => E.DocumentEndEv(implicit)
    case MappingStartEvent(_, _, style, anchor, tag, _) => E.MappingStartEv(Given(style), Some(Text(anchor)), Some(Text(tag)))
    case MappingEndEvent(_, _) => E.MappingEndEv
    case SequenceStartEvent(_, _, style, anchor, tag, _) => E.SequenceStartEv(Given(style), Some(Text(anchor)), Some(Text(tag)))
    case SequenceEndEvent(_, _) => E.SequenceEndEv
    case ScalarEvent(_, _, style, anchor, tag, value) =>
      E.ScalarEv(Given(style), Some(Text(value)), Some(Text(anchor)), Some(Text(tag)))
    case AliasEvent(_, _, anchor) => E.AliasEv(Some(Text(anchor)))
  }

  /** A token the engine did not give comes back as the empty text, not as NULL. */
  lemma MissingTextsComeBackEmpty(ev: D.ParseEvent)
    requires ev.ScalarEvent? || ev.MappingStartEvent? || ev.SequenceStartEvent?
    ensures ev.anchor.None? ==> Reencoded(ev).anchor == Some("")
    ensures ev.tag.None? ==> Reencoded(ev).tag == Some("")
    ensures ev.ScalarEvent? && ev.value.None? ==> Reencoded(ev).value == Some("")
  {
  }

  lemma TextIsCString(o: Option<string>)
    ensures CStr(Text(o)) == Text(o)
  {
    if o.Some? {
      CStrIdempotent(o.value);
    }
  }

  lemma TypeNameIsCString(ev: D.ParseEvent)
    requires !ev.NoEvent? && !ev.OtherEvent?
    ensures CStr(D.KindName(ev)) == D.KindName(ev)
  {
    CStrOfNulFree(D.KindName(ev));
  }

  /** The encoder reads back, without an error, the directives the decoder wrote. */
  lemma TagDirectivesReadBack(tags: seq<TagDirective>)
    requires tags != []
    ensures E.TagErrors(D.TagDirectiveItems(tags)) == []
    ensures E.TagPointers(D.TagDirectiveItems(tags)) == EngineTags(tags)
  {
    var items := D.TagDirectiveItems(tags);
    forall i | 0 <= i < |items|
      ensures GetString(E.ItemFields(items[i]), "handle") == Some(CStr(tags[i].handle))
      ensures GetString(E.ItemFields(items[i]), "prefix") == Some(CStr(tags[i].prefix))
    {
      CStrIdempotent(tags[i].handle);
      CStrIdempotent(tags[i].prefix);
    }
    EP.TagErrorsExactlyMissingKeys(items);
  }

  lemma StyleNamesAreCStrings(n: NodeStyle, c: ScalarStyle)
    ensures CStr(NodeStyleName(n)) == NodeStyleName(n)
    ensures CStr(ScalarStyleName(c)) == ScalarStyleName(c)
  {
    CStrOfNulFree(NodeStyleName(n));
    CStrOfNulFree(ScalarStyleName(c));
  }

  lemma VersionReadBack(ev: D.ParseEvent)
    requires ev.DocumentStartEvent?
    ensures E.VersionDirective(0, D.DocumentStartTable(ev)) == ([], ev.version)
  {
    var t := D.DocumentStartTable(ev);
    if ev.version.Some? {
      var vd := Table(map["major" := Int(ev.version.value.major), "minor" := Int(ev.version.value.minor)], []);
      assert GetTable(t, "version_directive") == Some(vd);
      assert GetInteger(vd.fields, "major") == Some(ev.version.value.major);
      assert GetInteger(vd.fields, "minor") == Some(ev.version.value.minor);
      var noErrors: seq<string> := [];
      assert noErrors + noErrors == noErrors;
      assert Version(ev.version.value.major, ev.version.value.minor) == ev.version.value;
    } else {
      assert GetTable(t, "version_directive") == None;
    }
  }

  lemma TagDirectivesPartReadBack(ev: D.ParseEvent)
    requires ev.DocumentStartEvent?
    ensures E.TagDirectivesPart(D.DocumentStartTable(ev)) == ([], Reencoded(ev).tags)
  {
    var t := D.DocumentStartTable(ev);
    if ev.tags != [] {
      assert GetTable(t, "tag_directives") == Some(Table(map[], D.TagDirectiveItems(ev.tags)));
      TagDirectivesReadBack(ev.tags);
      assert E.TagDirectivesPart(t).0 == [];
      assert E.TagDirectivesPart(t).1 == Some(EngineTags(ev.tags));
      assert Reencoded(ev).tags == Some(EngineTags(ev.tags));
    } else {
      assert GetTable(t, "tag_directives") == None;
      assert E.TagDirectivesPart(t) == ([], None);
    }
  }

  lemma DocumentStartReencodes(ev: D.ParseEvent)
    requires ev.DocumentStartEvent?
    ensures E.DocumentStartPlan(0, D.DocumentStartTable(ev)) == E.Plan([], E.Issue(Reencoded(ev)))
  {
    VersionReadBack(ev);
    TagDirectivesPartReadBack(ev);
    var noErrors: seq<string> := [];
    assert noErrors + noErrors == noErrors;
  }

  lemma ScalarReencodes(ev: D.ParseEvent)
    requires ev.ScalarEvent? && ev.scalarStyle.KnownStyle?
    ensures D.Translate(ev).Produced?
    ensures E.ScalarPlan(D.Translate(ev).table) ==
      E.Plan(if ev.scalarStyle.style == AnyScalar then [E.InvalidScalarStyleMessage("ANY")] else [],
             E.Issue(E.ScalarEv(if ev.scalarStyle.style == AnyScalar then E.Uninitialized else Given(ev.scalarStyle),
                                Some(Text(ev.value)), Some(Text(ev.anchor)), Some(Text(ev.tag)))))
  {
    assert D.Translate(ev) == D.ParseScalar(ev);
    StyleNamesAreCStrings(AnyNode, ev.scalarStyle.style);
    ScalarStyleNameRoundTrip(ev.scalarStyle.style);
    TextIsCString(ev.anchor);
    TextIsCString(ev.tag);
    TextIsCString(ev.value);
  }

  lemma CollectionStartReencodes(ev: D.ParseEvent)
    requires (ev.MappingStartEvent? || ev.SequenceStartEvent?) && ev.nodeStyle.KnownStyle?
    ensures D.Translate(ev).Produced?
    ensures var t := D.Translate(ev).table;
      var any := ev.nodeStyle.style == AnyNode;
      var style := if any then E.Uninitialized else Given(ev.nodeStyle);
      if ev.MappingStartEvent? then
        E.MappingStartPlan(t) == E.Plan(if any then [E.InvalidMappingStyleMessage("ANY")] else [],
                                        E.Issue(E.MappingStartEv(style, Some(Text(ev.anchor)), Some(Text(ev.tag)))))
      else
        E.SequenceStartPlan(t) == E.Plan(if any then [E.InvalidSequenceStyleMessage("ANY")] else [],
                                         E.Issue(E.SequenceStartEv(style, Some(Text(ev.anchor)), Some(Text(ev.tag)))))
  {
    assert D.Translate(ev) == D.ParseCollectionStart(ev);
    StyleNamesAreCStrings(ev.nodeStyle.style, AnyScalar);
    NodeStyleNameRoundTrip(ev.nodeStyle.style);
    TextIsCString(ev.anchor);
    TextIsCString(ev.tag);
  }

  lemma AliasReencodes(ev: D.ParseEvent)
    requires ev.AliasEvent? && ev.anchor.Some?
    ensures D.Translate(ev).Produced?
    ensures E.AliasPlan(D.Translate(ev).table) == E.Plan([], E.Issue(Reencoded(ev)))
  {
    assert D.Translate(ev) == D.ParseAlias(ev);
    TextIsCString(ev.anchor);
  }

  /** The `type` name written by the decoder selects, in the encoder, the handler of the same kind. */
  lemma KindSelectsHandler(ev: D.ParseEvent, t: Fields)
    requires !ev.NoEvent? && !ev.OtherEvent?
    ensures E.HandlerPlan(D.KindName(ev), 0, t) == Some(
      match ev
      case StreamStartEvent(_, _) => E.StreamStartPlan(0, t)
      case StreamEndEvent(_, _) => E.Plan([], E.Issue(E.StreamEndEv))
      case DocumentStartEvent(_, _, _, _, _) => E.DocumentStartPlan(0, t)
      case DocumentEndEvent(_, _, _) => E.DocumentEndPlan(t)
      case MappingStartEvent(_, _, _, _, _, _) => E.MappingStartPlan(t)
      case MappingEndEvent(_, _) => E.Plan([], E.Issue(E.MappingEndEv))
      case SequenceStartEvent(_, _, _, _, _, _) => E.SequenceStartPlan(t)
      case SequenceEndEvent(_, _) => E.Plan([], E.Issue(E.SequenceEndEv))
      case ScalarEvent(_, _, _, _, _, _) => E.ScalarPlan(t)
      case AliasEvent(_, _, _) => E.AliasPlan(t))
  {
  }

  /** The kinds whose tables hold no text: the encoder issues the same kind with the same flag. */
  lemma FlagKindsReencode(ev: D.ParseEvent)
    requires ev.StreamStartEvent? || ev.StreamEndEvent? || ev.DocumentEndEvent?
          || ev.MappingEndEvent? || ev.SequenceEndEvent?
    ensures D.Translate(ev).Produced?
    ensures E.HandlerPlan(D.KindName(ev), 0, D.Translate(ev).table) == Some(E.Plan([], E.Issue(Reencoded(ev))))
  {
    KindSelectsHandler(ev, D.Translate(ev).table);
    if ev.StreamStartEvent? {
      DP.StreamStartIsUtf8(ev);
      CStrOfNulFree("UTF8");
    } else if ev.DocumentEndEvent? {
      DP.DocumentEndTable(ev);
    }
  }

  lemma DocumentStartKindReencodes(ev: D.ParseEvent)
    requires ev.DocumentStartEvent?
    ensures D.Translate(ev).Produced?
    ensures E.HandlerPlan(D.KindName(ev), 0, D.Translate(ev).table) == Some(E.Plan([], E.Issue(Reencoded(ev))))
  {
    KindSelectsHandler(ev, D.Translate(ev).table);
    DocumentStartReencodes(ev);
  }

  lemma TextKindsReencode(ev: D.ParseEvent)
    requires D.Translate(ev).Produced? && !UsesAnyStyle(ev)
    requires ev.ScalarEvent? || ev.MappingStartEvent? || ev.SequenceStartEvent? || ev.AliasEvent?
    ensures E.HandlerPlan(D.KindName(ev), 0, D.Translate(ev).table) == Some(E.Plan([], E.Issue(Reencoded(ev))))
  {
    KindSelectsHandler(ev, D.Translate(ev).table);
    if ev.ScalarEvent? {
      DP.ScalarTable(ev);
      ScalarReencodes(ev);
    } else if ev.AliasEvent? {
      DP.AliasTable(ev);
      AliasReencodes(ev);
    } else {
      DP.CollectionStartTable(ev);
      CollectionStartReencodes(ev);
    }
  }

  /**
   * A decoded table that names no ANY style, given to the encoder with no
   * error recorded, makes it plan exactly the engine event the decoded event
   * describes, and no error.
   */
  lemma DecodedTableReencodes(ev: D.ParseEvent)
    requires D.Translate(ev).Produced? && !UsesAnyStyle(ev)
    ensures !ev.NoEvent? && !ev.OtherEvent?
    ensures GetString(D.Translate(ev).table, "type") == Some(D.KindName(ev))
    ensures E.HandlerPlan(D.KindName(ev), 0, D.Translate(ev).table) == Some(E.Plan([], E.Issue(Reencoded(ev))))
  {
    DP.ProducedTablesCarryTypeAndMarks(ev);
    TypeNameIsCString(ev);
    if ev.DocumentStartEvent? {
      DocumentStartKindReencodes(ev);
    } else if ev.ScalarEvent? || ev.MappingStartEvent? || ev.SequenceStartEvent? || ev.AliasEvent? {
      TextKindsReencode(ev);
    } else {
      FlagKindsReencode(ev);
    }
  }

  /**
   * End to end: emitting a decoded table from a state without errors, with
   * the engine accepting the event, issues that one event, appends the
   * engine's output, and returns `true` (with the text after STREAM_END).
   */
  lemma DecodedEventEmits(s: E.EmitterState, ev: D.ParseEvent, resp: E.EngineResponse)
    requires s.error == 0 && resp.accepted
    requires D.Translate(ev).Produced? && !UsesAnyStyle(ev)
    ensures E.EmitSpec(s, D.Translate(ev).table, resp).0 ==
      s.(issued := s.issued + [Reencoded(ev)], yamlbuff := s.yamlbuff + resp.written)
    ensures E.EmitSpec(s, D.Translate(ev).table, resp).1 ==
      if ev.StreamEndEvent? then E.Finished(s.yamlbuff + resp.written) else E.Succeeded
  {
    DecodedTableReencodes(ev);
    assert s.errbuff + [] == s.errbuff;
  }

  /**
   * A decoded ANY style does not survive the trip: the encoder records the
   * matching "invalid ... style 'ANY'" message and still issues the event,
   * with the style left uninitialised.
   */
  lemma AnyStyleIsRejected(ev: D.ParseEvent)
    requires D.Translate(ev).Produced? && UsesAnyStyle(ev)
    ensures !ev.NoEvent? && !ev.OtherEvent?
    ensures E.HandlerPlan(D.KindName(ev), 0, D.Translate(ev).table).Some?
    ensures var p := E.HandlerPlan(D.KindName(ev), 0, D.Translate(ev).table).value;
      p.action.Issue?
      && p.errors == [if ev.MappingStartEvent? then E.InvalidMappingStyleMessage("ANY")
                      else if ev.SequenceStartEvent? then E.InvalidSequenceStyleMessage("ANY")
                      else E.InvalidScalarStyleMessage("ANY")]
      && (if ev.ScalarEvent? then p.action.ev.scalarStyle == E.Uninitialized else p.action.ev.nodeStyle == E.Uninitialized)
  {
    KindSelectsHandler(ev, D.Translate(ev).table);
    if ev.ScalarEvent? {
      ScalarReencodes(ev);
    } else {
      CollectionStartReencodes(ev);
    }
  }

  /** Emitted from a fresh state, a decoded ANY style makes the call return `false` with that one message. */
  lemma AnyStyleFailsEmit(s: E.EmitterState, ev: D.ParseEvent, resp: E.EngineResponse)
    requires s.error == 0 && s.errbuff == [] && resp.accepted
    requires D.Translate(ev).Produced? && UsesAnyStyle(ev)
    ensures E.EmitSpec(s, D.Translate(ev).table, resp).1 ==
      E.Failed(if ev.MappingStartEvent? then E.InvalidMappingStyleMessage("ANY")
               else if ev.SequenceStartEvent? then E.InvalidSequenceStyleMessage("ANY")
               else E.InvalidScalarStyleMessage("ANY"))
  {
    var t := D.Translate(ev).table;
    AnyStyleIsRejected(ev);
    DP.ProducedTablesCarryTypeAndMarks(ev);
    TypeNameIsCString(ev);
    var p := E.HandlerPlan(D.KindName(ev), 0, t).value;
    var m := if ev.MappingStartEvent? then E.InvalidMappingStyleMessage("ANY")
             else if ev.SequenceStartEvent? then E.InvalidSequenceStyleMessage("ANY")
             else E.InvalidScalarStyleMessage("ANY");
    assert p.errors == [m];
    var d := E.Dispatch(s, t, resp);
    assert d == E.Perform(s, p, resp);
    assert d.rc == 0 && d.state.error == 1;
    assert d.state.errbuff == [m];
    E.ConcatOne(m);
  }
}
