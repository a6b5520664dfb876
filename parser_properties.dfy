/**
 * What the event decoder promises: the held-event discipline, the document
 * count, and the shape of every table it produces.
 */
module DecoderProperties {
  import opened Lua
  import opened Vocabulary
  import opened EventDecoder

  /** Every event the engine handed out has been released, in order, except the one still held. */
  predicate Balanced(s: ParserState)
  {
    s.pulled == s.freed + Held(s.event)
  }

  /** The number of DOCUMENT_START events in `evs`. */
  function DocumentStarts(evs: seq<ParseEvent>): nat
  {
    if evs == [] then 0 else DocumentStarts(evs[..|evs| - 1]) + CountIncrement(evs[|evs| - 1])
  }

  /** The decoder's invariant: events are balanced and the count is the number of documents pulled. */
  predicate Consistent(s: ParserState)
  {
    Balanced(s) && s.documentCount == DocumentStarts(s.pulled)
  }

  /** `n` calls of the iterator. */
  function Run(s: ParserState, n: nat): ParserState
    decreases n
  {
    if n == 0 then s else Run(IterState(s), n - 1)
  }

  function Fresh(results: seq<Option<ParseEvent>>, created: bool): ParserState
  {
    ParserState(None, 0, results, [], [], created, 0)
  }

  /** Releasing empties the slot, frees only a held event, and a second release does nothing. */
  lemma DeleteEventIdempotent(s: ParserState)
    ensures DeleteEventSpec(s).event.None?
    ensures s.event.None? ==> DeleteEventSpec(s) == s
    ensures s.event.Some? ==> DeleteEventSpec(s).freed == s.freed + [s.event.value]
    ensures DeleteEventSpec(DeleteEventSpec(s)) == DeleteEventSpec(s)
  {
    assert s.freed + [] == s.freed;
  }

  /** The iterator releases the held event before it pulls, and pulls at most one event. */
  lemma IterReleasesBeforePulling(s: ParserState)
    ensures IterSpec(s).0.freed == s.freed + Held(s.event)
    ensures IterSpec(s).0.pulled == s.pulled + Held(IterSpec(s).0.event)
    ensures IterSpec(s).0.event.Some? <==> s.upcoming != [] && s.upcoming[0].Some?
  {
  }

  lemma {:induction false} DocumentStartsAppend(evs: seq<ParseEvent>, ev: ParseEvent)
    ensures DocumentStarts(evs + [ev]) == DocumentStarts(evs) + CountIncrement(ev)
  {
    assert (evs + [ev])[..|evs + [ev]| - 1] == evs;
  }

  /** The count goes up by one exactly when the pulled event is a DOCUMENT_START. */
  lemma DocumentCountStep(s: ParserState)
    ensures IterSpec(s).0.documentCount ==
      s.documentCount + (if s.upcoming != [] && s.upcoming[0].Some? && s.upcoming[0].value.DocumentStartEvent? then 1 else 0)
  {
  }

  /** One call of the iterator keeps the invariant. */
  lemma IterPreservesConsistency(s: ParserState)
    requires Consistent(s)
    ensures Consistent(IterState(s))
  {
    var s2 := IterState(s);
    if s.upcoming != [] && s.upcoming[0].Some? {
      var ev := s.upcoming[0].value;
      assert s2.pulled == s.pulled + [ev];
      DocumentStartsAppend(s.pulled, ev);
      assert s2.freed + Held(s2.event) == s.freed + Held(s.event) + [ev];
    } else {
      assert s2.pulled == s.pulled && s2.freed == s.freed + Held(s.event);
      assert s2.freed + Held(s2.event) == s2.freed;
    }
  }

  /** A new parser is consistent. */
  lemma FreshIsConsistent(results: seq<Option<ParseEvent>>, created: bool)
    ensures Consistent(Fresh(results, created))
  {
  }

  /** The iterator never creates or destroys the engine. */
  lemma IterLeavesEngine(s: ParserState)
    ensures IterState(s).hasEngine == s.hasEngine && IterState(s).destroyCalls == s.destroyCalls
  {
  }

  /**
   * Over any number of calls, at most one event is held, every other pulled
   * event is released exactly once and in order, and the count is the number
   * of DOCUMENT_START events pulled.
   */
  lemma {:induction false} RunKeepsConsistency(s: ParserState, n: nat)
    requires Consistent(s)
    ensures Consistent(Run(s, n))
    decreases n
  {
    if n > 0 {
      var s1 := IterState(s);
      IterPreservesConsistency(s);
      RunKeepsConsistency(s1, n - 1);
      assert Run(s, n) == Run(s1, n - 1);
    }
  }

  /** However many times the iterator runs, the engine is neither created nor destroyed. */
  lemma {:induction false} RunLeavesEngine(s: ParserState, n: nat)
    ensures Run(s, n).hasEngine == s.hasEngine && Run(s, n).destroyCalls == s.destroyCalls
    decreases n
  {
    if n > 0 {
      var s1 := IterState(s);
      IterLeavesEngine(s);
      RunLeavesEngine(s1, n - 1);
      assert Run(s, n) == Run(s1, n - 1);
    }
  }

  /** A NULL engine result raises the message with the current count and yields no table and no held event. */
  lemma NullResultRaises(s: ParserState)
    requires s.upcoming == [] || s.upcoming[0].None?
    ensures IterSpec(s).1 == Raised(ProblemMessage(s.documentCount))
    ensures IterSpec(s).0.event.None? && IterSpec(s).0.documentCount == s.documentCount
  {
  }

  /** The message starts with the fixed text and ends with the count in decimal, which reads back as the count. */
  lemma ProblemMessageNamesCount(n: nat)
    ensures |ProblemMessage(n)| > |ProblemPrefix|
    ensures ProblemMessage(n)[..|ProblemPrefix|] == ProblemPrefix
    ensures var digits := ProblemMessage(n)[|ProblemPrefix|..];
      (forall k :: 0 <= k < |digits| ==> '0' <= digits[k] <= '9') && DecimalValue(digits) == n
  {
    var m := ProblemMessage(n);
    assert m[|ProblemPrefix|..] == NatToString(n);
    NatToStringReadsBack(n);
  }

  /** A mark table has exactly `index`, `line` and `column`, taken from the mark, all 0 without one. */
  lemma MarkFields(m: Option<Mark>)
    ensures MarkTable(m).fields.Keys == {"index", "line", "column"} && MarkTable(m).items == []
    ensures m.None? ==> forall k :: k in MarkTable(m).fields ==> MarkTable(m).fields[k] == Int(0)
    ensures m.Some? ==>
      MarkTable(m).fields["index"] == Int(m.value.inputPos)
      && MarkTable(m).fields["line"] == Int(m.value.line)
      && MarkTable(m).fields["column"] == Int(m.value.column)
  {
  }

  /** Which events give nil, which raise, and which give a table. */
  lemma OutcomeKinds(ev: ParseEvent)
    ensures Translate(ev).Nil? <==> ev.NoEvent?
    ensures Translate(ev).Raised? <==>
      ev.OtherEvent?
      || (ev.AliasEvent? && ev.anchor.None?)
      || (ev.ScalarEvent? && ev.scalarStyle.OutOfRange?)
      || ((ev.SequenceStartEvent? || ev.MappingStartEvent?) && ev.nodeStyle.OutOfRange?)
    ensures ev.OtherEvent? ==> Translate(ev) == Raised("invalid event " + IntToString(ev.code))
  {
  }

  /** Every table carries its event's `type` name and both marks. */
  lemma ProducedTablesCarryTypeAndMarks(ev: ParseEvent)
    requires Translate(ev).Produced?
    ensures !ev.NoEvent? && !ev.OtherEvent?
    ensures var t := Translate(ev).table;
      "type" in t && "start_mark" in t && "end_mark" in t
      && t["type"] == Str(KindName(ev))
      && t["start_mark"] == MarkTable(ev.startMark) && t["end_mark"] == MarkTable(ev.endMark)
  {
  }

  /** The END events give only the type and the marks. */
  lemma EndEventsCarryNothingElse(ev: ParseEvent)
    requires ev.StreamEndEvent? || ev.SequenceEndEvent? || ev.MappingEndEvent?
    ensures Translate(ev).Produced?
    ensures Translate(ev).table.Keys == {"type", "start_mark", "end_mark"}
  {
  }

  /** STREAM_START always says UTF8. */
  lemma StreamStartIsUtf8(ev: ParseEvent)
    requires ev.StreamStartEvent?
    ensures Translate(ev).Produced?
    ensures Translate(ev).table.Keys == {"type", "start_mark", "end_mark", "encoding"}
    ensures Translate(ev).table["encoding"] == Str("UTF8")
  {
  }

  /** DOCUMENT_END passes its `implicit` flag on. */
  lemma DocumentEndTable(ev: ParseEvent)
    requires ev.DocumentEndEvent?
    ensures Translate(ev).Produced?
    ensures Translate(ev).table.Keys == {"type", "start_mark", "end_mark", "implicit"}
    ensures Translate(ev).table["implicit"] == Bool(ev.implicit)
  {
  }

  /**
   * DOCUMENT_START: `version_directive` is there exactly when the engine
   * reports a version, `tag_directives` exactly when there is a directive,
   * as a list holding one table per directive in iteration order.
   */
  lemma DocumentStartContents(ev: ParseEvent)
    requires ev.DocumentStartEvent?
    ensures Translate(ev).Produced?
    ensures var t := Translate(ev).table;
      t["implicit"] == Bool(ev.implicit)
      && ("version_directive" in t <==> ev.version.Some?)
      && ("tag_directives" in t <==> ev.tags != [])
    ensures var t := Translate(ev).table;
      ev.version.Some? ==>
        t["version_directive"] == Table(map["major" := Int(ev.version.value.major),
                                             "minor" := Int(ev.version.value.minor)], [])
    ensures var t := Translate(ev).table;
      ev.tags != [] ==>
        t["tag_directives"].Table? && t["tag_directives"].fields == map[]
        && |t["tag_directives"].items| == |ev.tags|
        && forall i :: 0 <= i < |ev.tags| ==>
             t["tag_directives"].items[i].Table?
             && t["tag_directives"].items[i].fields["handle"] == Str(CStr(ev.tags[i].handle))
             && t["tag_directives"].items[i].fields["prefix"] == Str(CStr(ev.tags[i].prefix))
  {
  }

  /**
   * SCALAR: the style is named, anchor, tag and value default to "", the two
   * implicit flags are always false; an unknown style raises.
   */
  lemma ScalarTable(ev: ParseEvent)
    requires ev.ScalarEvent?
    ensures ev.scalarStyle.OutOfRange? ==>
      Translate(ev) == Raised("invalid sequence style " + IntToString(ev.scalarStyle.code))
    ensures ev.scalarStyle.KnownStyle? ==> Translate(ev).Produced?
    ensures ev.scalarStyle.KnownStyle? ==>
      var t := Translate(ev).table;
      t.Keys == {"type", "start_mark", "end_mark", "anchor", "tag", "value", "plain_implicit", "quoted_implicit", "style"}
      && t["style"] == Str(ScalarStyleName(ev.scalarStyle.style))
      && t["plain_implicit"] == Bool(false) && t["quoted_implicit"] == Bool(false)
      && (ev.anchor.None? ==> t["anchor"] == Str(""))
      && (ev.anchor.Some? ==> t["anchor"] == Str(CStr(ev.anchor.value)))
      && (ev.tag.None? ==> t["tag"] == Str(""))
      && (ev.tag.Some? ==> t["tag"] == Str(CStr(ev.tag.value)))
      && (ev.value.None? ==> t["value"] == Str(""))
      && (ev.value.Some? ==> t["value"] == Str(CStr(ev.value.value)))
  {
  }

  /**
   * SEQUENCE_START and MAPPING_START: the style is named, anchor and tag
   * default to "", `implicit` is true exactly without a start token; an
   * unknown style raises.
   */
  lemma CollectionStartTable(ev: ParseEvent)
    requires ev.SequenceStartEvent? || ev.MappingStartEvent?
    ensures ev.nodeStyle.OutOfRange? && ev.SequenceStartEvent? ==>
      Translate(ev) == Raised("invalid sequence style " + IntToString(ev.nodeStyle.code))
    ensures ev.nodeStyle.OutOfRange? && ev.MappingStartEvent? ==>
      Translate(ev) == Raised("invalid mapping style " + IntToString(ev.nodeStyle.code))
    ensures ev.nodeStyle.KnownStyle? ==> Translate(ev).Produced?
    ensures ev.nodeStyle.KnownStyle? ==>
      var t := Translate(ev).table;
      t.Keys == {"type", "start_mark", "end_mark", "anchor", "tag", "implicit", "style"}
      && t["style"] == Str(NodeStyleName(ev.nodeStyle.style))
      && (t["implicit"] == Bool(true) <==> !ev.startToken)
      && (ev.anchor.None? ==> t["anchor"] == Str(""))
      && (ev.tag.None? ==> t["tag"] == Str(""))
      && (ev.anchor.Some? ==> t["anchor"] == Str(CStr(ev.anchor.value)))
      && (ev.tag.Some? ==> t["tag"] == Str(CStr(ev.tag.value)))
  {
  }

  /** ALIAS: without anchor text it raises; otherwise the table holds the anchor. */
  lemma AliasTable(ev: ParseEvent)
    requires ev.AliasEvent?
    ensures ev.anchor.None? <==> Translate(ev) == Raised(AliasAnchorMessage)
    ensures ev.anchor.Some? ==>
      Translate(ev).Produced?
      && Translate(ev).table.Keys == {"type", "start_mark", "end_mark", "anchor"}
      && Translate(ev).table["anchor"] == Str(CStr(ev.anchor.value))
  {
  }

  /** Collection of the parser releases the held event, then destroys the engine if there is one. */
  lemma GcReleasesAndDestroys(s: ParserState)
    ensures GcSpec(s).event.None?
    ensures GcSpec(s).freed == s.freed + Held(s.event)
    ensures GcSpec(s).destroyCalls == s.destroyCalls + (if s.hasEngine then 1 else 0)
    ensures Balanced(s) ==> GcSpec(s).pulled == GcSpec(s).freed
  {
  }

  /**
   * Whatever the engine returns and however many times the iterator runs,
   * collecting the parser leaves every pulled event released once and the
   * engine destroyed exactly when it was created.
   */
  lemma LifetimeReleasesEverything(results: seq<Option<ParseEvent>>, created: bool, n: nat)
    ensures GcSpec(Run(Fresh(results, created), n)).pulled == GcSpec(Run(Fresh(results, created), n)).freed
    ensures GcSpec(Run(Fresh(results, created), n)).destroyCalls == (if created then 1 else 0)
  {
    RunKeepsConsistency(Fresh(results, created), n);
    RunLeavesEngine(Fresh(results, created), n);
  }
}
