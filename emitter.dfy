/**
 * The event encoder: one `emit(table)` call validates a table describing a
 * YAML event, hands at most one event to the emission engine, and reports
 * `false, message`, `true`, or `true, text` after STREAM_END.
 *
 * The engine is kept abstract.  An event handed to it is recorded in
 * `issued`; what it writes through the output callback and whether it
 * accepts the event come from an `EngineResponse` the model does not choose.
 */
module EventEncoder {
  import opened Lua
  import opened Vocabulary

  /** A style argument of `fy_emit_event_create`; `Uninitialized` is the unset local the source passes after a rejected style name. */
  datatype StyleArg<S> = Given(style: S) | Uninitialized

  /** The event handed to the engine, as `fy_emit_event_create` receives its arguments; `None` stands for a NULL pointer. */
  datatype EngineEvent =
    | StreamStartEv
    | StreamEndEv
    | DocumentStartEv(implicit: bool, version: Option<Version>, tags: Option<seq<Option<TagDirective>>>)
    | DocumentEndEv(implicit: bool)
    | MappingStartEv(nodeStyle: StyleArg<NodeStyle>, anchor: Option<string>, tag: Option<string>)
    | MappingEndEv
    | SequenceStartEv(nodeStyle: StyleArg<NodeStyle>, anchor: Option<string>, tag: Option<string>)
    | SequenceEndEv
    | ScalarEv(scalarStyle: StyleArg<ScalarStyle>, value: Option<string>, anchor: Option<string>, tag: Option<string>)
    | AliasEv(anchor: Option<string>)

  /** The event-table `type` name of the kind of an engine event. */
  function EngineEventName(ev: EngineEvent): string
  {
    match ev
    case StreamStartEv => "STREAM_START"
    case StreamEndEv => "STREAM_END"
    case DocumentStartEv(_, _, _) => "DOCUMENT_START"
    case DocumentEndEv(_) => "DOCUMENT_END"
    case MappingStartEv(_, _, _) => "MAPPING_START"
    case MappingEndEv => "MAPPING_END"
    case SequenceStartEv(_, _, _) => "SEQUENCE_START"
    case SequenceEndEv => "SEQUENCE_END"
    case ScalarEv(_, _, _, _) => "SCALAR"
    case AliasEv(_) => "ALIAS"
  }

  /** The ten `type` names the encoder recognises. */
  const KnownKinds: set<string> :=
    {"SCALAR", "MAPPING_START", "MAPPING_END", "SEQUENCE_START", "SEQUENCE_END",
     "DOCUMENT_START", "DOCUMENT_END", "STREAM_START", "STREAM_END", "ALIAS"}

  /** What the engine does with one event: the bytes it writes through `append_output`, and whether `fy_emit_event` returns 0. */
  datatype EngineResponse = EngineResponse(written: seq<byte>, accepted: bool)

  /** The result `emit` hands back to Lua; `AssertFailed` is the `assert (emitter->error == 1)` tripping. */
  datatype EmitReturn = Failed(message: string) | Succeeded | Finished(text: seq<byte>) | AssertFailed

  /**
   * The `lyaml_emitter` state: error counter, error buffer, output buffer,
   * and the engine's record of events.  The error buffer is kept as the
   * pieces appended to it, in order; its text is `Concat(errbuff)`.
   */
  datatype EmitterState = EmitterState(error: nat, errbuff: seq<string>, yamlbuff: seq<byte>, issued: seq<EngineEvent>)

  const InitialState := EmitterState(0, [], [], [])

  // Messages written into the error buffer.

  function InvalidEncodingMessage(encoding: string): string { "invalid stream encoding '" + encoding + "'" }
  function InvalidMappingStyleMessage(style: string): string { "invalid mapping style '" + style + "'" }
  function InvalidSequenceStyleMessage(style: string): string { "invalid sequence style '" + style + "'" }
  function InvalidScalarStyleMessage(style: string): string { "invalid scalar style '" + style + "'" }
  function InvalidTypeMessage(kind: string): string { "invalid event type '" + kind + "'" }
  const MissingMajorMessage := "version_directive missing key 'major'"
  const MissingMinorMessage := "version_directive missing key 'minor'"
  const MissingHandleMessage := "tag_directives item missing key 'handle'"
  const MissingPrefixMessage := "tag_directives item missing key 'prefix'"
  const NoTypeMessage := "no type field in event table"
  const EngineFailedMessage := "libfyaml emit failed"

  /** The messages of a sequence, run together as the error buffer accumulates them. */
  function Concat(msgs: seq<string>): string
  {
    if msgs == [] then "" else Concat(msgs[..|msgs| - 1]) + msgs[|msgs| - 1]
  }

  lemma {:induction false} ConcatAppend(a: seq<string>, b: seq<string>)
    ensures Concat(a + b) == Concat(a) + Concat(b)
  {
    if b != [] {
      assert (a + b)[..|a + b| - 1] == a + b[..|b| - 1];
      ConcatAppend(a, b[..|b| - 1]);
    } else {
      assert a + b == a;
    }
  }

  lemma ConcatOne(m: string)
    ensures Concat([m]) == m
  {
    assert [m][..0] == [];
  }

  // ---------------------------------------------------------------------
  // What a handler does, as a value: the errors it records and then either
  // the engine event it issues or the code it returns without the engine.

  datatype Action = Issue(ev: EngineEvent) | Return(rc: int)
  datatype Plan = Plan(errors: seq<string>, action: Action)

  /** A state together with the code a handler returns (`rc` in `emit`). */
  datatype Step = Step(state: EmitterState, rc: int)

  /** Carries out a plan: the errors are counted and appended, then the event (if any) goes to the engine. */
  function Perform(s: EmitterState, p: Plan, resp: EngineResponse): Step
  {
    var s1 := s.(error := s.error + |p.errors|, errbuff := s.errbuff + p.errors);
    match p.action
    case Return(rc) => Step(s1, rc)
    case Issue(ev) =>
      Step(s1.(issued := s1.issued + [ev], yamlbuff := s1.yamlbuff + resp.written),
           if resp.accepted then 0 else -1)
  }

  function OrEmpty(o: Option<string>): string
  {
    if o.Some? then o.value else ""
  }

  /** `emit_STREAM_START`: `prior` is the error counter on entry. */
  function StreamStartPlan(prior: nat, t: Fields): Plan
  {
    var encoding := GetString(t, "encoding");
    var errs := if encoding.Some? && encoding.value != "UTF8" then [InvalidEncodingMessage(encoding.value)] else [];
    Plan(errs, if prior + |errs| != 0 then Return(-1) else Issue(StreamStartEv))
  }

  /** The version-directive part of `emit_DOCUMENT_START`: its errors and the version handed on. */
  function VersionDirective(prior: nat, t: Fields): (seq<string>, Option<Version>)
  {
    match GetTable(t, "version_directive")
    case None => ([], None)
    case Some(vd) =>
      var major := GetInteger(vd.fields, "major");
      var e1 := if major.None? then [MissingMajorMessage] else [];
      if prior + |e1| == 0 then
        var minor := GetInteger(vd.fields, "minor");
        var e2 := if minor.None? then [MissingMinorMessage] else [];
        (e1 + e2, Some(Version(OrZero(major), OrZero(minor))))
      else
        (e1, Some(Version(OrZero(major), 0)))
  }

  /** The fields of one `tag_directives` element; an element that is not a table has none. */
  function ItemFields(item: Value): Fields
  {
    if item.Table? then item.fields else map[]
  }

  function ItemErrors(item: Value): seq<string>
  {
    (if GetString(ItemFields(item), "handle").None? then [MissingHandleMessage] else [])
    + (if GetString(ItemFields(item), "prefix").None? then [MissingPrefixMessage] else [])
  }

  function TagItem(item: Value): TagDirective
  {
    TagDirective(OrEmpty(GetString(ItemFields(item), "handle")), OrEmpty(GetString(ItemFields(item), "prefix")))
  }

  function TagErrors(items: seq<Value>): seq<string>
  {
    if items == [] then [] else TagErrors(items[..|items| - 1]) + ItemErrors(items[|items| - 1])
  }

  lemma TagErrorsStep(items: seq<Value>, i: nat)
    requires i < |items|
    ensures TagErrors(items[..i + 1]) == TagErrors(items[..i]) + ItemErrors(items[i])
  {
    assert items[..i + 1][..i] == items[..i];
  }

  /** The `tag_directivesp` array: one entry per element in iteration order, then NULL. */
  function TagPointers(items: seq<Value>): seq<Option<TagDirective>>
  {
    seq(|items|, i requires 0 <= i < |items| => Some(TagItem(items[i]))) + [None]
  }

  // The loop body of `emit_DOCUMENT_START` as written: `ERROR_IFNIL` counts
  // only an absent key, and `strlen`/`strcpy` then copy whatever pointer
  // `lua_tostring` gave, NULL included.  `ItemErrors` and `TagItem` above
  // are the intended reading (a key that gives no string is missing, and
  // nothing is copied from it), which the rest of the model uses.

  /** Where the as-written loop body ends for one element. */
  datatype ItemOutcome = ItemRead(directive: TagDirective) | NullDereference

  /** The messages the as-written loop body records for one element, and how it ends. */
  function TagItemAsWritten(item: Value): (r: (seq<string>, ItemOutcome))
    ensures |r.0| <= 2
    ensures r.1.ItemRead? ==> r.0 == [] && r.1.directive == TagItem(item)
  {
    var f := ItemFields(item);
    var handle := GetString(f, "handle");
    var e1 := if "handle" !in f then [MissingHandleMessage] else [];
    if handle.None? then (e1, NullDereference)
    else
      var prefix := GetString(f, "prefix");
      var e2 := if "prefix" !in f then [MissingPrefixMessage] else [];
      if prefix.None? then (e1 + e2, NullDereference)
      else (e1 + e2, ItemRead(TagDirective(handle.value, prefix.value)))
  }

  function TagDirectivesPart(t: Fields): (seq<string>, Option<seq<Option<TagDirective>>>)
  {
    match GetTable(t, "tag_directives")
    case None => ([], None)
    case Some(td) => (TagErrors(td.items), Some(TagPointers(td.items)))
  }

  /** `emit_DOCUMENT_START`. */
  function DocumentStartPlan(prior: nat, t: Fields): Plan
  {
    var vd := VersionDirective(prior, t);
    var td := TagDirectivesPart(t);
    var errs := vd.0 + td.0;
    var implicit := GetBoolean(t, "implicit", true);
    Plan(errs, if prior + |errs| != 0 then Return(0) else Issue(DocumentStartEv(implicit, vd.1, td.1)))
  }

  /** `emit_DOCUMENT_END`. */
  function DocumentEndPlan(t: Fields): Plan
  {
    Plan([], Issue(DocumentEndEv(GetBoolean(t, "implicit", false))))
  }

  function NodeStyleArg(c: Choice<NodeStyle>): StyleArg<NodeStyle>
  {
    if c.Chosen? then Given(c.style) else Uninitialized
  }

  function ScalarStyleArg(c: Choice<ScalarStyle>): StyleArg<ScalarStyle>
  {
    if c.Chosen? then Given(c.style) else Uninitialized
  }

  /** `emit_MAPPING_START`: a rejected style is recorded, and the engine is still called. */
  function MappingStartPlan(t: Fields): Plan
  {
    var c := NodeStyleFromName(GetString(t, "style"));
    var errs := if c.Rejected? then [InvalidMappingStyleMessage(c.name)] else [];
    Plan(errs, Issue(MappingStartEv(NodeStyleArg(c), GetString(t, "anchor"), GetString(t, "tag"))))
  }

  /** `emit_SEQUENCE_START`. */
  function SequenceStartPlan(t: Fields): Plan
  {
    var c := NodeStyleFromName(GetString(t, "style"));
    var errs := if c.Rejected? then [InvalidSequenceStyleMessage(c.name)] else [];
    Plan(errs, Issue(SequenceStartEv(NodeStyleArg(c), GetString(t, "anchor"), GetString(t, "tag"))))
  }

  /** `emit_SCALAR`: the value goes to the engine as a C string. */
  function ScalarPlan(t: Fields): Plan
  {
    var c := ScalarStyleFromName(GetString(t, "style"));
    var errs := if c.Rejected? then [InvalidScalarStyleMessage(c.name)] else [];
    Plan(errs, Issue(ScalarEv(ScalarStyleArg(c), GetString(t, "value"), GetString(t, "anchor"), GetString(t, "tag"))))
  }

  /** `emit_ALIAS`: the anchor is handed on whether or not it is present. */
  function AliasPlan(t: Fields): Plan
  {
    Plan([], Issue(AliasEv(GetString(t, "anchor"))))
  }

  /** The handler `emit` dispatches to for a `type` name, if it recognises the name. */
  function HandlerPlan(kind: string, prior: nat, t: Fields): (p: Option<Plan>)
    ensures p.Some? <==> kind in KnownKinds
    ensures p.Some? && p.value.action.Issue? ==> EngineEventName(p.value.action.ev) == kind
  {
    if kind == "SCALAR" then Some(ScalarPlan(t))
    else if kind == "MAPPING_START" then Some(MappingStartPlan(t))
    else if kind == "MAPPING_END" then Some(Plan([], Issue(MappingEndEv)))
    else if kind == "SEQUENCE_START" then Some(SequenceStartPlan(t))
    else if kind == "SEQUENCE_END" then Some(Plan([], Issue(SequenceEndEv)))
    else if kind == "DOCUMENT_START" then Some(DocumentStartPlan(prior, t))
    else if kind == "DOCUMENT_END" then Some(DocumentEndPlan(t))
    else if kind == "STREAM_START" then Some(StreamStartPlan(prior, t))
    else if kind == "STREAM_END" then Some(Plan([], Issue(StreamEndEv)))
    else if kind == "ALIAS" then Some(AliasPlan(t))
    else None
  }

  /** The dispatch part of `emit`: the state and `rc` after the type check and the handler. */
  function Dispatch(s: EmitterState, t: Fields, resp: EngineResponse): Step
  {
    var ty := GetString(t, "type");
    if ty.None? then Step(s.(error := s.error + 1, errbuff := s.errbuff + [NoTypeMessage]), -1)
    else match HandlerPlan(ty.value, s.error, t)
      case Some(p) => Perform(s, p, resp)
      case None => Step(s.(error := s.error + 1, errbuff := s.errbuff + [InvalidTypeMessage(ty.value)]), -1)
  }

  /** The result shaping at the end of `emit`. */
  function Shape(s: EmitterState, finalize: bool): EmitReturn
  {
    if s.error != 0 then (if s.error == 1 then Failed(Concat(s.errbuff)) else AssertFailed)
    else if finalize then Finished(s.yamlbuff)
    else Succeeded
  }

  /** One whole `emit(table)` call: the new state and the result. */
  function EmitSpec(s: EmitterState, t: Fields, resp: EngineResponse): (EmitterState, EmitReturn)
  {
    var d := Dispatch(s, t, resp);
    var s2 := if d.rc != 0 then d.state.(error := d.state.error + 1, errbuff := d.state.errbuff + [EngineFailedMessage])
              else d.state;
    (s2, Shape(s2, GetString(t, "type") == Some("STREAM_END")))
  }

  // ---------------------------------------------------------------------
  // The encoder object.

  class Emitter {
    var error: nat
    var errbuff: seq<string>
    var yamlbuff: seq<byte>
    /** The events the engine has been handed, oldest first. */
    var issued: seq<EngineEvent>

    function Snapshot(): EmitterState
      reads this
    {
      EmitterState(error, errbuff, yamlbuff, issued)
    }

    /** `Pemitter`: a fresh encoder with no errors and empty buffers. */
    constructor ()
      ensures Snapshot() == InitialState
    {
      error, errbuff, yamlbuff, issued := 0, [], [], [];
    }

    /** `append_output`: appends exactly `len` bytes of `str` and returns `len`. */
    method AppendOutput(str: seq<byte>, len: nat) returns (written: nat)
      requires len <= |str|
      modifies this`yamlbuff
      ensures yamlbuff == old(yamlbuff) + str[..len]
      ensures written == len
    {
      yamlbuff := yamlbuff + str[..len];
      written := len;
    }

    /** `fy_emit_event`: the engine takes the event, writes through `append_output`, and answers. */
    method FyEmitEvent(ev: EngineEvent, resp: EngineResponse) returns (rc: int)
      modifies this
      ensures Snapshot() == old(Snapshot()).(issued := old(issued) + [ev], yamlbuff := old(yamlbuff) + resp.written)
      ensures rc == if resp.accepted then 0 else -1
    {
      issued := issued + [ev];
      var n := AppendOutput(resp.written, |resp.written|);
      assert resp.written[..n] == resp.written;
      rc := if resp.accepted then 0 else -1;
    }

    method RecordError(msg: string)
      modifies this`error, this`errbuff
      ensures error == old(error) + 1 && errbuff == old(errbuff) + [msg]
    {
      error := error + 1;
      errbuff := errbuff + [msg];
    }

    method EmitStreamStart(t: Fields, resp: EngineResponse) returns (rc: int)
      modifies this
      ensures Step(Snapshot(), rc) == Perform(old(Snapshot()), StreamStartPlan(old(error), t), resp)
    {
      var encoding := GetString(t, "encoding");
      if encoding.Some? && encoding.value != "UTF8" {
        RecordError(InvalidEncodingMessage(encoding.value));
      }
      if error != 0 {
        return -1;
      }
      rc := FyEmitEvent(StreamStartEv, resp);
    }

    /** One element of `tag_directives`: its missing keys are recorded, and the entry is returned. */
    method ReadTagItem(item: Value) returns (d: TagDirective)
      modifies this`error, this`errbuff
      ensures error == old(error) + |ItemErrors(item)|
      ensures errbuff == old(errbuff) + ItemErrors(item)
      ensures d == TagItem(item)
    {
      var f := ItemFields(item);
      var handle := GetString(f, "handle");
      if handle.None? {
        RecordError(MissingHandleMessage);
      }
      var prefix := GetString(f, "prefix");
      if prefix.None? {
        RecordError(MissingPrefixMessage);
      }
      d := TagDirective(OrEmpty(handle), OrEmpty(prefix));
    }

    /** The `while (lua_next ...)` loop of `emit_DOCUMENT_START`: fills `ptrs` with running index `i`, then the NULL entry. */
    method FillTagDirectives(items: seq<Value>, ptrs: array<Option<TagDirective>>)
      requires ptrs.Length == |items| + 1
      modifies this`error, this`errbuff, ptrs
      ensures ptrs[..] == TagPointers(items)
      ensures error == old(error) + |TagErrors(items)|
      ensures errbuff == old(errbuff) + TagErrors(items)
    {
      var i := 0;
      while i < |items|
        invariant 0 <= i <= |items|
        invariant ptrs[..i] == TagPointers(items)[..i]
        invariant error == old(error) + |TagErrors(items[..i])|
        invariant errbuff == old(errbuff) + TagErrors(items[..i])
      {
        var d := ReadTagItem(items[i]);
        ptrs[i] := Some(d);
        TagErrorsStep(items, i);
        assert ptrs[..i + 1] == ptrs[..i] + [Some(d)];
        assert TagPointers(items)[..i + 1] == TagPointers(items)[..i] + [TagPointers(items)[i]];
        i := i + 1;
      }
      ptrs[i] := None;
      assert items[..i] == items;
      assert ptrs[..] == ptrs[..i] + [None];
      assert TagPointers(items) == TagPointers(items)[..i] + [None];
    }

    /** The `version_directive` part of `emit_DOCUMENT_START`. */
    method ReadVersionDirective(t: Fields) returns (version: Option<Version>)
      modifies this`error, this`errbuff
      ensures error == old(error) + |VersionDirective(old(error), t).0|
      ensures errbuff == old(errbuff) + VersionDirective(old(error), t).0
      ensures version == VersionDirective(old(error), t).1
    {
      version := None;
      var vd := GetTable(t, "version_directive");
      if vd.Some? {
        var major := GetInteger(vd.value.fields, "major");
        if major.None? {
          RecordError(MissingMajorMessage);
        }
        var minor: Option<int> := None;
        if error == 0 {
          minor := GetInteger(vd.value.fields, "minor");
          if minor.None? {
            RecordError(MissingMinorMessage);
          }
        }
        version := Some(Version(OrZero(major), OrZero(minor)));
      }
    }

    /** The `tag_directives` part of `emit_DOCUMENT_START`: the arrays are allocated and filled. */
    method ReadTagDirectives(t: Fields) returns (tags: Option<seq<Option<TagDirective>>>)
      modifies this`error, this`errbuff
      ensures error == old(error) + |TagDirectivesPart(t).0|
      ensures errbuff == old(errbuff) + TagDirectivesPart(t).0
      ensures tags == TagDirectivesPart(t).1
    {
      tags := None;
      var td := GetTable(t, "tag_directives");
      if td.Some? {
        var ptrs := new Option<TagDirective>[|td.value.items| + 1];
        FillTagDirectives(td.value.items, ptrs);
        tags := Some(ptrs[..]);
      }
    }

    method EmitDocumentStart(t: Fields, resp: EngineResponse) returns (rc: int)
      modifies this
      ensures Step(Snapshot(), rc) == Perform(old(Snapshot()), DocumentStartPlan(old(error), t), resp)
    {
      var version := ReadVersionDirective(t);
      var tags := ReadTagDirectives(t);
      var implicit := GetBoolean(t, "implicit", true);
      if error != 0 {
        return 0;
      }
      rc := FyEmitEvent(DocumentStartEv(implicit, version, tags), resp);
    }

    method EmitDocumentEnd(t: Fields, resp: EngineResponse) returns (rc: int)
      modifies this
      ensures Step(Snapshot(), rc) == Perform(old(Snapshot()), DocumentEndPlan(t), resp)
    {
      var implicit := GetBoolean(t, "implicit", false);
      rc := FyEmitEvent(DocumentEndEv(implicit), resp);
    }

    method EmitMappingStart(t: Fields, resp: EngineResponse) returns (rc: int)
      modifies this
      ensures Step(Snapshot(), rc) == Perform(old(Snapshot()), MappingStartPlan(t), resp)
    {
      var style := NodeStyleFromName(GetString(t, "style"));
      if style.Rejected? {
        RecordError(InvalidMappingStyleMessage(style.name));
      }
      var anchor := GetString(t, "anchor");
      var tag := GetString(t, "tag");
      // `implicit` is read and discarded: the engine has no such argument.
      rc := FyEmitEvent(MappingStartEv(NodeStyleArg(style), anchor, tag), resp);
    }

    method EmitSequenceStart(t: Fields, resp: EngineResponse) returns (rc: int)
      modifies this
      ensures Step(Snapshot(), rc) == Perform(old(Snapshot()), SequenceStartPlan(t), resp)
    {
      var style := NodeStyleFromName(GetString(t, "style"));
      if style.Rejected? {
        RecordError(InvalidSequenceStyleMessage(style.name));
      }
      var anchor := GetString(t, "anchor");
      var tag := GetString(t, "tag");
      rc := FyEmitEvent(SequenceStartEv(NodeStyleArg(style), anchor, tag), resp);
    }

    method EmitScalar(t: Fields, resp: EngineResponse) returns (rc: int)
      modifies this
      ensures Step(Snapshot(), rc) == Perform(old(Snapshot()), ScalarPlan(t), resp)
    {
      var style := ScalarStyleFromName(GetString(t, "style"));
      if style.Rejected? {
        RecordError(InvalidScalarStyleMessage(style.name));
      }
      var anchor := GetString(t, "anchor");
      var tag := GetString(t, "tag");
      // The value is passed NUL-terminated, so the engine sees its C string;
      // `plain_implicit` and `quoted_implicit` are read and discarded.
      var value := GetString(t, "value");
      rc := FyEmitEvent(ScalarEv(ScalarStyleArg(style), value, anchor, tag), resp);
    }

    method EmitAlias(t: Fields, resp: EngineResponse) returns (rc: int)
      modifies this
      ensures Step(Snapshot(), rc) == Perform(old(Snapshot()), AliasPlan(t), resp)
    {
      var anchor := GetString(t, "anchor");
      rc := FyEmitEvent(AliasEv(anchor), resp);
    }

    method EmitPlain(ev: EngineEvent, resp: EngineResponse) returns (rc: int)
      modifies this
      ensures Step(Snapshot(), rc) == Perform(old(Snapshot()), Plan([], Issue(ev)), resp)
    {
      rc := FyEmitEvent(ev, resp);
    }

    /** `emit`: dispatch on `type`, then shape the result. */
    method Emit(t: Fields, resp: EngineResponse) returns (r: EmitReturn)
      modifies this
      ensures (Snapshot(), r) == EmitSpec(old(Snapshot()), t, resp)
    {
      var rc := -1;
      var ty := GetString(t, "type");
      if ty.None? {
        RecordError(NoTypeMessage);
      } else if ty.value == "SCALAR" {
        rc := EmitScalar(t, resp);
      } else if ty.value == "MAPPING_START" {
        rc := EmitMappingStart(t, resp);
      } else if ty.value == "MAPPING_END" {
        rc := EmitPlain(MappingEndEv, resp);
      } else if ty.value == "SEQUENCE_START" {
        rc := EmitSequenceStart(t, resp);
      } else if ty.value == "SEQUENCE_END" {
        rc := EmitPlain(SequenceEndEv, resp);
      } else if ty.value == "DOCUMENT_START" {
        rc := EmitDocumentStart(t, resp);
      } else if ty.value == "DOCUMENT_END" {
        rc := EmitDocumentEnd(t, resp);
      } else if ty.value == "STREAM_START" {
        rc := EmitStreamStart(t, resp);
      } else if ty.value == "STREAM_END" {
        rc := EmitPlain(StreamEndEv, resp);
      } else if ty.value == "ALIAS" {
        rc := EmitAlias(t, resp);
      } else {
        RecordError(InvalidTypeMessage(ty.value));
      }
      var finalize := ty == Some("STREAM_END");
      if rc != 0 {
        RecordError(EngineFailedMessage);
      }
      if error != 0 {
        if error != 1 {
          return AssertFailed;
        }
        return Failed(Concat(errbuff));
      }
      if finalize {
        return Finished(yamlbuff);
      }
      return Succeeded;
    }
  }
}
