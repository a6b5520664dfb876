/**
 * Properties of one `emit(table)` call and of its handlers, stated over
 * the specification functions the `Emitter` methods are proved against.
 */
module EncoderProperties {
  import opened Lua
  import opened Vocabulary
  import opened EventEncoder

  /** A table whose `type` field is the string `kind`. */
  predicate HasType(t: Fields, kind: string)
  {
    GetString(t, "type") == Some(kind)
  }

  // ---------------------------------------------------------------------
  // Result shaping and the life of the error counter.

  /** The result is `false, errbuf` exactly when one error is counted, the assertion trips beyond one, `true, text` after STREAM_END, else `true`. */
  lemma ResultShape(s: EmitterState, t: Fields, resp: EngineResponse)
    ensures var (s2, r) := EmitSpec(s, t, resp);
      && (r.Failed? <==> s2.error == 1)
      && (r.Failed? ==> r.message == Concat(s2.errbuff))
      && (r.AssertFailed? <==> s2.error > 1)
      && (r.Finished? <==> s2.error == 0 && HasType(t, "STREAM_END"))
      && (r.Finished? ==> r.text == s2.yamlbuff)
      && (r.Succeeded? <==> s2.error == 0 && !HasType(t, "STREAM_END"))
  {
  }

  /** Nothing is ever taken back: the counter, the error buffer, the output and the engine's record only grow, and once an error is counted no later call succeeds. */
  lemma ErrorsArePermanent(s: EmitterState, t: Fields, resp: EngineResponse)
    ensures var (s2, r) := EmitSpec(s, t, resp);
      && s2.error >= s.error
      && s.errbuff <= s2.errbuff
      && s.yamlbuff <= s2.yamlbuff
      && s.issued <= s2.issued
      && (s.error != 0 ==> r.Failed? || r.AssertFailed?)
  {
  }

  /** Every counted error comes with exactly one message, so the counter always equals the number of messages. */
  lemma CounterMatchesMessages(s: EmitterState, t: Fields, resp: EngineResponse)
    requires s.error == |s.errbuff|
    ensures EmitSpec(s, t, resp).0.error == |EmitSpec(s, t, resp).0.errbuff|
  {
  }

  /** The error text only grows at its end: after a call it is the earlier text followed by that call's messages, in order. */
  lemma ErrorTextExtends(s: EmitterState, t: Fields, resp: EngineResponse)
    ensures var s2 := EmitSpec(s, t, resp).0;
      && s.errbuff <= s2.errbuff
      && Concat(s2.errbuff) == Concat(s.errbuff) + Concat(s2.errbuff[|s.errbuff|..])
  {
    var s2 := EmitSpec(s, t, resp).0;
    ErrorsArePermanent(s, t, resp);
    assert s2.errbuff == s.errbuff + s2.errbuff[|s.errbuff|..];
    ConcatAppend(s.errbuff, s2.errbuff[|s.errbuff|..]);
  }

  /** From a state without errors, a failing call reports exactly one message. */
  lemma FailureCarriesOneMessage(s: EmitterState, t: Fields, resp: EngineResponse)
    requires s.error == 0 && s.errbuff == []
    ensures var (s2, r) := EmitSpec(s, t, resp);
      r.Failed? ==> |s2.errbuff| == 1 && r.message == s2.errbuff[0]
  {
    var (s2, r) := EmitSpec(s, t, resp);
    CounterMatchesMessages(s, t, resp);
    if r.Failed? {
      assert s2.errbuff == [s2.errbuff[0]];
      ConcatOne(s2.errbuff[0]);
    }
  }

  /** At most one event reaches the engine, it is of the kind the `type` field names, and output grows only when an event was issued. */
  lemma AtMostOneEngineEvent(s: EmitterState, t: Fields, resp: EngineResponse)
    ensures var s2 := EmitSpec(s, t, resp).0;
      || (s2.issued == s.issued && s2.yamlbuff == s.yamlbuff)
      || (&& s2.issued == s.issued + [s2.issued[|s.issued|]]
          && GetString(t, "type").Some?
          && EngineEventName(s2.issued[|s.issued|]) == GetString(t, "type").value
          && s2.yamlbuff == s.yamlbuff + resp.written)
  {
    var ty := GetString(t, "type");
    if ty.Some? {
      var p := HandlerPlan(ty.value, s.error, t);
      if p.Some? && p.value.action.Issue? {
        var s2 := EmitSpec(s, t, resp).0;
        assert s2.issued == s.issued + [p.value.action.ev];
      }
    }
  }

  // ---------------------------------------------------------------------
  // Dispatch.

  /** A table without a `type` string records "no type field in event table"; as `rc` is still -1 the engine failure is appended as well and the assertion trips. */
  lemma MissingTypeTripsAssert(s: EmitterState, t: Fields, resp: EngineResponse)
    requires GetString(t, "type").None?
    ensures EmitSpec(s, t, resp) ==
      (s.(error := s.error + 2, errbuff := s.errbuff + [NoTypeMessage, EngineFailedMessage]), AssertFailed)
  {
    assert s.errbuff + [NoTypeMessage] + [EngineFailedMessage] == s.errbuff + [NoTypeMessage, EngineFailedMessage];
  }

  /** An unrecognised `type` records "invalid event type '<t>'", then the engine failure, and the assertion trips; the engine is not called. */
  lemma UnknownTypeTripsAssert(s: EmitterState, t: Fields, resp: EngineResponse, kind: string)
    requires HasType(t, kind) && kind !in KnownKinds
    ensures EmitSpec(s, t, resp) ==
      (s.(error := s.error + 2, errbuff := s.errbuff + [InvalidTypeMessage(kind), EngineFailedMessage]), AssertFailed)
  {
    assert s.errbuff + [InvalidTypeMessage(kind)] + [EngineFailedMessage]
      == s.errbuff + [InvalidTypeMessage(kind), EngineFailedMessage];
  }

  /** A rejected event the engine does not accept (clean state, no validation error) is reported as "libfyaml emit failed". */
  lemma EngineFailureReported(s: EmitterState, t: Fields, resp: EngineResponse, kind: string)
    requires HasType(t, kind) && s.error == 0
    requires HandlerPlan(kind, 0, t).Some?
    requires HandlerPlan(kind, 0, t).value.errors == [] && HandlerPlan(kind, 0, t).value.action.Issue?
    requires !resp.accepted
    ensures EmitSpec(s, t, resp).1 == Failed(Concat(s.errbuff + [EngineFailedMessage]))
    ensures EmitSpec(s, t, resp).0.issued == s.issued + [HandlerPlan(kind, 0, t).value.action.ev]
  {
    assert s.errbuff + [] == s.errbuff;
  }

  /**
   * The `rc != 0` rule of `emit`, for any state and any handler: a handler
   * that returns a non-zero code, or whose event the engine refuses, costs
   * one more error and appends "libfyaml emit failed" after the handler's
   * own messages; otherwise the call adds the handler's messages and
   * nothing else. The event, if the plan has one, is handed over either way.
   */
  lemma EngineFailureRule(s: EmitterState, t: Fields, resp: EngineResponse, kind: string, p: Plan)
    requires HasType(t, kind)
    requires HandlerPlan(kind, s.error, t) == Some(p)
    ensures var s2 := EmitSpec(s, t, resp).0;
      var refused := (p.action.Return? && p.action.rc != 0) || (p.action.Issue? && !resp.accepted);
      && s2.error == s.error + |p.errors| + (if refused then 1 else 0)
      && s2.errbuff == s.errbuff + p.errors + (if refused then [EngineFailedMessage] else [])
      && s2.issued == s.issued + (if p.action.Issue? then [p.action.ev] else [])
      && s2.yamlbuff == s.yamlbuff + (if p.action.Issue? then resp.written else [])
  {
    var d := Dispatch(s, t, resp);
    assert d == Perform(s, p, resp);
    var noMessages: seq<string> := [];
    var noEvents: seq<EngineEvent> := [];
    var noBytes: seq<byte> := [];
    assert s.errbuff + p.errors + noMessages == s.errbuff + p.errors;
    assert s.issued + noEvents == s.issued;
    assert s.yamlbuff + noBytes == s.yamlbuff;
  }

  /** A valid event the engine accepts succeeds; after STREAM_END the whole accumulated output is returned. */
  lemma CleanEventSucceeds(s: EmitterState, t: Fields, resp: EngineResponse, kind: string)
    requires HasType(t, kind) && s.error == 0
    requires HandlerPlan(kind, 0, t).Some?
    requires HandlerPlan(kind, 0, t).value.errors == [] && HandlerPlan(kind, 0, t).value.action.Issue?
    requires resp.accepted
    ensures EmitSpec(s, t, resp).1 ==
      if kind == "STREAM_END" then Finished(s.yamlbuff + resp.written) else Succeeded
  {
  }

  // ---------------------------------------------------------------------
  // STREAM_START.

  /** An absent encoding or exactly "UTF8" is accepted and STREAM_START reaches the engine. */
  lemma StreamStartAcceptsUtf8(t: Fields)
    requires GetString(t, "encoding").None? || GetString(t, "encoding") == Some("UTF8")
    ensures StreamStartPlan(0, t) == Plan([], Issue(StreamStartEv))
  {
  }

  /** Any other encoding records "invalid stream encoding '<e>'" and returns -1 before the engine; `emit` then adds the engine failure and the assertion trips. */
  lemma InvalidEncodingTripsAssert(s: EmitterState, t: Fields, resp: EngineResponse, e: string)
    requires HasType(t, "STREAM_START") && s.error == 0
    requires GetString(t, "encoding") == Some(e) && e != "UTF8"
    ensures StreamStartPlan(0, t) == Plan([InvalidEncodingMessage(e)], Return(-1))
    ensures EmitSpec(s, t, resp) ==
      (s.(error := 2, errbuff := s.errbuff + [InvalidEncodingMessage(e), EngineFailedMessage]), AssertFailed)
  {
    assert s.errbuff + [InvalidEncodingMessage(e)] + [EngineFailedMessage]
      == s.errbuff + [InvalidEncodingMessage(e), EngineFailedMessage];
  }

  /** After any earlier error STREAM_START never reaches the engine. */
  lemma StreamStartAfterError(prior: nat, t: Fields)
    requires prior != 0
    ensures StreamStartPlan(prior, t).action == Return(-1)
  {
  }

  // ---------------------------------------------------------------------
  // DOCUMENT_START and DOCUMENT_END.

  /** A `version_directive` without `major` records its message; `minor` is not looked at, whatever it holds. */
  lemma MissingMajorSkipsMinor(t: Fields, vd: Fields, items: seq<Value>)
    requires GetTable(t, "version_directive") == Some(Table(vd, items))
    requires "major" !in vd
    ensures VersionDirective(0, t) == ([MissingMajorMessage], Some(Version(0, 0)))
  {
  }

  /** With an error already counted, `minor` is not examined either. */
  lemma MinorOnlyWithoutErrors(prior: nat, t: Fields)
    requires prior != 0
    ensures VersionDirective(prior, t).0 == (if GetTable(t, "version_directive").Some? && GetInteger(GetTable(t, "version_directive").value.fields, "major").None? then [MissingMajorMessage] else [])
  {
  }

  /** With both keys present the version is handed to the engine as given. */
  lemma VersionDirectivePassedOn(t: Fields, major: int, minor: int)
    requires GetTable(t, "version_directive").Some?
    requires GetInteger(GetTable(t, "version_directive").value.fields, "major") == Some(major)
    requires GetInteger(GetTable(t, "version_directive").value.fields, "minor") == Some(minor)
    ensures VersionDirective(0, t) == ([], Some(Version(major, minor)))
  {
    var noErrors: seq<string> := [];
    assert noErrors + noErrors == [];
  }

  /** Any recorded error makes DOCUMENT_START return 0 without an engine event; so a single error yields `false, message` and leaves the engine untouched. */
  lemma DocumentStartErrorSkipsEngine(s: EmitterState, t: Fields, resp: EngineResponse)
    requires HasType(t, "DOCUMENT_START")
    requires s.error + |DocumentStartPlan(s.error, t).errors| != 0
    ensures DocumentStartPlan(s.error, t).action == Return(0)
    ensures EmitSpec(s, t, resp).0.issued == s.issued
    ensures EmitSpec(s, t, resp).0.yamlbuff == s.yamlbuff
    ensures s.error + |DocumentStartPlan(s.error, t).errors| == 1 ==>
      EmitSpec(s, t, resp).1 == Failed(Concat(s.errbuff + DocumentStartPlan(s.error, t).errors))
  {
  }

  /** The `tag_directivesp` array: one entry per list element, in order, each with that element's handle and prefix, then a single NULL. */
  lemma TagPointersInOrder(items: seq<Value>)
    ensures |TagPointers(items)| == |items| + 1
    ensures TagPointers(items)[|items|] == None
    ensures forall i :: 0 <= i < |items| ==>
      TagPointers(items)[i] == Some(TagDirective(OrEmpty(GetString(ItemFields(items[i]), "handle")),
                                                 OrEmpty(GetString(ItemFields(items[i]), "prefix"))))
  {
  }

  /** A tag-directive list records no error exactly when every element has both a `handle` and a `prefix` string. */
  lemma {:induction false} TagErrorsExactlyMissingKeys(items: seq<Value>)
    ensures TagErrors(items) == [] <==>
      forall i :: 0 <= i < |items| ==>
        GetString(ItemFields(items[i]), "handle").Some? && GetString(ItemFields(items[i]), "prefix").Some?
  {
    if items != [] {
      var init, last := items[..|items| - 1], items[|items| - 1];
      TagErrorsExactlyMissingKeys(init);
      ItemErrorsCount(last);
      assert TagErrors(items) == TagErrors(init) + ItemErrors(last);
      assert forall i :: 0 <= i < |init| ==> init[i] == items[i];
    }
  }

  /** The number of elements of a tag-directive list whose `key` gives no string. */
  function Lacking(items: seq<Value>, key: string): nat
  {
    if items == [] then 0
    else Lacking(items[..|items| - 1], key) + (if GetString(ItemFields(items[|items| - 1]), key).None? then 1 else 0)
  }

  /**
   * Each missing key costs one message: a tag-directive list records the
   * handle message once per element without a `handle` string, the prefix
   * message once per element without a `prefix` string, and nothing else.
   */
  lemma {:induction false} TagErrorsCount(items: seq<Value>)
    ensures multiset(TagErrors(items))[MissingHandleMessage] == Lacking(items, "handle")
    ensures multiset(TagErrors(items))[MissingPrefixMessage] == Lacking(items, "prefix")
    ensures |TagErrors(items)| == Lacking(items, "handle") + Lacking(items, "prefix")
    ensures |TagErrors(items)| <= 2 * |items|
    ensures forall m :: m in TagErrors(items) ==> m == MissingHandleMessage || m == MissingPrefixMessage
  {
    if items != [] {
      var init, last := items[..|items| - 1], items[|items| - 1];
      TagErrorsCount(init);
      ItemErrorsCount(last);
      assert TagErrors(items) == TagErrors(init) + ItemErrors(last);
      assert multiset(TagErrors(items)) == multiset(TagErrors(init)) + multiset(ItemErrors(last));
    }
  }

  /** One element: the handle message exactly when `handle` gives no string, the prefix message exactly when `prefix` gives none. */
  lemma ItemErrorsCount(item: Value)
    ensures multiset(ItemErrors(item))[MissingHandleMessage] == if GetString(ItemFields(item), "handle").None? then 1 else 0
    ensures multiset(ItemErrors(item))[MissingPrefixMessage] == if GetString(ItemFields(item), "prefix").None? then 1 else 0
    ensures |ItemErrors(item)| <= 2
    ensures forall m :: m in ItemErrors(item) ==> m == MissingHandleMessage || m == MissingPrefixMessage
  {
    assert MissingHandleMessage != MissingPrefixMessage;
  }

  /**
   * The as-written loop body dereferences NULL exactly for the elements the
   * intended reading reports, and agrees with it on every other element.
   */
  lemma TagItemAsWrittenAgrees(item: Value)
    ensures TagItemAsWritten(item).1.NullDereference? <==> ItemErrors(item) != []
    ensures ItemErrors(item) == [] ==> TagItemAsWritten(item) == ([], ItemRead(TagItem(item)))
  {
    var noErrors: seq<string> := [];
    assert noErrors + noErrors == noErrors;
  }

  /** As written, an element without `handle` records its message and then hands NULL to `strlen`. */
  lemma AsWrittenMissingHandleDereferencesNull()
    ensures TagItemAsWritten(Table(map["prefix" := Str("!")], [])) == ([MissingHandleMessage], NullDereference)
  {
  }

  /** As written, an element whose `handle` is not a string records nothing and hands NULL to `strlen`; the intended reading reports it. */
  lemma AsWrittenNonStringHandleGoesUnreported()
    ensures TagItemAsWritten(Table(map["handle" := Bool(true), "prefix" := Str("!")], [])) == ([], NullDereference)
    ensures ItemErrors(Table(map["handle" := Bool(true), "prefix" := Str("!")], [])) == [MissingHandleMessage]
  {
    CStrOfNulFree("!");
    var noErrors: seq<string> := [];
    assert [MissingHandleMessage] + noErrors == [MissingHandleMessage];
  }

  /**
   * The intended behaviour: a `tag_directives` element whose `handle` or
   * `prefix` gives no string makes DOCUMENT_START record the message and
   * return without touching the engine.
   */
  lemma BadTagDirectiveSkipsEngine(s: EmitterState, t: Fields, resp: EngineResponse, f: Fields, items: seq<Value>, i: nat)
    requires HasType(t, "DOCUMENT_START") && s.error == 0
    requires GetTable(t, "tag_directives") == Some(Table(f, items))
    requires i < |items| && ItemErrors(items[i]) != []
    ensures DocumentStartPlan(0, t).action == Return(0)
    ensures TagErrors(items) != []
    ensures EmitSpec(s, t, resp).0.issued == s.issued && EmitSpec(s, t, resp).0.yamlbuff == s.yamlbuff
  {
    TagErrorsExactlyMissingKeys(items);
    assert GetString(ItemFields(items[i]), "handle").None? || GetString(ItemFields(items[i]), "prefix").None?;
    assert TagDirectivesPart(t).0 == TagErrors(items);
    DocumentStartErrorSkipsEngine(s, t, resp);
  }

  /** `implicit` defaults to true on DOCUMENT_START and to false on DOCUMENT_END. */
  lemma ImplicitDefaults(t: Fields)
    requires "implicit" !in t
    requires DocumentStartPlan(0, t).action.Issue?
    ensures DocumentStartPlan(0, t).action.ev.implicit
    ensures DocumentEndPlan(t) == Plan([], Issue(DocumentEndEv(false)))
  {
  }

  // ---------------------------------------------------------------------
  // Collections, scalars and aliases.

  /** `implicit` on MAPPING_START and SEQUENCE_START, and `plain_implicit`, `quoted_implicit` and `implicit` on SCALAR, never change what the handler does. */
  lemma ImplicitFlagsIgnored(t: Fields, v: Value)
    ensures MappingStartPlan(t["implicit" := v]) == MappingStartPlan(t)
    ensures SequenceStartPlan(t["implicit" := v]) == SequenceStartPlan(t)
    ensures ScalarPlan(t["plain_implicit" := v]) == ScalarPlan(t)
    ensures ScalarPlan(t["quoted_implicit" := v]) == ScalarPlan(t)
    ensures ScalarPlan(t["implicit" := v]) == ScalarPlan(t)
  {
  }

  /** A mapping style is accepted exactly when absent, "BLOCK" or "FLOW"; anything else records "invalid mapping style '<s>'" and the engine is called all the same, with the style left unset. */
  lemma MappingStyleValidation(t: Fields, name: string)
    requires GetString(t, "style") == Some(name)
    ensures MappingStartPlan(t).action.Issue?
    ensures MappingStartPlan(t).errors == [] <==> name == "BLOCK" || name == "FLOW"
    ensures MappingStartPlan(t).errors != [] ==>
      && MappingStartPlan(t).errors == [InvalidMappingStyleMessage(name)]
      && MappingStartPlan(t).action.ev.nodeStyle == Uninitialized
  {
  }

  /** A sequence style is accepted exactly when absent, "BLOCK" or "FLOW"; anything else records "invalid sequence style '<s>'" and the engine is still called. */
  lemma SequenceStyleValidation(t: Fields, name: string)
    requires GetString(t, "style") == Some(name)
    ensures SequenceStartPlan(t).action.Issue?
    ensures SequenceStartPlan(t).errors == [] <==> name == "BLOCK" || name == "FLOW"
    ensures SequenceStartPlan(t).errors != [] ==>
      && SequenceStartPlan(t).errors == [InvalidSequenceStyleMessage(name)]
      && SequenceStartPlan(t).action.ev.nodeStyle == Uninitialized
  {
  }

  /** A scalar style is accepted exactly when it is one of the five names PLAIN ... FOLDED; "ANY" and everything else record "invalid scalar style '<s>'". */
  lemma ScalarStyleValidation(t: Fields, name: string)
    requires GetString(t, "style") == Some(name)
    ensures ScalarPlan(t).errors == [] <==>
      name in {"PLAIN", "SINGLE_QUOTED", "DOUBLE_QUOTED", "LITERAL", "FOLDED"}
    ensures ScalarPlan(t).errors != [] ==>
      && ScalarPlan(t).errors == [InvalidScalarStyleMessage(name)]
      && ScalarPlan(t).action.ev.scalarStyle == Uninitialized
  {
  }

  /** A rejected mapping style on a clean emitter gives `false, "invalid mapping style '<s>'"` if the engine accepts the unset style, and trips the assertion if it does not. */
  lemma InvalidMappingStyleOutcome(s: EmitterState, t: Fields, resp: EngineResponse, name: string)
    requires HasType(t, "MAPPING_START") && s.error == 0
    requires GetString(t, "style") == Some(name) && name != "BLOCK" && name != "FLOW"
    ensures EmitSpec(s, t, resp).0.issued ==
      s.issued + [MappingStartEv(Uninitialized, GetString(t, "anchor"), GetString(t, "tag"))]
    ensures EmitSpec(s, t, resp).1 ==
      if resp.accepted then Failed(Concat(s.errbuff + [InvalidMappingStyleMessage(name)])) else AssertFailed
  {
  }

  /** The scalar value reaches the engine as its C string: with `FY_NT` its length is ignored, and an embedded zero byte cuts it short. */
  lemma ScalarValueIsCString(t: Fields, v: string)
    ensures ScalarPlan(t["value" := Str(v)]).action.ev.value == Some(CStr(v))
    ensures '\0' !in ScalarPlan(t["value" := Str(v)]).action.ev.value.value
  {
    CStrIsNulFreePrefix(v);
  }

  lemma EmbeddedZeroTruncates(t: Fields)
    ensures ScalarPlan(t["value" := Str("a\0b")]).action.ev.value == Some("a")
  {
    assert CStr("a\0b") == "a" by {
      assert "a\0b"[1..] == "\0b";
    }
  }

  /** ALIAS does not check for an anchor: without one the engine is handed an unset anchor and no error is recorded. */
  lemma AliasWithoutAnchor(s: EmitterState, t: Fields, resp: EngineResponse)
    requires HasType(t, "ALIAS") && s.error == 0 && resp.accepted
    requires "anchor" !in t
    ensures EmitSpec(s, t, resp) ==
      (s.(issued := s.issued + [AliasEv(None)], yamlbuff := s.yamlbuff + resp.written), Succeeded)
  {
    assert s.errbuff + [] == s.errbuff;
  }
}
