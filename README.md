# lyaml's libfyaml binding: the event encoder and the event decoder

lyaml binds the libfyaml YAML engine to Lua through two translators between
a Lua table that describes one YAML event and calls on the engine:

- the **event encoder** (`ext/yaml/emitter.c`). It is an object holding an error counter,
  an error-message buffer, an output accumulator and an engine handle. Each
  `emit(table)` does four things:
  - it dispatches on the table's `type` name;
  - it validates and converts the fields of that kind;
  - it hands at most one event to the engine;
  - it answers `false, message`, `true`, or `true, text` after `STREAM_END`.
- the **event decoder** (`ext/yaml/parser.c`). It is an iterator holding the event in flight
  and a document count. Each call does three things:
  - it releases the held event;
  - it pulls the next event from the engine;
  - it turns that event into a table, or raises an error.

The engine stays abstract:
- The encoder is given, per call, what the engine does with the event it
  is handed: the bytes it writes through `append_output`, and whether
  `fy_emit_event` succeeds. The model records every event handed over.
- The decoder is given the sequence of results `fy_parser_parse` will
  return. `None` stands for NULL.

Files:

| file | module | contents |
|---|---|---|
| `lua.dfy` | `Lua` | Lua values as the C code reads them. `CStr` is the `const char *` view, cut at the first zero byte. The field readers come next. `%d` decimal formatting ends the file. |
| `vocabulary.dfy` | `Vocabulary` | The node and scalar styles and their names. The encoder's name-to-style lookups. The version and tag-directive records. |
| `emitter.dfy` | `EventEncoder` | Each handler as a *plan*: the errors it records, then either the engine event it issues or the code it returns. `EmitSpec` is a whole `emit` call on an `EmitterState`. The class `Emitter` has the C struct's fields. Its methods mirror the C functions, and each one is proved equal to its plan. |
| `emitter_properties.dfy` | `EncoderProperties` | What `emit` promises: result shaping, the life of the error counter, validation of every kind, defaults, and ignored fields. |
| `parser.dfy` | `EventDecoder` | `Translate` turns an engine event into a table or an error. `IterSpec` is a whole `event_iter` call. `GcSpec` is `parser_gc`. The class `Parser` has the C struct's fields, and its methods are proved against those functions. |
| `parser_properties.dfy` | `DecoderProperties` | The held-event discipline. A parser invariant: every pulled event is released exactly once, in order, and the count equals the number of DOCUMENT_START events. The shape of every table. |
| `roundtrip.dfy` | `RoundTrip` | A table from the decoder, handed to the encoder, makes it issue the engine event `Reencoded` describes. That is the decoded event with two changes. Every text is its C string. An anchor, tag or scalar value the engine did not give comes back as "", not as NULL. An ANY style is refused by name. |

`lyaml.h`, which defines the `RAWGET_*`, `RAWSET_*` and `ERROR_IFNIL`
macros, is not part of this model. The model reads them as follows:
- A string field is what `lua_tostring` gives C. A string is cut at its first zero byte. An integer is written in decimal. Anything else is NULL.
- A boolean field keeps its default when absent. Otherwise it is Lua truthiness.
- An integer field is unset when absent, its value when an integer, and 0 otherwise.
- `ERROR_IFNIL` counts an error and appends its message when the key is absent.

The model follows the code where one might expect otherwise:
- `ALIAS` is not checked for an anchor.
- A scalar's value is cut at an embedded zero byte (`FY_NT`).
- An invalid mapping or sequence style still reaches the engine, with an unset style.
- An invalid STREAM_START encoding, a missing `type` and an unknown `type` each count two errors. The assertion `error == 1` then fails; this is the result `AssertFailed`.
- The error counter is never reset.
- The decoder reports an unknown scalar style as "invalid sequence style N".
- The decoder writes "" for an anchor, tag or scalar value the engine does not give (parser.c:195-203, 243-248, 286-291). The encoder hands that "" to the engine as an empty text, not as NULL (emitter.c:197-198, 241-242, 288-289). So a node without an anchor or tag is re-emitted with an empty anchor and tag.

## Model

| member | source | states |
|---|---|---|
| `Lua.CStrIsNulFreePrefix` | ext/yaml/emitter.c:288-299 | The text C sees in a Lua string is a prefix of it without zero bytes, stopping exactly at the first zero byte. |
| `Lua.CStrIdempotent` | ext/yaml/parser.c:195-208 | Cutting at the first zero byte twice gives the same text as cutting once. So a text the decoder pushes as a C string reaches the encoder unchanged. |
| `Lua.NatToStringReadsBack` | ext/yaml/parser.c:315 | The `%d` text of a count reads back as that count. |
| `Lua.GetString` | ext/yaml/emitter.c:124 | `RAWGET_YAML_CHARP`/`RAWGET_STRDUP` as `lua_tostring` gives it. There is a text exactly when the field is a string or an integer. A string is cut at its first zero byte. An integer is written in decimal. |
| `Lua.GetBoolean` | ext/yaml/emitter.c:149 | `RAWGET_BOOLEAN` with Lua truthiness: false exactly when the field is `false`, or absent with a false default. |
| `Lua.GetInteger` | ext/yaml/emitter.c:101 | `RAWGETS_INTEGER`: unset exactly when the key is absent; an integer is its value; any other value reads as 0. |
| `Lua.GetTable` | ext/yaml/emitter.c:98 | `RAWGET_PUSHTABLE`: a table exactly when the field holds one, and then that table. |
| `Vocabulary.NodeStyleFromName` | ext/yaml/emitter.c:185-194 | Collection style lookup: absent gives ANY; a chosen style is BLOCK or FLOW and carries exactly the given name; a rejected name is handed back and matches no style other than ANY. |
| `Vocabulary.ScalarStyleFromName` | ext/yaml/emitter.c:273-285 | Scalar style lookup: absent gives ANY; a chosen style is one of the five non-ANY styles with exactly that name; any other name, "ANY" included, is rejected and handed back. |
| `Vocabulary.NodeStyleNameRoundTrip` | ext/yaml/parser.c:228-236 | A collection style name the decoder writes is looked up by the encoder as that style, except "ANY", which is rejected. |
| `Vocabulary.ScalarStyleNameRoundTrip` | ext/yaml/parser.c:176-188 | A scalar style name the decoder writes is looked up by the encoder as that style, except "ANY", which is rejected. |
| `Vocabulary.NodeStyleNamesDistinct` | ext/yaml/parser.c:270-279 | Distinct collection styles get distinct names. |
| `Vocabulary.ScalarStyleNamesDistinct` | ext/yaml/parser.c:176-193 | Distinct scalar styles get distinct names, so the scalar style map is total and one-to-one. |
| `Vocabulary.StyleNamesAreCaseSensitive` | ext/yaml/emitter.c:185-188 | "block" and "plain" are rejected: names match case-sensitively. |
| `EventEncoder.ConcatAppend` | ext/yaml/emitter.c:379-386 | The text of a buffer that has pieces appended is the old text followed by the new pieces' text. |
| `EventEncoder.TagErrorsStep` | ext/yaml/emitter.c:122-145 | One more loop element adds exactly that element's messages to the list's messages. |
| `EventEncoder.TagItemAsWritten` | ext/yaml/emitter.c:124-133 | The loop body as written. At most two messages are recorded. When the body reads a directive without dereferencing NULL, it records nothing and reads the same directive as the intended reading. |
| `EventEncoder.HandlerPlan` | ext/yaml/emitter.c:336-355 | Exactly the ten recognised `type` names have a handler, and an event a handler issues is of the kind its name says. |
| `EventEncoder.Emitter.constructor` | ext/yaml/emitter.c:434-435 | A new emitter has no error, no messages, no output and has issued nothing. |
| `EventEncoder.Emitter.AppendOutput` | ext/yaml/emitter.c:403-410 | Appends exactly the first `len` bytes of `str` to the output, returns `len`, and changes nothing else. |
| `EventEncoder.Emitter.FyEmitEvent` | ext/yaml/emitter.c:80-81 | Hands one event to the engine, appends what the engine writes, and returns 0 exactly when the engine accepts. |
| `EventEncoder.Emitter.RecordError` | ext/yaml/emitter.c:59-62 | Counts one error and appends its message. |
| `EventEncoder.Emitter.EmitStreamStart` | ext/yaml/emitter.c:48-73 | The state and return code are those of `StreamStartPlan`: a non-UTF8 encoding is recorded, and any error returns -1 before the engine. |
| `EventEncoder.Emitter.ReadTagItem` | ext/yaml/emitter.c:124-137 | One list element: records each key that gives no string, and returns the directive built from both texts. |
| `EventEncoder.Emitter.FillTagDirectives` | ext/yaml/emitter.c:115-145 | The loop with running index `i`: the pointer array becomes one entry per element in order, then a NULL entry; the errors are those of every element, in order. |
| `EventEncoder.Emitter.ReadVersionDirective` | ext/yaml/emitter.c:98-110 | Records a missing `major`; reads `minor` only while no error is counted; hands on the version whenever the table is there. |
| `EventEncoder.Emitter.ReadTagDirectives` | ext/yaml/emitter.c:112-147 | Without a list, passes NULL. Otherwise it allocates `count + 1` entries and fills them. |
| `EventEncoder.Emitter.EmitDocumentStart` | ext/yaml/emitter.c:87-157 | The state and return code are those of `DocumentStartPlan`: after any error it returns 0 without an engine event. |
| `EventEncoder.Emitter.EmitDocumentEnd` | ext/yaml/emitter.c:161-171 | Issues DOCUMENT_END with `implicit`, default false. |
| `EventEncoder.Emitter.EmitMappingStart` | ext/yaml/emitter.c:176-206 | The state follows `MappingStartPlan`. A bad style is recorded and the event is still issued. Anchor and tag pass through. `implicit` is ignored. |
| `EventEncoder.Emitter.EmitSequenceStart` | ext/yaml/emitter.c:220-250 | The state follows `SequenceStartPlan`, the same shape as MAPPING_START with the sequence message. |
| `EventEncoder.Emitter.EmitScalar` | ext/yaml/emitter.c:264-300 | The state follows `ScalarPlan`. A bad style is recorded. The value goes to the engine as its C string. The two implicit flags are ignored. |
| `EventEncoder.Emitter.EmitAlias` | ext/yaml/emitter.c:305-314 | Issues ALIAS with whatever anchor is there, NULL included. |
| `EventEncoder.Emitter.EmitPlain` | ext/yaml/emitter.c:77-82 | STREAM_END, MAPPING_END and SEQUENCE_END hand their bare event to the engine. |
| `EventEncoder.Emitter.Emit` | ext/yaml/emitter.c:318-400 | The new state and the result are those of `EmitSpec`. That covers dispatch, the engine-failure message when `rc != 0`, and the result shaping. |
| `EncoderProperties.ResultShape` | ext/yaml/emitter.c:379-399 | With errors counted, the result is `false, message` for exactly one error and `AssertFailed` for more. Otherwise it is `true, output` after STREAM_END and plain `true` for every other kind. |
| `EncoderProperties.ErrorsArePermanent` | ext/yaml/emitter.c:379-386 | Counter, messages, output and issued events only grow, and once an error is counted no later call succeeds. |
| `EncoderProperties.CounterMatchesMessages` | ext/yaml/emitter.c:331-374 | Every counted error comes with exactly one message. |
| `EncoderProperties.ErrorTextExtends` | ext/yaml/emitter.c:379-386 | Across a call the error text only grows at its end: it is the earlier text followed by the call's messages, in order. |
| `EncoderProperties.FailureCarriesOneMessage` | ext/yaml/emitter.c:379-386 | From a clean state, a `false` result carries exactly the one message recorded. |
| `EncoderProperties.AtMostOneEngineEvent` | ext/yaml/emitter.c:336-355 | A call hands at most one event to the engine. That event is of the named kind. Output grows only when an event was issued. |
| `EncoderProperties.MissingTypeTripsAssert` | ext/yaml/emitter.c:321-381 | Without a `type`, the call records "no type field in event table". It then records the engine failure as well, because `rc` is still -1, and the assertion fails. |
| `EncoderProperties.UnknownTypeTripsAssert` | ext/yaml/emitter.c:349-381 | An unknown `type` records "invalid event type '<t>'" and then the engine failure. The assertion fails and the engine is never called. |
| `EncoderProperties.EngineFailureReported` | ext/yaml/emitter.c:362-374 | A valid event that the engine refuses makes a clean emitter answer `false, "libfyaml emit failed"`. |
| `EncoderProperties.EngineFailureRule` | ext/yaml/emitter.c:362-374 | The rule for any state and any handler: a non-zero return code or a refused event adds the handler's messages, then "libfyaml emit failed", and counts one more error. Otherwise only the handler's messages are added. The issued event and the output are the plan's either way. |
| `EncoderProperties.CleanEventSucceeds` | ext/yaml/emitter.c:388-399 | A valid event the engine accepts succeeds; STREAM_END returns the whole accumulated output. |
| `EncoderProperties.StreamStartAcceptsUtf8` | ext/yaml/emitter.c:57-72 | An absent encoding or "UTF8" reaches the engine. |
| `EncoderProperties.InvalidEncodingTripsAssert` | ext/yaml/emitter.c:57-69 | Any other encoding records "invalid stream encoding '<e>'" and returns -1 before the engine. The call then records the engine failure, and the assertion fails. |
| `EncoderProperties.StreamStartAfterError` | ext/yaml/emitter.c:68-69 | After any earlier error STREAM_START never reaches the engine. |
| `EncoderProperties.MissingMajorSkipsMinor` | ext/yaml/emitter.c:101-107 | A version directive without `major` records its message and does not look at `minor`, whatever the directive table's list part holds. |
| `EncoderProperties.MinorOnlyWithoutErrors` | ext/yaml/emitter.c:103-107 | With an error already counted, `minor` is not examined. |
| `EncoderProperties.VersionDirectivePassedOn` | ext/yaml/emitter.c:101-108 | With both keys, the version goes to the engine as given and no error is recorded. |
| `EncoderProperties.DocumentStartErrorSkipsEngine` | ext/yaml/emitter.c:151-152 | Any error makes DOCUMENT_START return 0, and the engine and output are untouched. A single error makes the call answer `false, message`. |
| `EncoderProperties.TagPointersInOrder` | ext/yaml/emitter.c:120-145 | The directive array has one entry per element, in order, each holding that element's texts, followed by one NULL. |
| `EncoderProperties.TagErrorsExactlyMissingKeys` | ext/yaml/emitter.c:124-131 | A directive list records no error exactly when every element gives both a `handle` and a `prefix` string. |
| `EncoderProperties.TagErrorsCount` | ext/yaml/emitter.c:124-131 | The handle message appears once for each element without a `handle` string. The prefix message appears once for each element without a `prefix` string. Nothing else is recorded, so the count is the number of missing keys, at most two per element. |
| `EncoderProperties.ItemErrorsCount` | ext/yaml/emitter.c:124-131 | One element records the handle message exactly when `handle` gives no string. It records the prefix message exactly when `prefix` gives none, and nothing else. |
| `EncoderProperties.TagItemAsWrittenAgrees` | ext/yaml/emitter.c:124-137 | The loop body as written dereferences NULL exactly for the elements the intended reading reports. It agrees with that reading on every other element. |
| `EncoderProperties.AsWrittenMissingHandleDereferencesNull` | ext/yaml/emitter.c:124-127 | As written, an element without `handle` records its message and then passes NULL to `strlen`. |
| `EncoderProperties.AsWrittenNonStringHandleGoesUnreported` | ext/yaml/emitter.c:124-127 | As written, a `handle` that is not a string records nothing before NULL reaches `strlen`; the intended reading reports it. |
| `EncoderProperties.BadTagDirectiveSkipsEngine` | ext/yaml/emitter.c:124-152 | Intended behaviour: one element lacking a `handle` or `prefix` string makes DOCUMENT_START record the message and leave the engine and the output untouched. |
| `EncoderProperties.ImplicitDefaults` | ext/yaml/emitter.c:94-166 | Without an `implicit` field, DOCUMENT_START passes true and DOCUMENT_END passes false. |
| `EncoderProperties.ImplicitFlagsIgnored` | ext/yaml/emitter.c:199-299 | `implicit` on collection starts, and `plain_implicit`/`quoted_implicit` on scalars, never change the plan. |
| `EncoderProperties.MappingStyleValidation` | ext/yaml/emitter.c:183-205 | A mapping style is accepted exactly when absent, "BLOCK" or "FLOW". Any other style records "invalid mapping style '<s>'", and the event is issued with the style unset. |
| `EncoderProperties.SequenceStyleValidation` | ext/yaml/emitter.c:227-249 | The same for sequences, with "invalid sequence style '<s>'". |
| `EncoderProperties.ScalarStyleValidation` | ext/yaml/emitter.c:271-285 | A scalar style is accepted exactly when absent or one of the five names. "ANY" and all other names record "invalid scalar style '<s>'". |
| `EncoderProperties.InvalidMappingStyleOutcome` | ext/yaml/emitter.c:185-205 | On a clean emitter, a bad mapping style answers `false, message` if the engine accepts the event, and fails the assertion if it refuses. |
| `EncoderProperties.ScalarValueIsCString` | ext/yaml/emitter.c:288-299 | The scalar value reaches the engine as its C string; its length is not used. |
| `EncoderProperties.EmbeddedZeroTruncates` | ext/yaml/emitter.c:290-299 | A value "a\0b" reaches the engine as "a". |
| `EncoderProperties.AliasWithoutAnchor` | ext/yaml/emitter.c:305-314 | An ALIAS without an anchor records no error and hands the engine a NULL anchor. |
| `EventDecoder.ProblemMessage` | ext/yaml/parser.c:309-316 | The error text always starts with "A problem at document: " and continues after it. |
| `EventDecoder.MarkTable` | ext/yaml/parser.c:49-60 | A mark table has exactly the keys `index`, `line` and `column` and no list part. Every field is 0 without a mark. |
| `EventDecoder.EventTable` | ext/yaml/parser.c:64-74 | An event table starts with exactly `type` (the given name), `start_mark` and `end_mark`. |
| `EventDecoder.DocumentStartTable` | ext/yaml/parser.c:88-135 | The DOCUMENT_START table has its type and `implicit` as reported. `version_directive` is present exactly with a version. `tag_directives` is present exactly when there is a directive. |
| `EventDecoder.ParseAlias` | ext/yaml/parser.c:149-163 | An ALIAS raises exactly when the anchor has no text. Otherwise its table has exactly the type, both marks and `anchor`. |
| `EventDecoder.ParseScalar` | ext/yaml/parser.c:166-214 | A scalar raises exactly for a style outside the known range. Otherwise its table names the style. |
| `EventDecoder.ParseCollectionStart` | ext/yaml/parser.c:217-300 | A collection start raises exactly for a style outside the known range. Otherwise `implicit` is true exactly without a start token. |
| `EventDecoder.Translate` | ext/yaml/parser.c:358-386 | The iterator returns nil exactly for FYET_NONE. A produced table always comes from a known kind and carries that kind's `type` name. |
| `EventDecoder.Parser.constructor` | ext/yaml/parser.c:428-441 | A new parser holds no event, has counted no document, and has an engine exactly when creation succeeded. |
| `EventDecoder.Parser.DeleteEvent` | ext/yaml/parser.c:37-44 | Frees the held event, if any, and empties the slot. |
| `EventDecoder.Parser.FyParserParse` | ext/yaml/parser.c:348 | Takes the engine's next result; a real event is recorded as pulled. |
| `EventDecoder.Parser.BuildTagDirectiveList` | ext/yaml/parser.c:117-132 | The `do ... while` loop builds the list of directive tables, one per directive, in iteration order. |
| `EventDecoder.Parser.ParseDocumentStart` | ext/yaml/parser.c:88-135 | Counts one document and builds the DOCUMENT_START table. |
| `EventDecoder.Parser.EventIter` | ext/yaml/parser.c:342-389 | The new state and the outcome are those of `IterSpec`: release, pull, then a table, nil or a raised error. |
| `EventDecoder.Parser.Gc` | ext/yaml/parser.c:392-403 | For a non-NULL parser: releases the held event, then destroys the engine if it exists. |
| `DecoderProperties.DeleteEventIdempotent` | ext/yaml/parser.c:37-44 | Releasing empties the slot and frees only a held event. A second release changes nothing. |
| `DecoderProperties.IterReleasesBeforePulling` | ext/yaml/parser.c:347-348 | The iterator frees the held event before it pulls. It pulls at most one event, and holds one exactly when the engine returned one. |
| `DecoderProperties.DocumentCountStep` | ext/yaml/parser.c:98-99 | The count rises by one exactly when the pulled event is a DOCUMENT_START. |
| `DecoderProperties.IterPreservesConsistency` | ext/yaml/parser.c:342-389 | One call keeps the invariant. The pulled events are the freed ones followed by the held one. The count is the number of DOCUMENT_START events pulled. |
| `DecoderProperties.FreshIsConsistent` | ext/yaml/parser.c:428-430 | A new parser satisfies the invariant. |
| `DecoderProperties.IterLeavesEngine` | ext/yaml/parser.c:342-353 | The iterator neither creates nor destroys the engine. |
| `DecoderProperties.RunKeepsConsistency` | ext/yaml/parser.c:342-389 | The invariant holds after any number of calls, so at most one event is ever held. |
| `DecoderProperties.RunLeavesEngine` | ext/yaml/parser.c:347-348 | However many calls run, the engine is neither created nor destroyed. |
| `DecoderProperties.NullResultRaises` | ext/yaml/parser.c:348-353 | A NULL engine result raises "A problem at document: N" with the current count. It produces no table and leaves no event held. |
| `DecoderProperties.ProblemMessageNamesCount` | ext/yaml/parser.c:309-316 | The message is the fixed text followed by the count in decimal, and the count can be read back from it. |
| `DecoderProperties.MarkFields` | ext/yaml/parser.c:49-60 | A mark table has exactly `index` (from the input position), `line` and `column`. Each of them is 0 without a mark. |
| `DecoderProperties.OutcomeKinds` | ext/yaml/parser.c:358-386 | The result is nil exactly for FYET_NONE. It raises exactly for an unknown kind ("invalid event N"), an alias without anchor text, or an unknown style. |
| `DecoderProperties.ProducedTablesCarryTypeAndMarks` | ext/yaml/parser.c:64-74 | Every produced table carries its kind's `type` name and both marks. |
| `DecoderProperties.EndEventsCarryNothingElse` | ext/yaml/parser.c:361-366 | STREAM_END, SEQUENCE_END and MAPPING_END tables carry only the type and the two marks. |
| `DecoderProperties.StreamStartIsUtf8` | ext/yaml/parser.c:77-85 | STREAM_START adds exactly `encoding = "UTF8"`. |
| `DecoderProperties.DocumentEndTable` | ext/yaml/parser.c:138-146 | DOCUMENT_END adds exactly `implicit` as the engine reports it. |
| `DecoderProperties.DocumentStartContents` | ext/yaml/parser.c:101-132 | `version_directive` with `major` and `minor` is present exactly when the engine reports a version. `tag_directives` is present exactly when a directive exists, as a list of the directives in iteration order. |
| `DecoderProperties.ScalarTable` | ext/yaml/parser.c:166-214 | The table has exactly the scalar keys: the style name, anchor, tag and value (each defaulting to ""), and both implicit flags false. Anchor, tag and value are their C strings when the engine gives them. An unknown style raises "invalid sequence style N". |
| `DecoderProperties.CollectionStartTable` | ext/yaml/parser.c:217-300 | A collection start has exactly its keys: the style name, and anchor and tag defaulting to "". Anchor and tag are their C strings when given. `implicit` is true exactly when there is no start token. An unknown style raises the sequence or mapping message. |
| `DecoderProperties.AliasTable` | ext/yaml/parser.c:149-163 | An ALIAS raises "fy_token_get_text0() failed" exactly when the anchor text is absent; otherwise its table holds the anchor. |
| `DecoderProperties.GcReleasesAndDestroys` | ext/yaml/parser.c:392-403 | Collection releases the held event and destroys the engine only if it exists. On a consistent parser, every pulled event is then freed. |
| `DecoderProperties.LifetimeReleasesEverything` | ext/yaml/parser.c:347-401 | After any number of calls and then collection, every pulled event has been freed. The engine has been destroyed exactly once if it was created, and never otherwise. |
| `RoundTrip.MissingTextsComeBackEmpty` | ext/yaml/parser.c:195-203 | An anchor, tag or scalar value the engine did not give reaches the engine again as the empty text, not as NULL. |
| `RoundTrip.TagDirectivesReadBack` | ext/yaml/emitter.c:120-145 | The decoder's directive list is read by the encoder without error, into the same directives in the same order, followed by NULL. |
| `RoundTrip.DocumentStartReencodes` | ext/yaml/emitter.c:87-157 | A decoded DOCUMENT_START table makes the encoder issue the same flag, version and directives. |
| `RoundTrip.ScalarReencodes` | ext/yaml/emitter.c:271-299 | A decoded scalar is re-issued with its style, value, anchor and tag. A decoded ANY style is rejected, and the event then goes out unstyled. |
| `RoundTrip.CollectionStartReencodes` | ext/yaml/emitter.c:183-205 | The same for mapping and sequence starts. |
| `RoundTrip.AliasReencodes` | ext/yaml/emitter.c:305-314 | A decoded alias is re-issued with its anchor. |
| `RoundTrip.KindSelectsHandler` | ext/yaml/emitter.c:336-347 | The `type` name the decoder writes for a kind selects the encoder's handler for that kind. |
| `RoundTrip.DecodedTableReencodes` | ext/yaml/emitter.c:329-355 | A decoded table without an ANY style makes the encoder plan the corresponding engine event, with no error. |
| `RoundTrip.DecodedEventEmits` | ext/yaml/emitter.c:318-399 | Such a table, emitted without prior errors and accepted by the engine, issues exactly that event. The call succeeds, and returns the output after STREAM_END. |
| `RoundTrip.AnyStyleIsRejected` | ext/yaml/emitter.c:273-285 | A decoded ANY style gets the matching "invalid … style 'ANY'" message, and the event goes out with the style unset. |
| `RoundTrip.AnyStyleFailsEmit` | ext/yaml/emitter.c:379-386 | A decoded ANY style, emitted on a clean emitter, answers `false` with that one message. |

## Findings

| source | as written | input that shows it | evidently intended | confidence | as-written member | corrected member |
|---|---|---|---|---|---|---|
| ext/yaml/emitter.c:124-133 | `ERROR_IFNIL` counts only an absent `handle` or `prefix`. The pointer from `lua_tostring` then goes to `strlen` and `strcpy` even when it is NULL. | `{type = "DOCUMENT_START", tag_directives = {{prefix = "!"}}}`; or `handle = true` | Record "tag_directives item missing key 'handle'" for any handle that gives no string, and return without calling the engine | not executed | `EncoderProperties.AsWrittenMissingHandleDereferencesNull` | `EncoderProperties.BadTagDirectiveSkipsEngine` |

`EventEncoder.TagItemAsWritten` models the loop body as written. The
rest of the model uses the intended reading (`ItemErrors`, `TagItem`, `Emitter.ReadTagItem`).
`EncoderProperties.TagItemAsWrittenAgrees` shows that the two differ only where the written code dereferences NULL.

## Left out

- The Lua stack and table mechanics: `lua_rawget`/`lua_rawset`, metatables, the `luaL_Buffer` internals, `lua_xmove` between threads, `strdup`/`free`/`alloca`. Tables are maps with a list part.
- Emitter.FillTagDirectives: the `lua_next` loop over `tag_directives` (emitter.c:122) is modelled as visiting exactly the table's list part, in index order.
  - C visits every key, in the unspecified order of `next`. The arrays are sized by `lua_objlen` (emitter.c:115-118).
  - A table with keys outside its list part, such as `{x = {handle = "!", prefix = "p"}}`, makes C write past both arrays. The model instead reads only the list part.
- VersionDirectivePassedOn: the version is handed on unchanged. C stores `major` and `minor` in the `int` fields of `struct fy_version`, so a value outside the C `int` range is converted; the model does not capture that conversion. `ReadVersionDirective` and `VersionDirective` share this gap.
- ParserState.documentCount is unbounded. In C, `document_count` is an `int` and overflows after 2^31 - 1 DOCUMENT_START events.
- InvalidEncodingMessage, InvalidMappingStyleMessage, InvalidSequenceStyleMessage, InvalidScalarStyleMessage and InvalidTypeMessage are modelled as the whole text. C writes each of them with `sprintf` into `luaL_prepbuffer`, which holds `LUAL_BUFFERSIZE` bytes (emitter.c:60-62, 189-192, 233-236, 282-284, 352-354). A caller-supplied name long enough to overrun that space is not modelled.
- In `event_iter`, an extra empty table and the string `"type"` are pushed below the event table and never returned. They are not modelled.
- `Pemitter` and `Pparser` are modelled only as the two constructors. Left out:
  - the emitter's configuration (line width, mode, indent);
  - reading the source string;
  - `luaL_argcheck` on their arguments;
  - the "cannot initialize emitter" and "cannot initialize parser for %s" errors.
- What `Pparser` runs into when `fy_parser_create` fails is left out. It creates a parser without an engine, which `parser_gc` skips; this is `Parser.constructor` with `created = false`.
- `emit`'s `luaL_argcheck` that its argument is a table: `Emitter.Emit` always receives a table.
- `emitter_gc`, which only destroys the engine, holds nothing the model tracks.
- libfyaml itself is not modelled:
  - the YAML grammar;
  - the emitted text;
  - the engine's numeric enum values. An unknown style or event kind is `OutOfRange(code)` or `OtherEvent(code)`;
  - what the engine does with a NULL anchor, tag or value.
- Floating-point Lua numbers do not exist in the model.
  - `lua_tostring` of an integer is modelled in decimal. The `%.14g` form that Lua 5.1 uses beyond 10^14 is left out.
  - `lua_tointeger` of a numeric string (`major = "1"`) is modelled as 0, not as the number.
- A `tag_directives` element that is not a table is read as a table without fields. In C the key lookup on it misbehaves.
- After `luaL_pushresult`, `errbuff` and `yamlbuff` are modelled as keeping what they hold, so messages accumulate across calls. The buffer reuse of the Lua version in use is not modelled.
- `Emitter.Emit`: a failed `assert` (emitter.c:381) aborts the process. This assumes assertions are compiled in: under `NDEBUG` it does nothing, and a call with two or more errors returns `false` with all the messages. The model returns `AssertFailed` and keeps the state it reached.
- The `#if 0` branches are dead code: emitter.c:364-368 and 447-451, parser.c:310-311 and 318-336.
