/** Properties of a single `parseJson` call, stated over `Parser.Call`, which both
    entry points are proved to follow. */
module ParserLemmas {
  import opened Errors
  import opened Parser

  /** The records the decoder appended, or none when it did not run. */
  function DecoderRecords<V>(options: ParseOptions, validate: Validator, decode: Decoder<V>, s: State, target: V, buf: Buffer): seq<Error>
  {
    if Reaches(options, validate, buf) then decode(target, buf, s.objectDepth, s.arrayDepth).emitted else []
  }

  /** The independent statement of success: non-empty input, validation passed or
      not asked for, an opening brace or bracket first, and both counters back at
      zero once the decoder returns. */
  predicate Accepts<V>(options: ParseOptions, validate: Validator, decode: Decoder<V>, s: State, target: V, buf: Buffer)
  {
    && |buf.bytes| > 0
    && (!options.validateJson || validate(buf))
    && OpensStructure(buf)
    && decode(target, buf, s.objectDepth, s.arrayDepth).objectDepth == 0
    && decode(target, buf, s.objectDepth, s.arrayDepth).arrayDepth == 0
  }

  /** An empty buffer fails at once: the sink and the context stay exactly as they
      were and the decoder never sees the target. */
  lemma EmptyInputChangesNothing<V>(options: ParseOptions, validate: Validator, decode: Decoder<V>, s: State, target: V, buf: Buffer)
    requires |buf.bytes| == 0
    ensures var o := Call(options, validate, decode, s, target, buf);
            o.exit == EmptyInput && o.state == s && o.target == target
  {
  }

  /** A rejected validation fails at once, with the same guarantees as empty input. */
  lemma ValidationFailureChangesNothing<V>(options: ParseOptions, validate: Validator, decode: Decoder<V>, s: State, target: V, buf: Buffer)
    requires |buf.bytes| > 0 && options.validateJson && !validate(buf)
    ensures var o := Call(options, validate, decode, s, target, buf);
            o.exit == ValidationFailed && o.state == s && o.target == target
  {
  }

  /** Without `validateJson` the validator is never consulted: any two validators
      give the same call. */
  lemma ValidatorIgnoredWhenNotRequested<V>(options: ParseOptions, v1: Validator, v2: Validator, decode: Decoder<V>, s: State, target: V, buf: Buffer)
    requires !options.validateJson
    ensures Call(options, v1, decode, s, target, buf) == Call(options, v2, decode, s, target, buf)
  {
  }

  /** A non-empty buffer that passes validation but does not open with `{` or `[`
      leaves exactly one `NoInput` record, at offset 0 with end offset the buffer's
      size, fails without running the decoder and leaves the counters alone. */
  lemma NoOpenerRecordsNoInput<V>(options: ParseOptions, validate: Validator, decode: Decoder<V>, s: State, target: V, buf: Buffer)
    requires |buf.bytes| > 0 && (!options.validateJson || validate(buf)) && !OpensStructure(buf)
    ensures var o := Call(options, validate, decode, s, target, buf);
            && o.exit == NoOpener && o.target == target
            && o.state.errors == [Error(Parsing, NoInput, 0, |buf.bytes|)]
            && o.state.objectDepth == s.objectDepth && o.state.arrayDepth == s.arrayDepth
  {
  }

  /** An open object after decoding fails the call with one
      `ImbalancedObjectBraces` record at the reached offset, after the decoder's own
      records; this check comes first, so no array record is added whatever the
      array counter holds. */
  lemma UnbalancedObjectTakesPrecedence<V>(options: ParseOptions, validate: Validator, decode: Decoder<V>, s: State, target: V, buf: Buffer)
    requires Reaches(options, validate, buf)
    requires decode(target, buf, s.objectDepth, s.arrayDepth).objectDepth != 0
    ensures var d := decode(target, buf, s.objectDepth, s.arrayDepth);
            var o := Call(options, validate, decode, s, target, buf);
            && o.exit == UnbalancedObject
            && o.state.errors == d.emitted + [Error(Parsing, ImbalancedObjectBraces, d.readIter - buf.data, |buf.bytes|)]
            && (forall e :: e in o.state.errors[|d.emitted|..] ==> e.kind != ImbalancedArrayBrackets)
  {
  }

  /** The call ends on an `ImbalancedArrayBrackets` record exactly when the decoder
      ran and left the object counter at zero and the array counter elsewhere; the
      record then sits at the reached offset. */
  lemma UnbalancedArrayOnlyWhenObjectsBalanced<V>(options: ParseOptions, validate: Validator, decode: Decoder<V>, s: State, target: V, buf: Buffer)
    ensures var d := decode(target, buf, s.objectDepth, s.arrayDepth);
            var o := Call(options, validate, decode, s, target, buf);
            && (o.exit == UnbalancedArray <==> Reaches(options, validate, buf) && d.objectDepth == 0 && d.arrayDepth != 0)
            && (o.exit == UnbalancedArray ==>
                  o.state.errors == d.emitted + [Error(Parsing, ImbalancedArrayBrackets, d.readIter - buf.data, |buf.bytes|)])
  {
  }

  /** A call succeeds exactly when `Accepts` holds; the sink then holds only what
      the decoder reported, so it is empty when the decoder reported nothing. */
  lemma SuccessIff<V>(options: ParseOptions, validate: Validator, decode: Decoder<V>, s: State, target: V, buf: Buffer)
    ensures var o := Call(options, validate, decode, s, target, buf);
            && (o.exit == Success <==> Accepts(options, validate, decode, s, target, buf))
            && (o.exit == Success ==> o.state.errors == decode(target, buf, s.objectDepth, s.arrayDepth).emitted)
            && (o.exit == Success && DecoderRecords(options, validate, decode, s, target, buf) == [] ==> o.state.errors == [])
  {
  }

  /** Once past the size and validation checks the sink is cleared first: it ends
      as the decoder's records followed by no front-end record on success and by
      exactly one otherwise, and the root is the buffer's first byte. */
  lemma SinkClearedThenAtMostOneRecord<V>(options: ParseOptions, validate: Validator, decode: Decoder<V>, s: State, target: V, buf: Buffer)
    requires |buf.bytes| > 0 && (!options.validateJson || validate(buf))
    ensures var o := Call(options, validate, decode, s, target, buf);
            var pre := DecoderRecords(options, validate, decode, s, target, buf);
            && o.state.rootIter == buf.data
            && |o.state.errors| == |pre| + (if o.exit == Success then 0 else 1)
            && o.state.errors[..|pre|] == pre
            && (forall e :: e in o.state.errors[|pre|..] ==> e.errorClass == Parsing && IsFrontEndKind(e.kind))
  {
  }

  /** The front end never writes the counters itself: they are the decoder's when
      it ran and untouched otherwise. */
  lemma CountersWrittenOnlyByDecoder<V>(options: ParseOptions, validate: Validator, decode: Decoder<V>, s: State, target: V, buf: Buffer)
    ensures var o := Call(options, validate, decode, s, target, buf);
            var d := decode(target, buf, s.objectDepth, s.arrayDepth);
            if Reaches(options, validate, buf)
            then o.state.objectDepth == d.objectDepth && o.state.arrayDepth == d.arrayDepth
            else o.state.objectDepth == s.objectDepth && o.state.arrayDepth == s.arrayDepth
  {
  }

  /** Every front-end record ends at the buffer's size, and, when the decoder keeps
      its read position inside the buffer, starts inside it too. */
  lemma FrontEndRecordsInBounds<V>(options: ParseOptions, validate: Validator, decode: Decoder<V>, s: State, target: V, buf: Buffer)
    requires |buf.bytes| > 0 && (!options.validateJson || validate(buf))
    ensures var o := Call(options, validate, decode, s, target, buf);
            var pre := DecoderRecords(options, validate, decode, s, target, buf);
            var readIter := decode(target, buf, s.objectDepth, s.arrayDepth).readIter;
            && |pre| <= |o.state.errors|
            && (forall e :: e in o.state.errors[|pre|..] ==> e.endOffset == |buf.bytes|)
            && (buf.data <= readIter <= buf.End() ==>
                  forall e :: e in o.state.errors[|pre|..] ==> 0 <= e.offset <= |buf.bytes|)
  {
  }

  /** In the in-place form a failure after decoding still leaves the caller's
      object as the decoder filled it. */
  lemma TargetKeptAfterDecoding<V>(options: ParseOptions, validate: Validator, decode: Decoder<V>, s: State, target: V, buf: Buffer)
    requires Reaches(options, validate, buf)
    ensures Call(options, validate, decode, s, target, buf).target == decode(target, buf, s.objectDepth, s.arrayDepth).target
  {
  }
}
