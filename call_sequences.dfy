/** Several `parseJson` calls on one parser and one context. The depth counters
    live in the context, which outlives every call and is never reset by the front
    end, so a call sees whatever the previous calls left in them. */
module CallSequences {
  import opened Errors
  import opened Parser

  /** The state after running the calls in order, each on the state the previous
      one left. */
  function Replay<V>(options: ParseOptions, validate: Validator, decode: Decoder<V>, s: State, calls: seq<(V, Buffer)>): State
    decreases |calls|
  {
    if calls == [] then s
    else Replay(options, validate, decode, Call(options, validate, decode, s, calls[0].0, calls[0].1).state, calls[1..])
  }

  /** A decoder that moves the counters by an amount that depends only on the
      target and the buffer, as one that increments on an opener and decrements on
      a closer does. */
  ghost predicate ShiftsCounters<V(!new)>(decode: Decoder<V>)
  {
    forall t, b, o, a ::
      && decode(t, b, o, a).objectDepth == o + decode(t, b, 0, 0).objectDepth
      && decode(t, b, o, a).arrayDepth == a + decode(t, b, 0, 0).arrayDepth
  }

  /** The net change of the object counter over the calls that reach the decoder. */
  function NetObjectDepth<V>(options: ParseOptions, validate: Validator, decode: Decoder<V>, calls: seq<(V, Buffer)>): int
    decreases |calls|
  {
    if calls == [] then 0
    else
      (if Reaches(options, validate, calls[0].1) then decode(calls[0].0, calls[0].1, 0, 0).objectDepth else 0)
      + NetObjectDepth(options, validate, decode, calls[1..])
  }

  /** The net change of the array counter over the calls that reach the decoder. */
  function NetArrayDepth<V>(options: ParseOptions, validate: Validator, decode: Decoder<V>, calls: seq<(V, Buffer)>): int
    decreases |calls|
  {
    if calls == [] then 0
    else
      (if Reaches(options, validate, calls[0].1) then decode(calls[0].0, calls[0].1, 0, 0).arrayDepth else 0)
      + NetArrayDepth(options, validate, decode, calls[1..])
  }

  /** With a shifting decoder the counters after a run of calls are the initial
      ones plus every decoded call's net change: nothing resets them in between. */
  lemma {:induction false} ReplayAccumulatesCounters<V(!new)>(options: ParseOptions, validate: Validator, decode: Decoder<V>, s: State, calls: seq<(V, Buffer)>)
    requires ShiftsCounters(decode)
    ensures var t := Replay(options, validate, decode, s, calls);
            && t.objectDepth == s.objectDepth + NetObjectDepth(options, validate, decode, calls)
            && t.arrayDepth == s.arrayDepth + NetArrayDepth(options, validate, decode, calls)
    decreases |calls|
  {
    if calls != [] {
      var next := Call(options, validate, decode, s, calls[0].0, calls[0].1).state;
      ReplayAccumulatesCounters(options, validate, decode, next, calls[1..]);
    }
  }

  /** With a shifting decoder, a call made after a run of earlier calls succeeds
      exactly when it reaches the decoder and its own net change cancels what the
      earlier calls and the initial counters left behind. */
  lemma SucceedsAfterReplayIff<V(!new)>(options: ParseOptions, validate: Validator, decode: Decoder<V>, s: State, calls: seq<(V, Buffer)>, target: V, buf: Buffer)
    requires ShiftsCounters(decode)
    ensures var before := Replay(options, validate, decode, s, calls);
            var d := decode(target, buf, 0, 0);
            Call(options, validate, decode, before, target, buf).exit == Success
            <==> && Reaches(options, validate, buf)
                 && s.objectDepth + NetObjectDepth(options, validate, decode, calls) + d.objectDepth == 0
                 && s.arrayDepth + NetArrayDepth(options, validate, decode, calls) + d.arrayDepth == 0
  {
    ReplayAccumulatesCounters(options, validate, decode, s, calls);
  }

  /** The same call, `n` times. */
  function Repeat<V>(target: V, buf: Buffer, n: nat): (calls: seq<(V, Buffer)>)
  {
    seq(n, _ => (target, buf))
  }

  /** A call that leaves the counters where it found them is idempotent when it is
      repeated with the same target value (as the value form always does, decoding
      into a fresh default object): repeating it on the state it produced gives the
      same outcome. Once the call gets past the size and validation checks, the
      sink holds only the repeated call's records; an empty or rejected buffer
      leaves the earlier records in place. */
  lemma RepeatIsIdempotentWhenCountersRestored<V>(options: ParseOptions, validate: Validator, decode: Decoder<V>, s: State, target: V, buf: Buffer)
    requires var o := Call(options, validate, decode, s, target, buf);
             o.state.objectDepth == s.objectDepth && o.state.arrayDepth == s.arrayDepth
    ensures var o := Call(options, validate, decode, s, target, buf);
            Call(options, validate, decode, o.state, target, buf) == o
  {
  }

  /** Consequently any number of further repetitions with the same target value
      keeps the state the first call produced. */
  lemma {:induction false} RepeatedCallsAreStable<V>(options: ParseOptions, validate: Validator, decode: Decoder<V>, s: State, target: V, buf: Buffer, n: nat)
    requires var o := Call(options, validate, decode, s, target, buf);
             o.state.objectDepth == s.objectDepth && o.state.arrayDepth == s.arrayDepth
    ensures var o := Call(options, validate, decode, s, target, buf);
            Replay(options, validate, decode, o.state, Repeat(target, buf, n)) == o.state
    decreases n
  {
    if n > 0 {
      RepeatIsIdempotentWhenCountersRestored(options, validate, decode, s, target, buf);
      assert Repeat(target, buf, n)[1..] == Repeat(target, buf, n - 1);
      RepeatedCallsAreStable(options, validate, decode, s, target, buf, n - 1);
    }
  }

  /** A success that started from zero counters can be repeated with the same
      target value any number of times with the same result. */
  lemma SuccessFromZeroIsRepeatable<V>(options: ParseOptions, validate: Validator, decode: Decoder<V>, s: State, target: V, buf: Buffer, n: nat)
    requires s.objectDepth == 0 && s.arrayDepth == 0
    requires Call(options, validate, decode, s, target, buf).exit == Success
    ensures var o := Call(options, validate, decode, s, target, buf);
            && Call(options, validate, decode, o.state, target, buf) == o
            && Replay(options, validate, decode, o.state, Repeat(target, buf, n)) == o.state
  {
    RepeatIsIdempotentWhenCountersRestored(options, validate, decode, s, target, buf);
    RepeatedCallsAreStable(options, validate, decode, s, target, buf, n);
  }

  /** The usual in-place repeat hands the decoder the object the first call
      filled. If the counters are restored and decoding into that object gives the
      same decoder result as the first time, the repeat gives the same outcome. */
  lemma InPlaceRepeatIsIdempotent<V>(options: ParseOptions, validate: Validator, decode: Decoder<V>, s: State, target: V, buf: Buffer)
    requires var o := Call(options, validate, decode, s, target, buf);
             o.state.objectDepth == s.objectDepth && o.state.arrayDepth == s.arrayDepth
    requires var o := Call(options, validate, decode, s, target, buf);
             Reaches(options, validate, buf) ==>
               decode(o.target, buf, s.objectDepth, s.arrayDepth) == decode(target, buf, s.objectDepth, s.arrayDepth)
    ensures var o := Call(options, validate, decode, s, target, buf);
            Call(options, validate, decode, o.state, o.target, buf) == o
  {
  }

  /** The number of occurrences of `c` in `s`. */
  function Occurrences(s: seq<char>, c: char): nat
  {
    if s == [] then 0 else (if s[0] == c then 1 else 0) + Occurrences(s[1..], c)
  }

  /** A sample decoder that adds, to each counter, openers minus closers and reads
      to the end of the buffer. */
  function CountingDecoder(target: int, buf: Buffer, objectDepth: int, arrayDepth: int): DecodeOutcome<int>
  {
    DecodeOutcome(target, buf.End(),
                  objectDepth + Occurrences(buf.bytes, '{') - Occurrences(buf.bytes, '}'),
                  arrayDepth + Occurrences(buf.bytes, '[') - Occurrences(buf.bytes, ']'),
                  [])
  }

  lemma CountingDecoderShiftsCounters()
    ensures ShiftsCounters(CountingDecoder)
  {
  }

  /** Accepts every buffer. */
  function AcceptAll(buf: Buffer): bool
  {
    true
  }

  /** The sample decoder on `{` opens one object and touches no array. */
  lemma CountingDecoderOnOpenBrace(depth: int)
    ensures var d := CountingDecoder(0, Buffer(1, ['{']), depth, 0);
            d.objectDepth == depth + 1 && d.arrayDepth == 0
  {
  }

  /** The sample decoder on `{}` leaves both counters as it found them. */
  lemma CountingDecoderOnEmptyObject(depth: int)
    ensures var d := CountingDecoder(0, Buffer(1, ['{', '}']), depth, 0);
            d.objectDepth == depth && d.arrayDepth == 0
  {
  }

  /** Calling with `{` on counters (depth, 0), depth not negative, fails on an open object and adds one to it. */
  lemma OpenBraceFails(s: State)
    requires s.objectDepth >= 0 && s.arrayDepth == 0
    ensures var o := Call(DefaultParseOptions, AcceptAll, CountingDecoder, s, 0, Buffer(1, ['{']));
            o.exit == UnbalancedObject && o.state.objectDepth == s.objectDepth + 1 && o.state.arrayDepth == 0
  {
    CountingDecoderOnOpenBrace(s.objectDepth);
  }

  /** Calling with `{}` on counters (depth, 0) succeeds exactly when depth is zero. */
  lemma EmptyObjectSucceedsOnlyFromZero(s: State)
    requires s.arrayDepth == 0
    ensures var o := Call(DefaultParseOptions, AcceptAll, CountingDecoder, s, 0, Buffer(1, ['{', '}']));
            (o.exit == Success <==> s.objectDepth == 0) && (s.objectDepth != 0 ==> o.exit == UnbalancedObject)
  {
    CountingDecoderOnEmptyObject(s.objectDepth);
  }

  const ZeroCounters := State([], 0, 0, 0)
  const OpenBrace := Buffer(1, ['{'])
  const EmptyObject := Buffer(1, ['{', '}'])

  /** Because the counters are not reset, a call is not idempotent in general:
      after `{` leaves an object open, repeating it fails with a different state. */
  lemma RepeatedOpenBraceDiffers()
    ensures var first := Call(DefaultParseOptions, AcceptAll, CountingDecoder, ZeroCounters, 0, OpenBrace);
            && first.exit == UnbalancedObject && first.state.objectDepth == 1
            && Call(DefaultParseOptions, AcceptAll, CountingDecoder, first.state, 0, OpenBrace) != first
  {
    OpenBraceFails(ZeroCounters);
    var first := Call(DefaultParseOptions, AcceptAll, CountingDecoder, ZeroCounters, 0, OpenBrace);
    OpenBraceFails(first.state);
  }

  /** A call's result depends on earlier calls: `{}` succeeds from zero counters
      but fails with `ImbalancedObjectBraces` after a call on `{`. */
  lemma StaleCountersChangeLaterCalls()
    ensures var first := Call(DefaultParseOptions, AcceptAll, CountingDecoder, ZeroCounters, 0, OpenBrace);
            && Call(DefaultParseOptions, AcceptAll, CountingDecoder, ZeroCounters, 0, EmptyObject).exit == Success
            && Call(DefaultParseOptions, AcceptAll, CountingDecoder, first.state, 0, EmptyObject).exit == UnbalancedObject
  {
    OpenBraceFails(ZeroCounters);
    var first := Call(DefaultParseOptions, AcceptAll, CountingDecoder, ZeroCounters, 0, OpenBrace);
    EmptyObjectSucceedsOnlyFromZero(ZeroCounters);
    EmptyObjectSucceedsOnlyFromZero(first.state);
  }
}
