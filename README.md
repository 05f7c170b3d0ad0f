# jsonifier parse front end, modelled in Dafny

This project models the entry point of jsonifier's JSON parser: the two
`parser<derived_type>::parseJson` overloads and `getErrors`, with the
`parse_options` configuration and the `parse_options_internal` context they
share with the decoder. A call runs a fixed sequence of checks:

1. it rejects an empty buffer;
2. if `validateJson` is set, it runs the derived type's validator;
3. it clears the error sink and records the buffer's root;
4. it requires the first byte to be `{` or `[`;
5. it runs the recursive per-shape decoder;
6. it classifies the result by the object depth counter first, then the array depth counter.

Each failure after step 2 appends one structured record (class, kind, offset
from the root, end offset from the root).

Files:

- `errors.dfy` (module `Errors`) holds the error record and its construction.
- `parser.dfy` (module `Parser`) holds the options, the buffer and decoder
  interfaces, and the pure specification `Call` of one call. It also holds the
  classes `ParseContext`, which is the shared context, and `Parser`, the facade.
  `Parser.ParseInto` and `Parser.ParseValue` are the two `parseJson` forms. They
  are written step by step, as the C++ is, and each is proved to follow `Call`.
- `parser_lemmas.dfy` (module `ParserLemmas`) proves the properties of a single call.
- `call_sequences.dfy` (module `CallSequences`) proves properties of several
  calls made on one context. The depth counters live in a static object that
  outlives every call, and `parseJson` itself never writes them; only the
  decoder does. So these properties are not implied by the single-call ones.

The collaborators are parameters:

- The validator (`derivedRef.validateJson`) is a function `Buffer -> bool`.
- The decoder (`parse_impl<...>::impl`) is a function from the target, the
  buffer and the current depth counters. It returns the filled target, the read
  position it reached, the new counters, and the records it appended to the sink.

A buffer is the address of its first byte plus its bytes. Address 0 is the null
pointer that the first-byte check tests for.

Facts about the code that shape the model:

- An empty buffer returns `false` and adds no record
  (Include/jsonifier/Parser.hpp:65-67).
- The sink is cleared only at lines 74 and 112, after the size and validation checks.
  An empty or rejected buffer therefore leaves the sink as it was.
- The counters live in the `static constexpr` contexts at lines 75 and 113,
  one per instantiation of `parseJson`. Their fields are `mutable` (lines
  48-49). `parseJson` never writes them; only the decoder does. The model keeps
  the counters in `ParseContext` across calls.
- `CallSequences.RepeatIsIdempotentWhenCountersRestored` proves that a repeated
  call is idempotent when two things hold: it gets the same target value, and the
  first call left the counters as it found them. The value form meets the first
  condition by itself, because it decodes into a fresh `object{}` (line 116).
- `CallSequences.InPlaceRepeatIsIdempotent` covers the in-place repeat, where the
  decoder gets the object the first call filled. A repeat there is idempotent
  when decoding into that object gives the same decoder result.
- `RepeatedOpenBraceDiffers` and `StaleCountersChangeLaterCalls` use a decoder
  that counts openers minus closers. They show that the condition on the
  counters is needed.

## Model

| member | source | states |
|---|---|---|
| `Errors.ConstructError` | Include/jsonifier/Parser.hpp:82-83 | A record keeps its class and kind. Its offsets are relative to the root, so a read position inside the buffer gives 0 <= offset <= end offset. The distance from offset to end offset equals the distance from the read position to the end. |
| `Errors.ConstructErrorIsRelative` | Include/jsonifier/Parser.hpp:89-90 | A record does not depend on where the buffer sits in memory: shifting the read, end and root positions together gives the same record. |
| `Parser.Call` | Include/jsonifier/Parser.hpp:64-99 | The outcome of one call. A call that does not reach the decoder leaves the target and both counters unchanged. A successful call always reached the decoder. |
| `Parser.ParseContext.constructor` | Include/jsonifier/Parser.hpp:45-52 | A context starts with the given options, both counters at zero, a null root and parser pointer, and `validatingJson` false. |
| `Parser.Parser.constructor` | Include/jsonifier/Parser.hpp:147 | A new facade starts with an empty error sink. Line 147 only binds `derivedRef`. The empty sink comes from the derived type's default-constructed `errors` vector, and that type is not part of this model. |
| `Parser.Parser.GetErrors` | Include/jsonifier/Parser.hpp:140-142 | Returns the sink exactly as it stands. |
| `Parser.Parser.ParseInto` | Include/jsonifier/Parser.hpp:63-99 | The in-place form. Its result, the caller's target, the sink, the counters and the root are exactly those of `Call` on the state before the call, and the call writes nothing else. The context's parser pointer is set to this parser once the call gets past the size and validation checks. |
| `Parser.Parser.ParseValue` | Include/jsonifier/Parser.hpp:101-138 | The value form. It decodes into a fresh default target and returns the decoded value only on success. The sink, the counters, the root and the parser pointer change exactly as in the in-place form. |
| `ParserLemmas.EmptyInputChangesNothing` | Include/jsonifier/Parser.hpp:65-67 | An empty buffer fails. The sink and the context are left exactly as they were: nothing is cleared and nothing is appended. The target is never handed to the decoder. |
| `ParserLemmas.ValidationFailureChangesNothing` | Include/jsonifier/Parser.hpp:68-72 | With `validateJson` set, a rejected buffer fails. The sink and the context are unchanged and the decoder is never run. |
| `ParserLemmas.ValidatorIgnoredWhenNotRequested` | Include/jsonifier/Parser.hpp:68-72 | Without `validateJson`, the validator does not affect the outcome. |
| `ParserLemmas.NoOpenerRecordsNoInput` | Include/jsonifier/Parser.hpp:79-85 | A non-empty buffer that passes validation but has a null pointer or a first byte other than `{` or `[` fails. The sink is then exactly one `NoInput` record with offset 0 and end offset equal to the buffer's size. The target and both counters are untouched. |
| `ParserLemmas.UnbalancedObjectTakesPrecedence` | Include/jsonifier/Parser.hpp:87-91 | A nonzero object counter after decoding fails the call. The sink is the decoder's records followed by one `ImbalancedObjectBraces` record at the reached offset. No array-bracket record is added, whatever the array counter holds. |
| `ParserLemmas.UnbalancedArrayOnlyWhenObjectsBalanced` | Include/jsonifier/Parser.hpp:92-97 | A call ends on `ImbalancedArrayBrackets` if and only if the decoder ran, the object counter is zero and the array counter is not. The record then sits at the reached offset, after the decoder's records. |
| `ParserLemmas.SuccessIff` | Include/jsonifier/Parser.hpp:65-98 | A call succeeds if and only if all four hold: the buffer is non-empty, validation passed or was not requested, the first byte opens an object or array, and both counters are zero after decoding. On success the sink holds only the decoder's records, so it is empty when the decoder reported nothing. |
| `ParserLemmas.SinkClearedThenAtMostOneRecord` | Include/jsonifier/Parser.hpp:74-98 | Past the size and validation checks the sink is cleared first. It ends as the decoder's records followed by zero front-end records on success and exactly one otherwise. Each front-end record has class Parsing and one of the three front-end kinds. The root is the buffer's first byte. |
| `ParserLemmas.CountersWrittenOnlyByDecoder` | Include/jsonifier/Parser.hpp:75-86 | After a call the counters are the decoder's when it ran and the previous ones otherwise. The front end never writes them itself. |
| `ParserLemmas.FrontEndRecordsInBounds` | Include/jsonifier/Parser.hpp:82-95 | Every front-end record has end offset equal to the buffer's size. Its offset lies in [0, size] when the decoder keeps its read position inside the buffer. |
| `ParserLemmas.TargetKeptAfterDecoding` | Include/jsonifier/Parser.hpp:86-97 | Once the decoder has run, the call leaves the target as the decoder filled it, even when the balance check then fails. |
| `CallSequences.ReplayAccumulatesCounters` | Include/jsonifier/Parser.hpp:75-86 | Take a decoder whose change to the counters does not depend on their starting values. After any sequence of calls on one context, each counter is its initial value plus the net change of every call that reached the decoder. Nothing resets the counters in between. |
| `CallSequences.SucceedsAfterReplayIff` | Include/jsonifier/Parser.hpp:86-98 | With such a decoder, a call made after earlier calls succeeds if and only if two things hold: the call reaches the decoder, and its own net change cancels what the initial counters and the earlier calls left. |
| `CallSequences.RepeatIsIdempotentWhenCountersRestored` | Include/jsonifier/Parser.hpp:74-98 | A call that leaves the counters as it found them is idempotent when it is repeated with the same target value, as the value form always is: the repeat gives the identical outcome. Once the call gets past the size and validation checks, the sink holds only the repeated call's records. An empty or rejected buffer leaves the earlier records in place. |
| `CallSequences.RepeatedCallsAreStable` | Include/jsonifier/Parser.hpp:74-98 | Under the same conditions, with the same target value each time, any number of further repetitions keeps the state the first call produced. |
| `CallSequences.InPlaceRepeatIsIdempotent` | Include/jsonifier/Parser.hpp:74-98 | Take the in-place repeat, which hands the decoder the object the first call filled. Suppose the counters are restored and decoding into that object gives the same decoder result. Then the repeat gives the identical outcome. |
| `CallSequences.SuccessFromZeroIsRepeatable` | Include/jsonifier/Parser.hpp:74-98 | A success that started from zero counters can be repeated with the same target value, once or any number of times, with the same outcome and state. |
| `CallSequences.RepeatedOpenBraceDiffers` | Include/jsonifier/Parser.hpp:75-91 | Take a decoder that counts openers minus closers. On `{` from zero counters, the call fails on an open object and leaves the object counter at 1. Repeating it gives a different outcome, so a call is not idempotent in general. |
| `CallSequences.StaleCountersChangeLaterCalls` | Include/jsonifier/Parser.hpp:75-98 | With the same decoder, `{}` succeeds from zero counters. After a call on `{` it fails with `ImbalancedObjectBraces`: a call's result depends on earlier calls. |

## Left out

- `parse_impl<...>::impl`, the per-shape decoder, is not part of this model. It is an arbitrary function of the target, the buffer and the counters. The model does not bound what it returns.
- The validator `derivedRef.validateJson` and Validator.hpp are not part of this model. The validator is an arbitrary predicate on the buffer. Any records it appends to the sink itself are not modelled.
- The decoder's access to the context through `parserPtr` and `rootIter` is not modelled. The model gives the decoder the buffer, whose address is the root, and lets it append records. It is not allowed to rewrite or clear the sink.
- `error::constructError` internals, the message text, the `std::source_location` capture and the buffer-start reference kept in a record are left out. A record is class, kind, offset and end offset.
- The CRTP self-reference (`derivedRef`, `initializeSelfRef`), the deleted copy constructor and assignment, the destructor and the `static_assert` type checks are left out. They are compile-time or object-model mechanics with no run-time behaviour.
- `parse_options` is a template parameter in the source and a value here. Its `minified` flag is never read by the front end. C++ keeps one static context per instantiation of `parseJson`. Here the caller passes the context, and `ParseInto` and `ParseValue` require only that its options match.
- Parser.Parser.ParseValue: every failing return is `None`. The source returns `value_type{}` at lines 104 and 108, the undecoded `object{}` from line 116 at line 123, and `false` converted to `value_type` at lines 130 and 135.
- The counters are `int64_t` and the offsets are pointer differences. Only the decoder changes the counters, and the front end only compares them with zero, so the model uses unbounded integers and does not model wrap-around.
- Parser.Parser.GetErrors: returns a copy of the sink. The source returns a mutable reference to the vector (lines 140-142), and writes through that reference are not modelled.
- Concurrency is not modelled. The facade is not safe for simultaneous calls, and the model assumes calls run one at a time.
