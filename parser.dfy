/** The JSON parse front end: configuration, the shared parse context, and the
    parser facade with its two `parseJson` entry points. The per-shape decoder
    and the validator are collaborators passed in as functions. */
module Parser {
  import opened Errors

  /** `parse_options`: both flags default to false. `minified` is only a hint for
      the decoder; the front end never reads it. */
  datatype ParseOptions = ParseOptions(validateJson: bool, minified: bool)

  const DefaultParseOptions := ParseOptions(false, false)

  datatype Option<T> = None | Some(value: T)

  /** A contiguous input buffer: the address of its first byte (0 is the null
      pointer) and its bytes. */
  datatype Buffer = Buffer(data: nat, bytes: seq<char>) {
    function End(): int { data + |bytes| }
  }

  /** What the decoder hands back: the target it filled, the read position it
      reached (an address), the depth counters it left, and the records it
      appended to the error sink. */
  datatype DecodeOutcome<V> = DecodeOutcome(target: V, readIter: int, objectDepth: int, arrayDepth: int, emitted: seq<Error>)

  /** The derived type's `validateJson`. */
  type Validator = Buffer -> bool

  /** `parse_impl<...>::impl`: given the target, the buffer and the current depth
      counters, it decodes from the first byte. */
  type Decoder<!V> = (V, Buffer, int, int) -> DecodeOutcome<V>

  /** The abstract state one call reads and writes: the error sink, the two depth
      counters and the recorded root of the last buffer that got past the checks. */
  datatype State = State(errors: seq<Error>, objectDepth: int, arrayDepth: int, rootIter: int)

  /** Where a call returned. */
  datatype Exit = EmptyInput | ValidationFailed | NoOpener | UnbalancedObject | UnbalancedArray | Success

  datatype Outcome<V> = Outcome(exit: Exit, target: V, state: State)

  /** The test at the first byte: the read pointer is not null and points at `{` or `[`. */
  predicate OpensStructure(buf: Buffer)
  {
    buf.data != 0 && |buf.bytes| > 0 && (buf.bytes[0] == '{' || buf.bytes[0] == '[')
  }

  /** The call gets past every check before the decoder, so the decoder runs. */
  predicate Reaches(options: ParseOptions, validate: Validator, buf: Buffer)
  {
    |buf.bytes| > 0 && (!options.validateJson || validate(buf)) && OpensStructure(buf)
  }

  /** The effect of one `parseJson` call on `s`, in the order the code takes its
      decisions. The target is the caller's object (in-place form) or a freshly
      default-constructed one (value form). */
  function Call<V>(options: ParseOptions, validate: Validator, decode: Decoder<V>, s: State, target: V, buf: Buffer): (o: Outcome<V>)
    ensures !Reaches(options, validate, buf) ==>
              o.target == target && o.state.objectDepth == s.objectDepth && o.state.arrayDepth == s.arrayDepth
    ensures o.exit.Success? ==> Reaches(options, validate, buf)
  {
    if |buf.bytes| == 0 then
      Outcome(EmptyInput, target, s)
    else if options.validateJson && !validate(buf) then
      Outcome(ValidationFailed, target, s)
    else
      // the sink is cleared and the root recorded before anything else happens
      var root := buf.data;
      var readIter, endIter := buf.data, buf.End();
      if !OpensStructure(buf) then
        Outcome(NoOpener, target,
                State([ConstructError(Parsing, NoInput, readIter, endIter, root)], s.objectDepth, s.arrayDepth, root))
      else
        var d := decode(target, buf, s.objectDepth, s.arrayDepth);
        var after := State(d.emitted, d.objectDepth, d.arrayDepth, root);
        if d.objectDepth != 0 then
          Outcome(UnbalancedObject, d.target,
                  after.(errors := d.emitted + [ConstructError(Parsing, ImbalancedObjectBraces, d.readIter, endIter, root)]))
        else if d.arrayDepth != 0 then
          Outcome(UnbalancedArray, d.target,
                  after.(errors := d.emitted + [ConstructError(Parsing, ImbalancedArrayBrackets, d.readIter, endIter, root)]))
        else
          Outcome(Success, d.target, after)
  }

  /** `parse_options_internal`: the context shared with the decoder. One instance
      exists per instantiation of `parseJson` and lives as long as the program,
      so its counters carry over from one call to the next. */
  class ParseContext {
    var parserPtr: Parser?
    const optionsReal: ParseOptions
    var objectDepth: int
    var arrayDepth: int
    var rootIter: int
    /** Never set by the front end: it keeps its initial value. */
    const validatingJson: bool

    constructor (options: ParseOptions)
      ensures optionsReal == options && !validatingJson
      ensures parserPtr == null && objectDepth == 0 && arrayDepth == 0 && rootIter == 0
    {
      optionsReal := options;
      validatingJson := false;
      parserPtr := null;
      objectDepth, arrayDepth, rootIter := 0, 0, 0;
    }
  }

  /** The parser facade together with the error sink of the type deriving from it. */
  class Parser {
    var errors: seq<Error>

    constructor ()
      ensures errors == []
    {
      errors := [];
    }

    /** The sink and the context's counters and root, as one value. */
    function StateOf(ctx: ParseContext): State
      reads this, ctx
    {
      State(errors, ctx.objectDepth, ctx.arrayDepth, ctx.rootIter)
    }

    /** `getErrors`: the records of the last call that got past the checks. */
    method GetErrors() returns (r: seq<Error>)
      ensures r == errors
    {
      r := errors;
    }

    /** `parseJson(value, in)`: decodes `buf` into the caller's `target`. The
        returned target is the caller's object as the call leaves it. */
    method ParseInto<V>(ctx: ParseContext, options: ParseOptions, validate: Validator, decode: Decoder<V>, target: V, buf: Buffer)
      returns (ok: bool, result: V)
      requires ctx.optionsReal == options
      modifies this, ctx
      ensures var o := Call(options, validate, decode, old(StateOf(ctx)), target, buf);
              ok == o.exit.Success? && result == o.target && StateOf(ctx) == o.state
      ensures ctx.parserPtr == if |buf.bytes| == 0 || (options.validateJson && !validate(buf)) then old(ctx.parserPtr) else this
    {
      if |buf.bytes| == 0 {
        return false, target;
      }
      if options.validateJson {
        if !validate(buf) {
          return false, target;
        }
      }
      errors := [];
      ctx.parserPtr := this;
      var readIter := buf.data;
      var endIter := buf.End();
      ctx.rootIter := readIter;
      if readIter == 0 || (buf.bytes[0] != '{' && buf.bytes[0] != '[') {
        errors := errors + [ConstructError(Parsing, NoInput, readIter, endIter, ctx.rootIter)];
        return false, target;
      }
      var d := decode(target, buf, ctx.objectDepth, ctx.arrayDepth);
      result, readIter := d.target, d.readIter;
      ctx.objectDepth, ctx.arrayDepth := d.objectDepth, d.arrayDepth;
      errors := errors + d.emitted;
      if ctx.objectDepth != 0 {
        errors := errors + [ConstructError(Parsing, ImbalancedObjectBraces, readIter, endIter, ctx.rootIter)];
        return false, result;
      } else if ctx.arrayDepth != 0 {
        errors := errors + [ConstructError(Parsing, ImbalancedArrayBrackets, readIter, endIter, ctx.rootIter)];
        return false, result;
      }
      return true, result;
    }

    /** `parseJson<value_type>(in)`: decodes `buf` into a fresh `blank` target
        (the default-constructed value) and returns it on success; `None` stands
        for every failing return. */
    method ParseValue<V>(ctx: ParseContext, options: ParseOptions, validate: Validator, decode: Decoder<V>, blank: V, buf: Buffer)
      returns (r: Option<V>)
      requires ctx.optionsReal == options
      modifies this, ctx
      ensures var o := Call(options, validate, decode, old(StateOf(ctx)), blank, buf);
              r == (if o.exit.Success? then Some(o.target) else None) && StateOf(ctx) == o.state
      ensures ctx.parserPtr == if |buf.bytes| == 0 || (options.validateJson && !validate(buf)) then old(ctx.parserPtr) else this
    {
      if |buf.bytes| == 0 {
        return None;
      }
      if options.validateJson {
        if !validate(buf) {
          return None;
        }
      }
      errors := [];
      ctx.parserPtr := this;
      ctx.rootIter := buf.data;
      var value := blank;
      var readIter := buf.data;
      var endIter := buf.End();
      if readIter == 0 || (buf.bytes[0] != '{' && buf.bytes[0] != '[') {
        errors := errors + [ConstructError(Parsing, NoInput, readIter, endIter, ctx.rootIter)];
        return None;
      }
      var d := decode(value, buf, ctx.objectDepth, ctx.arrayDepth);
      value, readIter := d.target, d.readIter;
      ctx.objectDepth, ctx.arrayDepth := d.objectDepth, d.arrayDepth;
      errors := errors + d.emitted;
      if ctx.objectDepth != 0 {
        errors := errors + [ConstructError(Parsing, ImbalancedObjectBraces, readIter, endIter, ctx.rootIter)];
        return None;
      } else if ctx.arrayDepth != 0 {
        errors := errors + [ConstructError(Parsing, ImbalancedArrayBrackets, readIter, endIter, ctx.rootIter)];
        return None;
      }
      return Some(value);
    }
  }
}
