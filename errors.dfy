/** Structured diagnostics raised while parsing (the `error` record of jsonifier). */
module Errors {

  /** The class of a diagnostic. The front end raises only `Parsing`; collaborators
      may use other classes with the same record shape. */
  datatype ErrorClass = Parsing | OtherClass(code: nat)

  /** The kind of a diagnostic. The first three are the ones the front end raises;
      the decoder may raise further kinds (malformed literal, unexpected token, ...). */
  datatype ErrorKind =
    | NoInput
    | ImbalancedObjectBraces
    | ImbalancedArrayBrackets
    | OtherKind(code: nat)

  /** An immutable record: class, kind, the read position as an offset from the
      start of the buffer, and the end of the buffer as an offset from its start. */
  datatype Error = Error(errorClass: ErrorClass, kind: ErrorKind, offset: int, endOffset: int)

  predicate IsFrontEndKind(k: ErrorKind)
  {
    k.NoInput? || k.ImbalancedObjectBraces? || k.ImbalancedArrayBrackets?
  }

  /** Builds a record from three positions in memory: the read position, the end
      of the buffer and its first byte (the root). Offsets are relative to the root,
      so a read position inside the buffer gives an offset inside [0, end]. */
  function ConstructError(errorClass: ErrorClass, kind: ErrorKind, readIter: int, endIter: int, rootIter: int): (e: Error)
    ensures e.errorClass == errorClass && e.kind == kind
    ensures rootIter <= readIter <= endIter ==> 0 <= e.offset <= e.endOffset
    ensures e.endOffset - e.offset == endIter - readIter
  {
    Error(errorClass, kind, readIter - rootIter, endIter - rootIter)
  }

  /** A record does not depend on where the buffer sits in memory: moving all
      three positions by the same distance gives the same record. */
  lemma ConstructErrorIsRelative(errorClass: ErrorClass, kind: ErrorKind, readIter: int, endIter: int, rootIter: int, shift: int)
    ensures ConstructError(errorClass, kind, readIter + shift, endIter + shift, rootIter + shift)
         == ConstructError(errorClass, kind, readIter, endIter, rootIter)
  {
  }
}
