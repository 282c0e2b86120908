/** The error values of the lexer (midi_errors.go) and the wrappers used for Go's
    `(value, error)` results. */
module MidiErrors {
  /** Every error value the package declares, plus `Eof`, the `io.EOF` that the
      cursor's Seek returns. */
  datatype Error =
    | UnexpectedEventLength(message: string)
    | NoCallback
    | NoReadSeeker
    | VarLengthNotFound
    | UnexpectedEndOfFile
    | UnsupportedSmfFormat
    | ExpectedMthd
    | BadSizeChunk
    | Eof

  /** A Go `error` result: `None` is nil. */
  datatype Option<+T> = None | Some(value: T)

  /** A Go `(value, error)` result whose value is the zero value, and ignored by
      every caller, when the error is not nil. */
  datatype Result<+T> = Ok(value: T) | Err(error: Error)
}
