/** Failure kinds of the codec and the Result type that carries them.
    Every exception the C# code can raise on the modelled paths becomes one variant. */
module Errors {

  datatype Error =
    | NoChannel              // Sound.Write: the sound has no channel
    | ChannelLengthMismatch  // Sound.Write: channels of different lengths
    | TooShort               // Read(byte[], int): the initial length guard
    | BadMagic               // a RIFF or WAVE signature mismatch
    | InvalidBitsPerSample   // bits per sample not 8, 16 or 32
    | MissingDataChunk       // no `data` tag before the end of the input
    | Truncated              // Read(byte[], int): the data does not fit the buffer
    | EndOfStream            // BinaryReader ran out of bytes outside the scan
    | OutOfRange             // an index or BitConverter argument outside the input
    | DivideByZero           // channel count 0, or a sample rate below 1000 in Duration

  datatype Result<+T> = Ok(value: T) | Err(error: Error) {
    predicate IsFailure() { Err? }
    function PropagateFailure<U>(): Result<U>
      requires Err?
    {
      Err(error)
    }
    function Extract(): T
      requires Ok?
    {
      value
    }
  }
}
