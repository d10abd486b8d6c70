/** The exceptions the library lets escape, one constructor per cause.
    Two causes share a .NET type: the tokenizer's unterminated quote and a
    repeated dictionary key are both `ArgumentException`s, which a C#
    `catch (ArgumentException)` does not tell apart; they are kept apart here
    so that contracts can name the cause. */
module Exceptions {

  datatype Exception =
      /** Thrown by the command tokenizer for an unterminated quote. */
    | ArgumentException(message: string)
      /** The ArgumentException a `Dictionary` constructor throws when the
          sequence it is built from repeats a key (the name of this
          constructor is the model's, not a .NET type). */
    | DuplicateKeyException(key: string)
      /** Indexing past the fields of a split port declaration. */
    | IndexOutOfRangeException
      /** `FileInfo.Length` on a path that does not exist. */
    | FileNotFoundException(fileName: string)
      /** Any failure the container engine reports for a request. */
    | DockerApiException
}
