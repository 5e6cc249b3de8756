/** Error codes and the result and option types of the PB3 layer. */
module Results {

  /** The ways a PB3 unwrap can fail. */
  datatype Err =
    | Eof               // the input ended before the command's trits
    | Malformed         // a decoded value lies outside its domain
    | UnresolvedLink    // `join` could not resolve the link identifier
    | SignatureInvalid  // the recovered MSS public key is not the expected one

  datatype Result<T> = Ok(value: T) | Error(err: Err)

  datatype Option<T> = None | Some(value: T)
}
