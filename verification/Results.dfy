// Options, results and the error causes shared by every module.
module Results {

  datatype Option<+T> = None | Some(value: T)

  // The causes behind the variants of `Pkcs11Error` and behind the messages the two signing
  // loops wrap. Messages are dropped; the input index a message names is kept.
  datatype Error =
    | Refused                               // the token refused a call
    | ObjectNotFound
    | Ambiguous(count: nat)
    | PolicyViolation
    | OffNetwork                            // a whitelist entry is not on the signer's network
    | Serialization
    | AmountPanic | CounterPanic | LengthPanic   // the source panics here
    | BadSignatureLength
    | BadCompactSignature
    | BadSeedLength
    | BadEcPoint
    | EmptyPoint | MalformedLength | Truncated
    | PathTooShort(input: nat)
    | BadSighashType(input: nat)
    | MissingWitnessScript(input: nat)
    | MissingWitnessUtxo(input: nat)
    | SighashFailure(input: nat)
    | NoSegwitSigner
    | NoTaprootSigner
    | ExtractFailure
    | MissingField(index: nat, field: string)
    | BadField(index: nat, field: string)
    | UnknownVendor
    | UnknownNetwork
    | Rejected
    | NoMembers
    | Degenerate(first: nat, second: nat)

  datatype Result<+T> = Ok(value: T) | Err(error: Error)

  type byte = x: int | 0 <= x < 0x100
  type u32 = x: int | 0 <= x < 0x1_0000_0000
  type u64 = x: int | 0 <= x < 0x1_0000_0000_0000_0000
}
