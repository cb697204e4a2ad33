/**
 * The Solana records the token codec works with: public keys, account
 * references, transaction instructions, and the typed failures of the codec.
 * Public keys are opaque 32-byte strings here (no base58, no curve checks).
 */
module Solana {
  import opened Bytes

  type PublicKey = k: seq<byte> | |k| == 32 witness Zeros(32)

  /** `PublicKey(0)`: the all-zero key used to fill an absent optional key. */
  const ZeroKey: PublicKey := Zeros(32)

  /** `SYSVAR_RENT_PUBKEY`, the address SysvarRent111111111111111111111111111111111 as bytes. */
  const SysvarRent: PublicKey := [
    6, 167, 213, 23, 25, 44, 92, 81, 33, 140, 201, 76, 61, 74, 241, 127,
    88, 218, 238, 8, 155, 161, 253, 68, 227, 219, 217, 138, 0, 0, 0, 0]

  /** An account reference: an address with its signer and writable flags. */
  datatype AccountMeta = AccountMeta(pubkey: PublicKey, isSigner: bool, isWritable: bool)

  /** A transaction instruction: ordered account references, the program, the data bytes. */
  datatype Instruction = Instruction(keys: seq<AccountMeta>, programId: PublicKey, data: seq<byte>)

  datatype Option<T> = None | Some(value: T)

  /** The distinguishable ways an encode or decode call fails. */
  datatype Error =
    | WrongType(expected: nat, actual: nat)    // validate_instruction_type
    | TooFewKeys(required: nat, actual: nat)   // validate_instruction_keys
    | Truncated                                // the data is shorter than its layout
    | OutOfRange                               // a field value does not fit its layout
    | UnknownInstruction                       // a type index outside the layout table
    | Unsupported                              // the operation raises NotImplementedError

  datatype Result<T> = Ok(value: T) | Err(error: Error) {
    predicate IsFailure() { Err? }
    function PropagateFailure<U>(): Result<U>
      requires Err?
    {
      Err(error)
    }
    function Extract(): T
      requires Ok?
    {
      value
    }
  }

  /** The result of a check that either passes or fails with an error. */
  datatype Outcome = Pass | Fail(error: Error) {
    predicate IsFailure() { Fail? }
    function PropagateFailure<U>(): Result<U>
      requires Fail?
    {
      Err(error)
    }
  }

  /**
   * `validate_instruction_keys`: an instruction with fewer than `required`
   * account references is rejected.
   */
  function ValidateKeys(ix: Instruction, required: nat): (r: Outcome)
    ensures r.Pass? <==> |ix.keys| >= required
    ensures r.Fail? ==> r.error == TooFewKeys(required, |ix.keys|)
  {
    if |ix.keys| < required then Fail(TooFewKeys(required, |ix.keys|)) else Pass
  }

  /** The addresses of a run of account references, in order. */
  function Pubkeys(metas: seq<AccountMeta>): (r: seq<PublicKey>)
    ensures |r| == |metas|
    ensures forall i :: 0 <= i < |metas| ==> r[i] == metas[i].pubkey
  {
    seq(|metas|, i requires 0 <= i < |metas| => metas[i].pubkey)
  }
}
