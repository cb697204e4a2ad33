# SPL Token instruction codec

This project models the instruction codec of the SPL Token program client in
Dafny. SPL Token is Solana's token program. The codec builds typed token
operations into transaction instructions and decodes them back. An
instruction is an ordered list of account references, a program id and the
data bytes. Two source files are modelled:

- `spl/token/instructions.py`. It has five builders: `initialize_mint`,
  `initialize_account`, `initialize_multisig`, `transfer` and
  `close_account`. Each has a matching `decode_*` decoder. The shared helper
  `__add_signers` applies the "authority, or multisig plus signers" account
  convention. Every other builder and decoder raises `NotImplementedError`,
  which the model returns as the error `Unsupported`.
- `solana/token_program.py`. It has the sixteen instruction indices, the
  static table `TOKEN_INSTRUCTION_LAYOUTS` of argument formats, and
  `decode_instruction_layout`. All of its `decode_*` functions raise
  `NotImplementedError`.

Files and modules:

- `bytes.dfy` (`Bytes`): bytes, plus little-endian encoding and decoding with
  both round trips.
- `solana.dfy` (`Solana`): `PublicKey` (32 bytes), `AccountMeta`,
  `Instruction`, the error type, and `ValidateKeys`
  (`validate_instruction_keys`).
- `layouts.dfy` (`Layouts`): the instruction types and their discriminants.
  It also models `INSTRUCTIONS_LAYOUT` as `Build` and `Parse`, and holds
  `ValidateType` (`validate_instruction_type`).
- `instructions.dfy` (`Authority`, `Instructions`): the builders, decoders,
  signer helper, dispatchers and round-trip lemmas.
- `token_program.dfy` (`TokenProgram`): the index constants, the layout
  table and its widths, the layout lookup and the stub decoders.

Errors are values of `Solana.Error`:

- `WrongType(expected, actual)`: the data's instruction type is not the one
  the decoder expects.
- `TooFewKeys(required, actual)`: the instruction has too few account
  references.
- `Truncated`: the data is shorter than its layout.
- `OutOfRange`: a field does not fit its layout. The Python builders get this
  from the layout library.
- `UnknownInstruction`: `decode_instruction_layout` got a type index outside
  the table.
- `Unsupported`: the operation raises `NotImplementedError`.

The builders check fields in the same order as the source, and so do the
decoders. Most decoders check the key count, then parse the data, then check
the type. `decode_initialize_multisig` parses and checks the type first,
because the signer count `m` it reads decides how many keys it needs.

## Model

| member | source | states |
|---|---|---|
| `Bytes.FromLittleEndianOfLittleEndian` | spl/token/instructions.py:492 | decoding the little-endian bytes of a value that fits the width gives the value back |
| `Bytes.LittleEndianOfFromLittleEndian` | spl/token/instructions.py:344 | every byte string is the little-endian encoding of the value it decodes to |
| `Bytes.LittleEndianZero` | spl/token/instructions.py:430 | zero encodes as all zero bytes |
| `Bytes.FromLittleEndianZero` | spl/token/instructions.py:296 | a little-endian field decodes to zero exactly when all its bytes are zero |
| `Solana.ValidateKeys` | spl/token/instructions.py:285 | passes exactly when there are at least the required number of account references; otherwise fails with TooFewKeys naming the required and actual counts |
| `Layouts.DiscriminantsAreContiguous` | spl/token/instructions.py:10 | the sixteen instruction types have the discriminants 0..15, distinct, one per type |
| `Layouts.Build` | spl/token/instructions.py:431-441 | building succeeds exactly when every field fits its width (otherwise OutOfRange), and the built data starts with the discriminant |
| `Layouts.Parse` | spl/token/instructions.py:287 | parsing fails only with Truncated; a parse reports the data's first byte as its type, with arguments of the shape that type's layout has, every field in range |
| `Layouts.ParseBuild` | spl/token/instructions.py:431-441 | parsing built data gives back the instruction type and the arguments |
| `Layouts.BuildParse` | spl/token/instructions.py:287 | whatever parses was read from a prefix of the data that is exactly the type byte followed by the encoding of the parsed arguments |
| `Layouts.ParseIgnoresTrailing` | spl/token/instructions.py:305 | bytes after the layout do not change the parse |
| `Layouts.ValidateType` | spl/token/instructions.py:288 | passes exactly when the parsed type is the expected one; otherwise fails with WrongType naming both |
| `Instructions.AddSigners` | spl/token/instructions.py:414-420 | appends the authority's references and leaves the existing prefix unchanged. With no signers it adds one entry, the owner as signer and not writable. With signers it adds the owner as neither signer nor writable, then each signer in order as signer and not writable, growing the list by 1 + len(signers) |
| `Instructions.AuthorityMetasDecode` | spl/token/instructions.py:340-343 | after any fixed prefix, the authority's references put the authority first, and the addresses after it are exactly the signers, for empty and non-empty signer lists |
| `Instructions.DecodeInitializeMint` | spl/token/instructions.py:283-298 | fewer than 2 keys gives TooFewKeys(2, n); then unparsable data gives Truncated; then a type other than 0 gives WrongType(0, actual). It succeeds exactly when there are at least 2 keys, the type byte is 0 and the data holds the whole argument layout; then the mint is key 0, the program id is kept, decimals is data byte 1 and the mint authority is data bytes 2-33 |
| `Instructions.DecodeInitializeMintOption` | spl/token/instructions.py:295-297 | the decoded freeze authority is absent exactly when the option flag bytes are all zero, and otherwise is the 32 bytes after the flag |
| `Instructions.DecodeInitializeAccount` | spl/token/instructions.py:301-313 | fewer than 4 keys gives TooFewKeys(4, n), then Truncated, then WrongType(1, actual); it succeeds exactly when there are at least 4 keys and the type byte is 1, and then returns account, mint and owner from keys 0-2 |
| `Instructions.NegativeTail` | spl/token/instructions.py:326 | Python's `s[-n:]`: the last n elements when 0 < n <= len(s), and all of s when n is 0 or too large |
| `Instructions.DecodeInitializeMultisig` | spl/token/instructions.py:316-328 | parsing and the type check (Truncated, WrongType(2, actual)) come before the key count. The count read from the data decides the required 2 + m keys (TooFewKeys(2 + m, n)). On success it returns m, the multisig from key 0 and the signers from keys[-m:] |
| `Instructions.DecodeInitializeMultisigZeroSigners` | spl/token/instructions.py:326 | with m = 0, the decoder returns every key as a signer, because `keys[-0:]` is the whole list |
| `Instructions.DecodeTransfer` | spl/token/instructions.py:331-345 | fewer than 3 keys gives TooFewKeys(3, n), then Truncated, then WrongType(3, actual). It succeeds exactly when there are at least 3 keys, the type byte is 3 and 8 amount bytes follow; then it returns source, destination and authority from keys 0-2, the signers from keys[3:], and the amount as the little-endian u64 in data bytes 1-8 |
| `Instructions.DecodeCloseAccount` | spl/token/instructions.py:373-386 | fewer than 3 keys gives TooFewKeys(3, n), then Truncated, then WrongType(9, actual); it succeeds exactly when there are at least 3 keys and the type byte is 9, and then returns account, destination and owner from keys 0-2 and the signers from keys[3:] |
| `Instructions.Decode` | spl/token/instructions.py:348-411 | the decoder for each instruction type. It gives Unsupported exactly for the types whose decoder is not implemented, and a successful decode has the requested type. For each of the five implemented types it succeeds exactly when that type's decoder does, and then carries the decoder's record; otherwise it fails with the decoder's error |
| `Instructions.InitializeMint` | spl/token/instructions.py:423-449 | succeeds exactly when decimals fits a u8 (otherwise OutOfRange); the keys are the mint (writable) and then the rent sysvar (read-only); the data starts with type 0 |
| `Instructions.InitializeMintLayout` | spl/token/instructions.py:430-441 | the data is type 0, decimals and the mint authority. With no freeze authority, the option flag and the 32-byte slot are all zeros. With one, the flag is 1 and the slot holds that key |
| `Instructions.InitializeMintRoundTrip` | spl/token/instructions.py:283-298 | decoding a built InitializeMint gives back every parameter, and an absent freeze authority comes back absent |
| `Instructions.InitializeAccount` | spl/token/instructions.py:452-469 | exactly 4 keys: account (writable), then mint and owner, then the rent sysvar last; the data is the type byte 1 |
| `Instructions.InitializeAccountRoundTrip` | spl/token/instructions.py:301-313 | decoding a built InitializeAccount gives back program id, account, mint and owner |
| `Instructions.InitializeMultisig` | spl/token/instructions.py:472-487 | succeeds exactly when m fits a u8. The keys are the multisig (writable), the rent sysvar, then every signer in order, none signing or writable. The data is [2, m]. When m = len(signers) >= 1 the decoder gives back the parameters |
| `Instructions.InitializeMultisigDecodeBuilt` | spl/token/instructions.py:316-328 | for 1 <= m, decoding a built InitializeMultisig succeeds exactly when m <= len(signers), and returns the last m signers |
| `Instructions.InitializeMultisigRoundTrip` | spl/token/instructions.py:472-487 | with m = len(signers) >= 1, decoding the built instruction gives back every parameter |
| `Instructions.Transfer` | spl/token/instructions.py:490-499 | succeeds exactly when the amount fits a u64. The keys are source (writable) and destination (not writable, as line 495 has it), then the authority's references. The data is type 3 and the amount little-endian. Decoding the result gives back every parameter |
| `Instructions.TransferRoundTrip` | spl/token/instructions.py:331-345 | decode_transfer of a built transfer gives back program id, source, destination, authority, signers and amount, with or without signers |
| `Instructions.CloseAccount` | spl/token/instructions.py:527-539 | the keys are account and destination, both writable, then the owner's references; the data is type 9; decoding gives back account, destination, owner and signers |
| `Instructions.Encode` | spl/token/instructions.py:502-569 | the builder for each operation. It gives Unsupported exactly for the unimplemented ones. Built data starts with the operation's discriminant. An implemented operation whose fields fit decodes back to itself, except InitializeMultisig, which does so only when 1 <= m == len(signers), because the decoder takes the signers as keys[-m:] |
| `TokenProgram.IndicesAreContiguous` | solana/token_program.py:12-27 | the sixteen index constants are 0..15 in order and pairwise distinct |
| `TokenProgram.LayoutsAreIndexed` | solana/token_program.py:300-317 | the table has 16 entries and entry i has idx i |
| `TokenProgram.LayoutWidths` | solana/token_program.py:301-316 | the argument widths of the formats: 65 for InitializeMint, 1 for InitializeMultisig, 8 for Transfer/Approve/MintTo/Burn, 36 for SetAuthority, 9 for the checked variants, 0 for the rest |
| `TokenProgram.TypePrefix` | solana/token_program.py:323 | `data[:4]` is a prefix of the data of length min(4, len(data)) |
| `TokenProgram.DecodeInstructionLayout` | solana/token_program.py:320-327 | succeeds exactly when the index read from the type prefix is in 0..15, and then returns the table entry whose idx is that index; otherwise fails with UnknownInstruction |
| `TokenProgram.DecodeInstructionLayoutReadsPrefix` | solana/token_program.py:323-324 | two instructions whose data agree on the first four bytes get the same result |
| `TokenProgram.Decode` | solana/token_program.py:330-402 | every decoder of this file fails with Unsupported and never returns parameters |

## Left out

- The RPC transport in `src/solanarpc/providers/base.py` is left out. Both of its methods only raise, and it does network I/O.
- The internals of `PublicKey` are left out: base58 and curve checks. A key is an opaque 32-byte string.
- `SYSVAR_RENT_PUBKEY` is the constant `Solana.SysvarRent`, the bytes of address `SysvarRent111111111111111111111111111111111`. No proof depends on its value.
- The layout module `spl/token/_layouts` is not part of this model. Its layout is specified here as a 1-byte type followed by little-endian fields: a u8 for decimals and m, a u64 for amount, and 32 raw bytes per key.
- The width of `freeze_authority_option` is fixed in the layout module, which is not part of this model. `Layouts.FreezeAuthorityOptionWidth` is therefore a constant with no value, of a type holding only widths of at least 1 byte. So every proof holds for any such width.
- Only five instruction types have argument layouts in `Layouts.Parse`: the ones whose builders are implemented. The other types parse with no arguments. A decoder that gets such data therefore reports WrongType, and never Truncated.
- `Layouts.Build` does not check that the arguments match the instruction type. Every builder passes matching ones.
- `validate_instruction_keys` and `validate_instruction_type` are not part of this model. They are modelled by the contract their callers rely on (`Solana.ValidateKeys`, `Layouts.ValidateType`).
- `from_uint8_bytes` is not part of this model. `TokenProgram.DecodeInstructionLayout` takes it as a function parameter, applied to the first four bytes.
- `TokenProgram.FormatWidth` adds up item sizes without alignment padding. It knows only the codes the table uses (B, I, Q, s).
- `Instructions.AddSigners` and the loop in `Instructions.InitializeMultisig` return the extended list as a new value. Python appends to a list in place instead. Every caller owns a freshly made list, so the model does not capture aliasing.
- In `initialize_mint`, Python's truth test on `freeze_authority` is modelled as "present". A `PublicKey` is never false.
- The duplicated parameter records are merged. `solana/token_program.py` defines its own copies, with `token_program_id` in place of `program_id`. `TokenProgram.Decode` returns the `Instructions.Operation` record type.
- `Instructions.Operation` stores the operations whose builders are unimplemented with their fields inline. The `AuthorityType` enum is data only.
- `Instructions.Decode` and `TokenProgram.Decode` take an instruction type. FreezeAccount has no decoder in either file, and both dispatchers answer Unsupported for it.
- These behaviours are modelled as the code has them, although a reader might expect otherwise:
  - `transfer` marks the destination non-writable.
  - CloseAccount data made of the type byte alone decodes: its layout has no arguments.
  - No builder rejects a zero key.
  - Decoding a Transfer buffer as MintTo gives Unsupported, because `decode_mint_to` is not implemented.
- `Instructions.DecodeInitializeMultisig` is stated as written: with m = 0 it returns every key as a signer. The round trips are stated for m >= 1.
