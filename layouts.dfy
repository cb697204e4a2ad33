/**
 * The instruction data layout of the SPL Token program as the builders and
 * decoders of spl/token/instructions.py use it (`INSTRUCTIONS_LAYOUT`): a
 * one-byte instruction type followed by that type's arguments, multi-byte
 * integers little-endian and keys as 32 raw bytes.
 */
module Layouts {
  import opened Bytes
  import opened Solana

  /** The sixteen instruction types; the discriminant is fixed by the on-chain program. */
  datatype InstructionType =
    | InitializeMint | InitializeAccount | InitializeMultisig | Transfer
    | Approve | Revoke | SetAuthority | MintTo | Burn | CloseAccount
    | FreezeAccount | ThawAccount | Transfer2 | Approve2 | MintTo2 | Burn2
  {
    function Value(): (v: nat)
      ensures v < 16
    {
      match this
      case InitializeMint => 0
      case InitializeAccount => 1
      case InitializeMultisig => 2
      case Transfer => 3
      case Approve => 4
      case Revoke => 5
      case SetAuthority => 6
      case MintTo => 7
      case Burn => 8
      case CloseAccount => 9
      case FreezeAccount => 10
      case ThawAccount => 11
      case Transfer2 => 12
      case Approve2 => 13
      case MintTo2 => 14
      case Burn2 => 15
    }
  }

  /** Every instruction type, in discriminant order. */
  const AllTypes: seq<InstructionType> :=
    [InitializeMint, InitializeAccount, InitializeMultisig, Transfer,
     Approve, Revoke, SetAuthority, MintTo, Burn, CloseAccount,
     FreezeAccount, ThawAccount, Transfer2, Approve2, MintTo2, Burn2]

  /** The discriminants are 0..15, one per instruction type. */
  lemma DiscriminantsAreContiguous()
    ensures forall t: InstructionType :: t in AllTypes
    ensures |AllTypes| == 16 && forall i :: 0 <= i < 16 ==> AllTypes[i].Value() == i
    ensures forall s: InstructionType, t: InstructionType :: s.Value() == t.Value() ==> s == t
  {
    forall t: InstructionType
      ensures t in AllTypes
    {
      assert AllTypes[t.Value()] == t;
    }
  }

  /** A field width of at least one byte. */
  type OptionWidth = w: nat | w >= 1 witness 4

  /**
   * The width of `freeze_authority_option`. The layout module that fixes it is
   * not part of this model, so its value is left open: every proof here holds
   * for any width of at least one byte.
   */
  const FreezeAuthorityOptionWidth: OptionWidth

  lemma OptionWidthPositive()
    ensures FreezeAuthorityOptionWidth >= 1
  {
  }

  /** Bytes of InitializeMint arguments: decimals, mint authority, option flag, freeze authority. */
  const InitializeMintArgsWidth: nat := 1 + 32 + FreezeAuthorityOptionWidth + 32

  /** The parsed or to-be-built arguments that follow the instruction type. */
  datatype Args =
    | InitializeMintArgs(decimals: int, mintAuthority: PublicKey,
                         freezeAuthorityOption: int, freezeAuthority: PublicKey)
    | InitializeMultisigArgs(m: int)
    | AmountArgs(amount: int)
    | NoArgs

  /** Parsed instruction data: the raw type byte and its arguments. */
  datatype InstructionData = InstructionData(instructionType: nat, args: Args)

  /** The argument shape that the layout switches to for a type byte. */
  predicate Expects(instructionType: nat, args: Args)
  {
    if instructionType == InitializeMint.Value() then args.InitializeMintArgs?
    else if instructionType == InitializeMultisig.Value() then args.InitializeMultisigArgs?
    else if instructionType == Transfer.Value() then args.AmountArgs?
    else args.NoArgs?
  }

  /** Every integer field fits its width: u8 decimals and m, u64 amount. */
  predicate InRange(args: Args)
  {
    match args
    case InitializeMintArgs(decimals, _, option, _) =>
      0 <= decimals < 256 && 0 <= option < Pow256(FreezeAuthorityOptionWidth)
    case InitializeMultisigArgs(m) => 0 <= m < 256
    case AmountArgs(amount) => 0 <= amount < Pow256(8)
    case NoArgs => true
  }

  function ArgsBytes(args: Args): (r: seq<byte>)
    requires InRange(args)
  {
    match args
    case InitializeMintArgs(decimals, mintAuthority, option, freezeAuthority) =>
      [decimals as byte] + mintAuthority + LittleEndian(option, FreezeAuthorityOptionWidth) + freezeAuthority
    case InitializeMultisigArgs(m) => [m as byte]
    case AmountArgs(amount) => LittleEndian(amount, 8)
    case NoArgs => []
  }

  /** `INSTRUCTIONS_LAYOUT.build`: fails where a field does not fit its width. */
  function Build(t: InstructionType, args: Args): (r: Result<seq<byte>>)
    ensures r.Ok? <==> InRange(args)
    ensures r.Err? ==> r.error == OutOfRange
    ensures r.Ok? ==> |r.value| >= 1 && r.value[0] as nat == t.Value()
  {
    if InRange(args) then Ok([t.Value() as byte] + ArgsBytes(args)) else Err(OutOfRange)
  }

  /** The InitializeMint arguments read from the bytes after the type. */
  function ParseMintArgs(body: seq<byte>): (a: Args)
    requires |body| >= InitializeMintArgsWidth
    ensures a.InitializeMintArgs? && InRange(a)
  {
    var w := FreezeAuthorityOptionWidth;
    var flag := body[33..33 + w];
    assert |flag| == w;
    InitializeMintArgs(body[0] as int, body[1..33], FromLittleEndian(flag), body[33 + w..65 + w])
  }

  /** Parsing InitializeMint arguments reads only the first InitializeMintArgsWidth bytes. */
  lemma ParseMintArgsIgnoresTrailing(body: seq<byte>, extra: seq<byte>)
    requires |body| >= InitializeMintArgsWidth
    ensures ParseMintArgs(body + extra) == ParseMintArgs(body)
  {
    var w := FreezeAuthorityOptionWidth;
    var body' := body + extra;
    assert body'[1..33] == body[1..33];
    assert body'[33..33 + w] == body[33..33 + w];
    assert body'[33 + w..65 + w] == body[33 + w..65 + w];
  }

  /** Where each InitializeMint argument sits in the argument bytes. */
  lemma MintArgsBytes(args: Args)
    requires args.InitializeMintArgs? && InRange(args)
    ensures var body := ArgsBytes(args);
      var w := FreezeAuthorityOptionWidth;
      && |body| == InitializeMintArgsWidth
      && body[0] == args.decimals as byte
      && body[1..33] == args.mintAuthority
      && body[33..33 + w] == LittleEndian(args.freezeAuthorityOption, w)
      && body[33 + w..] == args.freezeAuthority
  {
    var w := FreezeAuthorityOptionWidth;
    var flag := LittleEndian(args.freezeAuthorityOption, w);
    var head := [args.decimals as byte] + args.mintAuthority;
    var body := ArgsBytes(args);
    assert body == (head + flag) + args.freezeAuthority;
    assert |head| == 33 && |flag| == w;
    assert body[..33 + w] == head + flag;
    assert body[33..33 + w] == (head + flag)[33..];
    assert body[1..33] == head[1..];
  }

  /** Parsing the bytes of InitializeMint arguments gives them back. */
  lemma ParseMintArgsOfArgsBytes(args: Args)
    requires args.InitializeMintArgs? && InRange(args)
    ensures |ArgsBytes(args)| == InitializeMintArgsWidth
    ensures ParseMintArgs(ArgsBytes(args)) == args
  {
    var w := FreezeAuthorityOptionWidth;
    var body := ArgsBytes(args);
    MintArgsBytes(args);
    assert body[33 + w..65 + w] == body[33 + w..];
    FromLittleEndianOfLittleEndian(args.freezeAuthorityOption, w);
  }

  /** The parsed InitializeMint arguments re-encode to the bytes they were read from. */
  lemma ArgsBytesOfParseMintArgs(body: seq<byte>)
    requires |body| >= InitializeMintArgsWidth
    ensures ArgsBytes(ParseMintArgs(body)) == body[..InitializeMintArgsWidth]
  {
    var w := FreezeAuthorityOptionWidth;
    LittleEndianOfFromLittleEndian(body[33..33 + w]);
    assert body[..65 + w] == [body[0]] + body[1..33] + body[33..33 + w] + body[33 + w..65 + w];
  }

  /**
   * `INSTRUCTIONS_LAYOUT.parse`: reads the type byte and the arguments its
   * layout calls for; bytes beyond them are ignored. The argument layouts of
   * the types whose builders raise NotImplementedError are not part of this
   * model, so those types parse with no arguments.
   */
  function Parse(data: seq<byte>): (r: Result<InstructionData>)
    ensures r.Err? ==> r.error == Truncated
    ensures r.Ok? ==> |data| >= 1 && r.value.instructionType == data[0] as nat
    ensures r.Ok? ==> Expects(r.value.instructionType, r.value.args) && InRange(r.value.args)
  {
    if |data| < 1 then Err(Truncated)
    else
      var tag := data[0] as nat;
      var body := data[1..];
      if tag == InitializeMint.Value() then
        if |body| < InitializeMintArgsWidth then Err(Truncated)
        else Ok(InstructionData(tag, ParseMintArgs(body)))
      else if tag == InitializeMultisig.Value() then
        if |body| < 1 then Err(Truncated)
        else Ok(InstructionData(tag, InitializeMultisigArgs(body[0] as int)))
      else if tag == Transfer.Value() then
        if |body| < 8 then Err(Truncated)
        else Ok(InstructionData(tag, AmountArgs(FromLittleEndian(body[..8]))))
      else Ok(InstructionData(tag, NoArgs))
  }

  /** Parsing what was built gives back the type and the arguments. */
  lemma ParseBuild(t: InstructionType, args: Args)
    requires Expects(t.Value(), args) && InRange(args)
    ensures Build(t, args).Ok?
    ensures Parse(Build(t, args).value) == Ok(InstructionData(t.Value(), args))
  {
    var data := Build(t, args).value;
    var body := ArgsBytes(args);
    assert data[1..] == body;
    match args
    case InitializeMintArgs(_, _, _, _) =>
      ParseMintArgsOfArgsBytes(args);
    case InitializeMultisigArgs(m) =>
    case AmountArgs(amount) =>
      assert body[..8] == body;
      FromLittleEndianOfLittleEndian(amount, 8);
    case NoArgs =>
  }

  /** Every successful parse read exactly a built prefix of the data. */
  lemma BuildParse(data: seq<byte>)
    requires Parse(data).Ok?
    ensures var d := Parse(data).value;
      var built := [data[0]] + ArgsBytes(d.args);
      |built| <= |data| && data[..|built|] == built
  {
    var d := Parse(data).value;
    var body := data[1..];
    match d.args
    case InitializeMintArgs(_, _, _, _) =>
      ArgsBytesOfParseMintArgs(body);
      assert data[..1 + InitializeMintArgsWidth] == [data[0]] + body[..InitializeMintArgsWidth];
    case InitializeMultisigArgs(m) =>
      assert data[..2] == [data[0], body[0]];
    case AmountArgs(amount) =>
      LittleEndianOfFromLittleEndian(body[..8]);
      assert data[..9] == [data[0]] + body[..8];
    case NoArgs =>
      assert data[..1] == [data[0]];
  }

  /** Bytes after the layout do not change what is parsed. */
  lemma ParseIgnoresTrailing(data: seq<byte>, extra: seq<byte>)
    requires Parse(data).Ok?
    ensures Parse(data + extra) == Parse(data)
  {
    var body, body' := data[1..], data[1..] + extra;
    assert (data + extra)[1..] == body';
    assert (data + extra)[0] == data[0];
    if data[0] as nat == InitializeMint.Value() {
      ParseMintArgsIgnoresTrailing(body, extra);
    } else if data[0] as nat == Transfer.Value() {
      assert body'[..8] == body[..8];
    } else if data[0] as nat == InitializeMultisig.Value() {
      assert body'[0] == body[0];
    }
  }

  /**
   * `validate_instruction_type`: parsed data whose type is not the expected
   * one is rejected, naming both types.
   */
  function ValidateType(parsed: InstructionData, expected: InstructionType): (r: Outcome)
    ensures r.Pass? <==> parsed.instructionType == expected.Value()
    ensures r.Fail? ==> r.error == WrongType(expected.Value(), parsed.instructionType)
  {
    if parsed.instructionType != expected.Value()
    then Fail(WrongType(expected.Value(), parsed.instructionType))
    else Pass
  }
}
