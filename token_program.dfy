/**
 * solana/token_program.py: the instruction indices of the token program,
 * the static table of argument formats per instruction, the lookup that
 * picks a table entry from the type prefix of an instruction's data, and
 * decoders that all raise NotImplementedError.
 */
module TokenProgram {
  import opened Bytes
  import opened Solana
  import L = Layouts
  import I = Instructions

  const InitializeMintIndex: nat := 0
  const InitializeAccountIndex: nat := 1
  const InitializeMultisigIndex: nat := 2
  const TransferIndex: nat := 3
  const ApproveIndex: nat := 4
  const RevokeIndex: nat := 5
  const SetAuthorityIndex: nat := 6
  const MintToIndex: nat := 7
  const BurnIndex: nat := 8
  const CloseAccountIndex: nat := 9
  const FreezeAccountIndex: nat := 10
  const ThawAccountIndex: nat := 11
  const Transfer2Index: nat := 12
  const Approve2Index: nat := 13
  const MintTo2Index: nat := 14
  const Burn2Index: nat := 15

  /** The instruction indices in declaration order. */
  const Indices: seq<nat> := [
    InitializeMintIndex, InitializeAccountIndex, InitializeMultisigIndex, TransferIndex,
    ApproveIndex, RevokeIndex, SetAuthorityIndex, MintToIndex, BurnIndex, CloseAccountIndex,
    FreezeAccountIndex, ThawAccountIndex, Transfer2Index, Approve2Index, MintTo2Index, Burn2Index]

  /** The indices are exactly 0..15, each once. */
  lemma IndicesAreContiguous()
    ensures |Indices| == 16
    ensures forall i :: 0 <= i < |Indices| ==> Indices[i] == i
    ensures forall i, j :: 0 <= i < j < |Indices| ==> Indices[i] != Indices[j]
  {
  }

  /** `InstructionLayout`: an instruction index and the struct format of its arguments. */
  datatype InstructionLayout = InstructionLayout(idx: nat, fmt: string)

  /** `TOKEN_INSTRUCTION_LAYOUTS`. */
  const TokenInstructionLayouts: seq<InstructionLayout> := [
    InstructionLayout(InitializeMintIndex, "B32s32s"),
    InstructionLayout(InitializeAccountIndex, ""),
    InstructionLayout(InitializeMultisigIndex, "B"),
    InstructionLayout(TransferIndex, "Q"),
    InstructionLayout(ApproveIndex, "Q"),
    InstructionLayout(RevokeIndex, ""),
    InstructionLayout(SetAuthorityIndex, "I32s"),
    InstructionLayout(MintToIndex, "Q"),
    InstructionLayout(BurnIndex, "Q"),
    InstructionLayout(CloseAccountIndex, ""),
    InstructionLayout(FreezeAccountIndex, ""),
    InstructionLayout(ThawAccountIndex, ""),
    InstructionLayout(Transfer2Index, "QB"),
    InstructionLayout(Approve2Index, "QB"),
    InstructionLayout(MintTo2Index, "QB"),
    InstructionLayout(Burn2Index, "QB")]

  /** Entry i of the table describes instruction i. */
  lemma LayoutsAreIndexed()
    ensures |TokenInstructionLayouts| == 16
    ensures forall i :: 0 <= i < |TokenInstructionLayouts| ==> TokenInstructionLayouts[i].idx == i
  {
  }

  /** Bytes per item of a struct format code: B u8, I u32, Q u64, s one byte of a byte string. */
  function CodeSize(c: char): Option<nat>
  {
    match c
    case 'B' => Some(1)
    case 'I' => Some(4)
    case 'Q' => Some(8)
    case 's' => Some(1)
    case _ => None
  }

  predicate IsDigit(c: char) { '0' <= c <= '9' }

  /**
   * The byte width of a struct format read from `fmt`, where `count` is the
   * repeat count read so far (digits before a code); no alignment padding.
   * None for a format this model does not know.
   */
  function WidthFrom(fmt: string, count: Option<nat>): Option<nat>
    decreases |fmt|
  {
    if fmt == [] then (if count.None? then Some(0) else None)
    else if IsDigit(fmt[0]) then
      var digit := (fmt[0] as int - '0' as int) as nat;
      WidthFrom(fmt[1..], Some(match count case None => digit case Some(n) => 10 * n + digit))
    else
      match CodeSize(fmt[0])
      case None => None
      case Some(size) =>
        var n := match count case None => 1 case Some(n) => n;
        match WidthFrom(fmt[1..], None)
        case None => None
        case Some(rest) => Some(n * size + rest)
  }

  /** The byte width of a struct format. */
  function FormatWidth(fmt: string): Option<nat>
  {
    WidthFrom(fmt, None)
  }

  /**
   * The argument width of each instruction, by index: 65 for InitializeMint,
   * 1 for InitializeMultisig, 8 for the u64 amount of Transfer, Approve,
   * MintTo and Burn, 36 for SetAuthority, 9 for the four checked variants
   * and 0 where there are no arguments.
   */
  const ArgumentWidths: seq<nat> := [65, 0, 1, 8, 8, 0, 36, 8, 8, 0, 0, 0, 9, 9, 9, 9]

  /** `32s`: a 32-byte string. */
  lemma KeyWidth()
    ensures WidthFrom("32s", None) == Some(32)
  {
    assert WidthFrom("s", Some(32)) == Some(32);
    assert WidthFrom("2s", Some(3)) == Some(32);
  }

  lemma InitializeMintFormatWidth()
    ensures FormatWidth("B32s32s") == Some(65)
  {
    KeyWidth();
    assert WidthFrom("s32s", Some(32)) == Some(64);
    assert WidthFrom("2s32s", Some(3)) == Some(64);
  }

  lemma SetAuthorityFormatWidth()
    ensures FormatWidth("I32s") == Some(36)
  {
    KeyWidth();
  }

  lemma CheckedAmountFormatWidth()
    ensures FormatWidth("QB") == Some(9)
  {
  }

  lemma ShortFormatWidths()
    ensures FormatWidth("") == Some(0) && FormatWidth("B") == Some(1) && FormatWidth("Q") == Some(8)
  {
  }

  /** Entry i of the table has the width given by ArgumentWidths. */
  lemma EntryWidth(i: nat)
    requires i < 16
    ensures FormatWidth(TokenInstructionLayouts[i].fmt) == Some(ArgumentWidths[i])
  {
    if i == InitializeMintIndex {
      InitializeMintFormatWidth();
    } else if i == SetAuthorityIndex {
      SetAuthorityFormatWidth();
    } else if i >= Transfer2Index {
      CheckedAmountFormatWidth();
    } else {
      ShortFormatWidths();
    }
  }

  /** Each table format has the width given by ArgumentWidths. */
  lemma LayoutWidths()
    ensures |TokenInstructionLayouts| == |ArgumentWidths| == 16
    ensures forall i :: 0 <= i < 16 ==>
      FormatWidth(TokenInstructionLayouts[i].fmt) == Some(ArgumentWidths[i])
  {
    forall i | 0 <= i < 16
      ensures FormatWidth(TokenInstructionLayouts[i].fmt) == Some(ArgumentWidths[i])
    {
      EntryWidth(i);
    }
  }

  /** `instruction.data[:4]`: at most the first four bytes. */
  function TypePrefix(data: seq<byte>): (r: seq<byte>)
    ensures |r| == if |data| < 4 then |data| else 4
    ensures r <= data
  {
    if |data| < 4 then data else data[..4]
  }

  /**
   * `decode_instruction_layout`: reads the type index from the first four
   * bytes of the data with `fromUint8Bytes` (the library's `from_uint8_bytes`,
   * which is not part of this model) and returns that table entry or fails.
   */
  function DecodeInstructionLayout(ix: Instruction, fromUint8Bytes: seq<byte> -> int)
    : (r: Result<InstructionLayout>)
    ensures var typeIdx := fromUint8Bytes(TypePrefix(ix.data));
      && (r.Ok? <==> 0 <= typeIdx < 16)
      && (r.Ok? ==> r.value == TokenInstructionLayouts[typeIdx] && r.value.idx == typeIdx)
      && (r.Err? ==> r.error == UnknownInstruction)
  {
    var typeIdx := fromUint8Bytes(TypePrefix(ix.data));
    if 0 <= typeIdx < |TokenInstructionLayouts| then Ok(TokenInstructionLayouts[typeIdx])
    else Err(UnknownInstruction)
  }

  /** The lookup reads nothing of the instruction but the first four bytes of its data. */
  lemma DecodeInstructionLayoutReadsPrefix(ix: Instruction, ix': Instruction, fromUint8Bytes: seq<byte> -> int)
    requires TypePrefix(ix.data) == TypePrefix(ix'.data)
    ensures DecodeInstructionLayout(ix, fromUint8Bytes) == DecodeInstructionLayout(ix', fromUint8Bytes)
  {
  }

  /** The `decode_*` functions of this file: each raises NotImplementedError whatever it is given. */
  function Decode(t: L.InstructionType, ix: Instruction): (r: Result<I.Operation>)
    ensures !r.Ok?
    ensures r.error == Unsupported
  {
    Err(Unsupported)
  }
}
