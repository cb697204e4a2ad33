/** `AuthorityType` of SetAuthority instructions (data only). */
module Authority {
  datatype AuthorityType = MintTokens | FreezeAccount | AccountOwner | CloseAccount
}

/**
 * The SPL Token instruction builders and decoders of spl/token/instructions.py:
 * each builder turns a parameter record into an instruction (account
 * references and data bytes), each decoder checks an instruction and gives
 * the record back. Five operations are implemented; the others raise
 * NotImplementedError, modelled as the error `Unsupported`.
 */
module Instructions {
  import opened Bytes
  import opened Solana
  import Authority
  import L = Layouts

  datatype InitializeMintParams = InitializeMintParams(
    decimals: int, programId: PublicKey, mint: PublicKey,
    mintAuthority: PublicKey, freezeAuthority: Option<PublicKey>)

  datatype InitializeAccountParams = InitializeAccountParams(
    programId: PublicKey, account: PublicKey, mint: PublicKey, owner: PublicKey)

  datatype InitializeMultisigParams = InitializeMultisigParams(
    programId: PublicKey, multisig: PublicKey, signers: seq<PublicKey>, m: int)

  datatype TransferParams = TransferParams(
    programId: PublicKey, source: PublicKey, destination: PublicKey,
    authority: PublicKey, signers: seq<PublicKey>, amount: int)

  datatype CloseAccountParams = CloseAccountParams(
    programId: PublicKey, account: PublicKey, destination: PublicKey,
    owner: PublicKey, signers: seq<PublicKey>)

  /** One parameter record per operation; the unimplemented ones carry their fields inline. */
  datatype Operation =
    | InitializeMintOp(InitializeMintParams)
    | InitializeAccountOp(InitializeAccountParams)
    | InitializeMultisigOp(InitializeMultisigParams)
    | TransferOp(TransferParams)
    | ApproveOp(programId: PublicKey, source: PublicKey, delegate: PublicKey,
                owner: PublicKey, signers: seq<PublicKey>, amount: int)
    | RevokeOp(programId: PublicKey, source: PublicKey, owner: PublicKey, signers: seq<PublicKey>)
    | SetAuthorityOp(authorityType: Authority.AuthorityType, newAuthority: Option<PublicKey>)
    | MintToOp(programId: PublicKey, mint: PublicKey, account: PublicKey,
               owner: PublicKey, signers: seq<PublicKey>, amount: int)
    | BurnOp(programId: PublicKey, account: PublicKey, mint: PublicKey,
             authority: PublicKey, signers: seq<PublicKey>, amount: int)
    | CloseAccountOp(CloseAccountParams)
    | FreezeAccountOp(programId: PublicKey, account: PublicKey, mint: PublicKey,
                      owner: PublicKey, signers: seq<PublicKey>)
    | ThawAccountOp(programId: PublicKey, account: PublicKey, mint: PublicKey,
                    owner: PublicKey, signers: seq<PublicKey>)
    | Transfer2Op(programId: PublicKey, mint: PublicKey, source: PublicKey, destination: PublicKey,
                  authority: PublicKey, signers: seq<PublicKey>, amount: int, decimal: int)
    | Approve2Op(programId: PublicKey, mint: PublicKey, source: PublicKey, delegate: PublicKey,
                 owner: PublicKey, signers: seq<PublicKey>, amount: int, decimal: int)
    | MintTo2Op(programId: PublicKey, mint: PublicKey, account: PublicKey,
                owner: PublicKey, signers: seq<PublicKey>, amount: int, decimal: int)
    | Burn2Op(programId: PublicKey, mint: PublicKey, account: PublicKey,
              owner: PublicKey, signers: seq<PublicKey>, amount: int, decimal: int)
  {
    /** The instruction type the operation is built as. */
    function Kind(): L.InstructionType
    {
      match this
      case InitializeMintOp(_) => L.InitializeMint
      case InitializeAccountOp(_) => L.InitializeAccount
      case InitializeMultisigOp(_) => L.InitializeMultisig
      case TransferOp(_) => L.Transfer
      case ApproveOp(_, _, _, _, _, _) => L.Approve
      case RevokeOp(_, _, _, _) => L.Revoke
      case SetAuthorityOp(_, _) => L.SetAuthority
      case MintToOp(_, _, _, _, _, _) => L.MintTo
      case BurnOp(_, _, _, _, _, _) => L.Burn
      case CloseAccountOp(_) => L.CloseAccount
      case FreezeAccountOp(_, _, _, _, _) => L.FreezeAccount
      case ThawAccountOp(_, _, _, _, _) => L.ThawAccount
      case Transfer2Op(_, _, _, _, _, _, _, _) => L.Transfer2
      case Approve2Op(_, _, _, _, _, _, _, _) => L.Approve2
      case MintTo2Op(_, _, _, _, _, _, _) => L.MintTo2
      case Burn2Op(_, _, _, _, _, _, _) => L.Burn2
    }
  }

  /** The instruction types whose builder and decoder raise nothing but NotImplementedError. */
  predicate Implemented(t: L.InstructionType)
  {
    t.InitializeMint? || t.InitializeAccount? || t.InitializeMultisig? || t.Transfer? || t.CloseAccount?
  }

  // ---------------------------------------------------------------------------
  // Account references

  /** Non-writable references to the given keys, all with the same signer flag. */
  function Metas(keys: seq<PublicKey>, isSigner: bool): seq<AccountMeta>
  {
    seq(|keys|, i requires 0 <= i < |keys| => AccountMeta(keys[i], isSigner, false))
  }

  /**
   * The references an authority contributes: with no signers the authority
   * itself signs; otherwise it is a non-signing multisig followed by its
   * signers, each signing, in order. None of them is writable.
   */
  function AuthorityMetas(owner: PublicKey, signers: seq<PublicKey>): seq<AccountMeta>
  {
    if signers == [] then [AccountMeta(owner, true, false)]
    else [AccountMeta(owner, false, false)] + Metas(signers, true)
  }

  /** Extending the key prefix by one key extends the references by one. */
  lemma MetasSnoc(keys: seq<PublicKey>, i: nat, isSigner: bool)
    requires i < |keys|
    ensures Metas(keys[..i + 1], isSigner) == Metas(keys[..i], isSigner) + [AccountMeta(keys[i], isSigner, false)]
  {
    assert keys[..i + 1] == keys[..i] + [keys[i]];
  }

  lemma PubkeysOfMetas(keys: seq<PublicKey>, isSigner: bool)
    ensures Pubkeys(Metas(keys, isSigner)) == keys
  {
  }

  /**
   * `__add_signers`: appends the authority's references to `keys`. The list
   * is threaded through as a value rather than mutated in place.
   */
  method AddSigners(keys: seq<AccountMeta>, owner: PublicKey, signers: seq<PublicKey>)
    returns (result: seq<AccountMeta>)
    ensures result == keys + AuthorityMetas(owner, signers)
    ensures result[..|keys|] == keys
    ensures signers == [] ==>
      |result| == |keys| + 1 && result[|keys|] == AccountMeta(owner, true, false)
    ensures signers != [] ==>
      && |result| == |keys| + 1 + |signers|
      && result[|keys|] == AccountMeta(owner, false, false)
      && forall i :: 0 <= i < |signers| ==> result[|keys| + 1 + i] == AccountMeta(signers[i], true, false)
  {
    if signers != [] {
      result := keys + [AccountMeta(owner, false, false)];
      for i := 0 to |signers|
        invariant result == keys + [AccountMeta(owner, false, false)] + Metas(signers[..i], true)
      {
        MetasSnoc(signers, i, true);
        result := result + [AccountMeta(signers[i], true, false)];
      }
      assert signers[..|signers|] == signers;
      var tail := [AccountMeta(owner, false, false)] + Metas(signers, true);
      assert result == keys + tail;
      assert result[..|keys|] == keys;
      forall i | 0 <= i < |signers|
        ensures result[|keys| + 1 + i] == AccountMeta(signers[i], true, false)
      {
        assert result[|keys| + 1 + i] == tail[1 + i] == Metas(signers, true)[i];
      }
    } else {
      result := keys + [AccountMeta(owner, true, false)];
      assert result[..|keys|] == keys;
    }
  }

  /** The account references spent on an authority, and where its signers begin, as the decoders read them. */
  lemma AuthorityMetasDecode(prefix: seq<AccountMeta>, owner: PublicKey, signers: seq<PublicKey>)
    ensures var keys := prefix + AuthorityMetas(owner, signers);
      && |keys| >= |prefix| + 1
      && keys[|prefix|].pubkey == owner
      && Pubkeys(keys[|prefix| + 1..]) == signers
  {
    var keys := prefix + AuthorityMetas(owner, signers);
    if signers != [] {
      assert keys[|prefix| + 1..] == Metas(signers, true);
      PubkeysOfMetas(signers, true);
    } else {
      assert keys[|prefix| + 1..] == [];
    }
  }

  // ---------------------------------------------------------------------------
  // Decoders

  /** `decode_initialize_mint`: two keys, then the data, then its type. */
  function DecodeInitializeMint(ix: Instruction): (r: Result<InitializeMintParams>)
    ensures |ix.keys| < 2 ==> r == Err(TooFewKeys(2, |ix.keys|))
    ensures |ix.keys| >= 2 && L.Parse(ix.data).Err? ==> r == Err(Truncated)
    ensures |ix.keys| >= 2 && L.Parse(ix.data).Ok? && ix.data[0] != 0 ==>
      r == Err(WrongType(0, ix.data[0] as nat))
    ensures r.Ok? <==> |ix.keys| >= 2 && |ix.data| >= 1 + L.InitializeMintArgsWidth && ix.data[0] == 0
    ensures r.Ok? ==> r.value.programId == ix.programId && r.value.mint == ix.keys[0].pubkey
    ensures r.Ok? ==> r.value.decimals == ix.data[1] as int && r.value.mintAuthority == ix.data[2..34]
  {
    assert |ix.data| >= 34 ==> ix.data[1..][1..33] == ix.data[2..34];
    var keysCheck := ValidateKeys(ix, 2);
    if keysCheck.Fail? then Err(keysCheck.error) else
    var parsed :- L.Parse(ix.data);
    :- L.ValidateType(parsed, L.InitializeMint);
    var args := parsed.args;
    Ok(InitializeMintParams(
      args.decimals, ix.programId, ix.keys[0].pubkey, args.mintAuthority,
      if args.freezeAuthorityOption != 0 then Some(args.freezeAuthority) else None))
  }

  /** `decode_initialize_account`: four keys, then the data, then its type. */
  function DecodeInitializeAccount(ix: Instruction): (r: Result<InitializeAccountParams>)
    ensures |ix.keys| < 4 ==> r == Err(TooFewKeys(4, |ix.keys|))
    ensures |ix.keys| >= 4 && L.Parse(ix.data).Err? ==> r == Err(Truncated)
    ensures |ix.keys| >= 4 && L.Parse(ix.data).Ok? && ix.data[0] != 1 ==>
      r == Err(WrongType(1, ix.data[0] as nat))
    ensures r.Ok? <==> |ix.keys| >= 4 && |ix.data| >= 1 && ix.data[0] == 1
    ensures r.Ok? ==> r.value == InitializeAccountParams(
      ix.programId, ix.keys[0].pubkey, ix.keys[1].pubkey, ix.keys[2].pubkey)
  {
    var keysCheck := ValidateKeys(ix, 4);
    if keysCheck.Fail? then Err(keysCheck.error) else
    var parsed :- L.Parse(ix.data);
    :- L.ValidateType(parsed, L.InitializeAccount);
    Ok(InitializeAccountParams(ix.programId, ix.keys[0].pubkey, ix.keys[1].pubkey, ix.keys[2].pubkey))
  }

  /** Python's `s[-n:]`: the last n elements, or all of s when n is 0 or exceeds |s|. */
  function NegativeTail<T>(s: seq<T>, n: nat): (r: seq<T>)
    ensures 0 < n <= |s| ==> |r| == n && r == s[|s| - n..]
    ensures n == 0 || n > |s| ==> r == s
  {
    if n == 0 || n > |s| then s else s[|s| - n..]
  }

  /**
   * `decode_initialize_multisig`: the data and its type come first, since the
   * signer count m read from them fixes the required 2 + m keys; the signers
   * are the last m keys.
   */
  function DecodeInitializeMultisig(ix: Instruction): (r: Result<InitializeMultisigParams>)
    ensures L.Parse(ix.data).Err? ==> r == Err(Truncated)
    ensures L.Parse(ix.data).Ok? && ix.data[0] != 2 ==> r == Err(WrongType(2, ix.data[0] as nat))
    ensures L.Parse(ix.data).Ok? && ix.data[0] == 2 ==>
      var m := ix.data[1] as nat;
      if |ix.keys| < 2 + m then r == Err(TooFewKeys(2 + m, |ix.keys|))
      else (r.Ok? && r.value.m == m && r.value.multisig == ix.keys[0].pubkey
            && r.value.programId == ix.programId
            && r.value.signers == Pubkeys(NegativeTail(ix.keys, m)))
  {
    var parsed :- L.Parse(ix.data);
    :- L.ValidateType(parsed, L.InitializeMultisig);
    var m := parsed.args.m;
    :- ValidateKeys(ix, 2 + m);
    Ok(InitializeMultisigParams(ix.programId, ix.keys[0].pubkey, Pubkeys(NegativeTail(ix.keys, m)), m))
  }

  /** With m = 0, Python's `keys[-0:]` is every key, so every key is returned as a signer. */
  lemma DecodeInitializeMultisigZeroSigners(ix: Instruction)
    requires |ix.data| >= 2 && ix.data[0] == 2 && ix.data[1] == 0 && |ix.keys| >= 2
    ensures DecodeInitializeMultisig(ix).Ok?
    ensures DecodeInitializeMultisig(ix).value.signers == Pubkeys(ix.keys)
  {
  }

  /** `decode_transfer`: three keys, then the data, then its type; signers are the keys after the third. */
  function DecodeTransfer(ix: Instruction): (r: Result<TransferParams>)
    ensures |ix.keys| < 3 ==> r == Err(TooFewKeys(3, |ix.keys|))
    ensures |ix.keys| >= 3 && L.Parse(ix.data).Err? ==> r == Err(Truncated)
    ensures |ix.keys| >= 3 && L.Parse(ix.data).Ok? && ix.data[0] != 3 ==>
      r == Err(WrongType(3, ix.data[0] as nat))
    ensures r.Ok? <==> |ix.keys| >= 3 && |ix.data| >= 9 && ix.data[0] == 3
    ensures r.Ok? ==> 0 <= r.value.amount < Pow256(8)
    ensures r.Ok? ==> r.value.amount == FromLittleEndian(ix.data[1..9])
    ensures r.Ok? ==> r.value == TransferParams(
      ix.programId, ix.keys[0].pubkey, ix.keys[1].pubkey, ix.keys[2].pubkey,
      Pubkeys(ix.keys[3..]), r.value.amount)
  {
    assert |ix.data| >= 9 ==> ix.data[1..][..8] == ix.data[1..9];
    var keysCheck := ValidateKeys(ix, 3);
    if keysCheck.Fail? then Err(keysCheck.error) else
    var parsed :- L.Parse(ix.data);
    :- L.ValidateType(parsed, L.Transfer);
    Ok(TransferParams(
      ix.programId, ix.keys[0].pubkey, ix.keys[1].pubkey, ix.keys[2].pubkey,
      Pubkeys(ix.keys[3..]), parsed.args.amount))
  }

  /** `decode_close_account`: three keys, then the data, then its type; signers are the keys after the third. */
  function DecodeCloseAccount(ix: Instruction): (r: Result<CloseAccountParams>)
    ensures |ix.keys| < 3 ==> r == Err(TooFewKeys(3, |ix.keys|))
    ensures |ix.keys| >= 3 && L.Parse(ix.data).Err? ==> r == Err(Truncated)
    ensures |ix.keys| >= 3 && L.Parse(ix.data).Ok? && ix.data[0] != 9 ==>
      r == Err(WrongType(9, ix.data[0] as nat))
    ensures r.Ok? <==> |ix.keys| >= 3 && |ix.data| >= 1 && ix.data[0] == 9
    ensures r.Ok? ==> r.value == CloseAccountParams(
      ix.programId, ix.keys[0].pubkey, ix.keys[1].pubkey, ix.keys[2].pubkey, Pubkeys(ix.keys[3..]))
  {
    var keysCheck := ValidateKeys(ix, 3);
    if keysCheck.Fail? then Err(keysCheck.error) else
    var parsed :- L.Parse(ix.data);
    :- L.ValidateType(parsed, L.CloseAccount);
    Ok(CloseAccountParams(
      ix.programId, ix.keys[0].pubkey, ix.keys[1].pubkey, ix.keys[2].pubkey, Pubkeys(ix.keys[3..])))
  }

  /**
   * The decoder of each instruction type; the types whose decoder raises
   * NotImplementedError (and FreezeAccount, which has no decoder) fail with
   * `Unsupported`.
   */
  function Decode(t: L.InstructionType, ix: Instruction): (r: Result<Operation>)
    ensures r == Err(Unsupported) <==> !Implemented(t)
    ensures r.Ok? ==> r.value.Kind() == t
    ensures t.InitializeMint? ==> var d := DecodeInitializeMint(ix);
      && (r.Ok? <==> d.Ok?) && (r.Ok? ==> r.value == InitializeMintOp(d.value)) && (r.Err? ==> r.error == d.error)
    ensures t.InitializeAccount? ==> var d := DecodeInitializeAccount(ix);
      && (r.Ok? <==> d.Ok?) && (r.Ok? ==> r.value == InitializeAccountOp(d.value)) && (r.Err? ==> r.error == d.error)
    ensures t.InitializeMultisig? ==> var d := DecodeInitializeMultisig(ix);
      && (r.Ok? <==> d.Ok?) && (r.Ok? ==> r.value == InitializeMultisigOp(d.value)) && (r.Err? ==> r.error == d.error)
    ensures t.Transfer? ==> var d := DecodeTransfer(ix);
      && (r.Ok? <==> d.Ok?) && (r.Ok? ==> r.value == TransferOp(d.value)) && (r.Err? ==> r.error == d.error)
    ensures t.CloseAccount? ==> var d := DecodeCloseAccount(ix);
      && (r.Ok? <==> d.Ok?) && (r.Ok? ==> r.value == CloseAccountOp(d.value)) && (r.Err? ==> r.error == d.error)
  {
    match t
    case InitializeMint =>
      var p :- DecodeInitializeMint(ix); Ok(InitializeMintOp(p))
    case InitializeAccount =>
      var p :- DecodeInitializeAccount(ix); Ok(InitializeAccountOp(p))
    case InitializeMultisig =>
      var p :- DecodeInitializeMultisig(ix); Ok(InitializeMultisigOp(p))
    case Transfer =>
      var p :- DecodeTransfer(ix); Ok(TransferOp(p))
    case CloseAccount =>
      var p :- DecodeCloseAccount(ix); Ok(CloseAccountOp(p))
    case _ => Err(Unsupported)
  }

  // ---------------------------------------------------------------------------
  // Builders

  /** The data `initialize_mint` builds: decimals, mint authority, option flag, freeze authority slot. */
  function InitializeMintData(p: InitializeMintParams): Result<seq<byte>>
  {
    var (freezeAuthority, option) :=
      if p.freezeAuthority.Some? then (p.freezeAuthority.value, 1) else (ZeroKey, 0);
    L.Build(L.InitializeMint, L.InitializeMintArgs(p.decimals, p.mintAuthority, option, freezeAuthority))
  }

  /** `initialize_mint`: the mint (writable) and the rent sysvar; fails when decimals is not a u8. */
  function InitializeMint(p: InitializeMintParams): (r: Result<Instruction>)
    ensures r.Ok? <==> 0 <= p.decimals < 256
    ensures r.Err? ==> r.error == OutOfRange
    ensures r.Ok? ==> r.value.programId == p.programId
    ensures r.Ok? ==> r.value.keys == [AccountMeta(p.mint, false, true), AccountMeta(SysvarRent, false, false)]
    ensures r.Ok? ==> |r.value.data| >= 1 && r.value.data[0] == 0
  {
    L.OptionWidthPositive();
    Pow256AtLeast256(L.FreezeAuthorityOptionWidth);
    var data :- InitializeMintData(p);
    Ok(Instruction([AccountMeta(p.mint, false, true), AccountMeta(SysvarRent, false, false)], p.programId, data))
  }

  /** The InitializeMint data is type 0, decimals, the mint authority, the option flag and the freeze authority slot. */
  lemma InitializeMintBytes(p: InitializeMintParams, option: nat, freeze: PublicKey)
    requires 0 <= p.decimals < 256
    requires option == (if p.freezeAuthority.Some? then 1 else 0)
    requires freeze == (if p.freezeAuthority.Some? then p.freezeAuthority.value else ZeroKey)
    ensures var data := InitializeMint(p).value.data;
      var w := L.FreezeAuthorityOptionWidth;
      && option < Pow256(w)
      && |data| == 1 + L.InitializeMintArgsWidth
      && data[0] == 0 && data[1] as int == p.decimals && data[2..34] == p.mintAuthority
      && data[34..34 + w] == LittleEndian(option, w) && data[34 + w..] == freeze
  {
    var w := L.FreezeAuthorityOptionWidth;
    Pow256AtLeast256(w);
    var args := L.InitializeMintArgs(p.decimals, p.mintAuthority, option, freeze);
    assert InitializeMintData(p) == L.Build(L.InitializeMint, args);
    var body := L.ArgsBytes(args);
    L.MintArgsBytes(args);
    var data := InitializeMint(p).value.data;
    assert data == [0 as byte] + body;
    assert data[1..] == body;
    assert data[2..34] == body[1..33];
    assert data[34..34 + w] == body[33..33 + w];
    assert data[34 + w..] == body[33 + w..];
  }

  /**
   * The byte layout of an InitializeMint instruction: type 0, decimals, the
   * mint authority, then a little-endian flag 1 and the freeze authority when
   * there is one, flag 0 and 32 zero bytes when there is none.
   */
  lemma InitializeMintLayout(p: InitializeMintParams)
    requires 0 <= p.decimals < 256
    ensures var data := InitializeMint(p).value.data;
      var w := L.FreezeAuthorityOptionWidth;
      && |data| == 1 + L.InitializeMintArgsWidth
      && data[0] == 0 && data[1] as int == p.decimals && data[2..34] == p.mintAuthority
      && (p.freezeAuthority.None? ==> data[34..34 + w] == Zeros(w) && data[34 + w..] == Zeros(32))
      && (p.freezeAuthority.Some? ==>
            data[34..34 + w] == LittleEndian(1, w) && data[34 + w..] == p.freezeAuthority.value)
  {
    if p.freezeAuthority.Some? {
      InitializeMintBytes(p, 1, p.freezeAuthority.value);
    } else {
      InitializeMintBytes(p, 0, ZeroKey);
      LittleEndianZero(L.FreezeAuthorityOptionWidth);
    }
  }

  /** decode_initialize_mint(initialize_mint(p)) gives p back, with an absent freeze authority absent again. */
  lemma InitializeMintRoundTrip(p: InitializeMintParams)
    requires 0 <= p.decimals < 256
    ensures InitializeMint(p).Ok?
    ensures DecodeInitializeMint(InitializeMint(p).value) == Ok(p)
  {
    L.OptionWidthPositive();
    Pow256AtLeast256(L.FreezeAuthorityOptionWidth);
    var option := if p.freezeAuthority.Some? then 1 else 0;
    var freeze := if p.freezeAuthority.Some? then p.freezeAuthority.value else ZeroKey;
    L.ParseBuild(L.InitializeMint, L.InitializeMintArgs(p.decimals, p.mintAuthority, option, freeze));
  }

  /**
   * A decoded freeze authority is absent exactly when the option flag bytes
   * are all zero, and otherwise is the 32 bytes after the flag.
   */
  lemma DecodeInitializeMintOption(ix: Instruction)
    requires DecodeInitializeMint(ix).Ok?
    ensures var w := L.FreezeAuthorityOptionWidth;
      var q := DecodeInitializeMint(ix).value;
      && (q.freezeAuthority.None? <==> ix.data[34..34 + w] == Zeros(w))
      && (q.freezeAuthority.Some? ==> q.freezeAuthority.value == ix.data[34 + w..66 + w])
  {
    var w := L.FreezeAuthorityOptionWidth;
    assert L.Parse(ix.data).Ok? && ix.data[0] == 0;
    assert |ix.data| >= 66 + w;
    var body := ix.data[1..];
    assert body[33..33 + w] == ix.data[34..34 + w];
    var slot, slot' := body[33 + w..65 + w], ix.data[34 + w..66 + w];
    assert forall k :: 0 <= k < 32 ==> slot[k] == body[33 + w + k] == ix.data[34 + w + k] == slot'[k];
    assert slot == slot';
    FromLittleEndianZero(ix.data[34..34 + w]);
  }

  /** `initialize_account`: account (writable), mint, owner, and the rent sysvar last; data is the type alone. */
  function InitializeAccount(p: InitializeAccountParams): (ix: Instruction)
    ensures |ix.keys| == 4 && ix.keys[3] == AccountMeta(SysvarRent, false, false)
    ensures ix.keys[0] == AccountMeta(p.account, false, true)
    ensures ix.keys[1] == AccountMeta(p.mint, false, false) && ix.keys[2] == AccountMeta(p.owner, false, false)
    ensures ix.data == [1] && ix.programId == p.programId
  {
    var data := L.Build(L.InitializeAccount, L.NoArgs).value;
    Instruction(
      [ AccountMeta(p.account, false, true),
        AccountMeta(p.mint, false, false),
        AccountMeta(p.owner, false, false),
        AccountMeta(SysvarRent, false, false) ],
      p.programId, data)
  }

  lemma InitializeAccountRoundTrip(p: InitializeAccountParams)
    ensures DecodeInitializeAccount(InitializeAccount(p)) == Ok(p)
  {
  }

  /**
   * `initialize_multisig`: the multisig account (writable), the rent sysvar,
   * then every signer as a non-signing, non-writable reference; fails when m
   * is not a u8.
   */
  method InitializeMultisig(p: InitializeMultisigParams) returns (r: Result<Instruction>)
    ensures r.Ok? <==> 0 <= p.m < 256
    ensures r.Err? ==> r.error == OutOfRange
    ensures r.Ok? ==> r.value.programId == p.programId && r.value.data == [2, p.m as byte]
    ensures r.Ok? ==> (r.value.keys ==
      [AccountMeta(p.multisig, false, true), AccountMeta(SysvarRent, false, false)] + Metas(p.signers, false))
    ensures r.Ok? && 1 <= p.m == |p.signers| ==> DecodeInitializeMultisig(r.value) == Ok(p)
  {
    var data := L.Build(L.InitializeMultisig, L.InitializeMultisigArgs(p.m));
    if data.Err? {
      return Err(data.error);
    }
    var prefix := [AccountMeta(p.multisig, false, true), AccountMeta(SysvarRent, false, false)];
    var keys := prefix;
    for i := 0 to |p.signers|
      invariant keys == prefix + Metas(p.signers[..i], false)
    {
      MetasSnoc(p.signers, i, false);
      keys := keys + [AccountMeta(p.signers[i], false, false)];
    }
    assert p.signers[..|p.signers|] == p.signers;
    r := Ok(Instruction(keys, p.programId, data.value));
    if 1 <= p.m == |p.signers| {
      InitializeMultisigRoundTrip(p);
    }
  }

  /**
   * Decoding a built InitializeMultisig instruction with 1 <= m succeeds
   * exactly when there are at least m signers, and returns the last m of them.
   */
  lemma InitializeMultisigDecodeBuilt(p: InitializeMultisigParams)
    requires 1 <= p.m < 256
    ensures var ix := Instruction(
        [AccountMeta(p.multisig, false, true), AccountMeta(SysvarRent, false, false)] + Metas(p.signers, false),
        p.programId, [2, p.m as byte]);
      var r := DecodeInitializeMultisig(ix);
      && (r.Ok? <==> p.m <= |p.signers|)
      && (r.Ok? ==> r.value == InitializeMultisigParams(
            p.programId, p.multisig, p.signers[|p.signers| - p.m..], p.m))
  {
    var prefix := [AccountMeta(p.multisig, false, true), AccountMeta(SysvarRent, false, false)];
    var keys := prefix + Metas(p.signers, false);
    var n := |p.signers|;
    if p.m <= n {
      assert NegativeTail(keys, p.m) == Metas(p.signers[n - p.m..], false);
      PubkeysOfMetas(p.signers[n - p.m..], false);
    }
  }

  lemma InitializeMultisigRoundTrip(p: InitializeMultisigParams)
    requires 1 <= p.m == |p.signers| && p.m < 256
    ensures DecodeInitializeMultisig(Instruction(
        [AccountMeta(p.multisig, false, true), AccountMeta(SysvarRent, false, false)] + Metas(p.signers, false),
        p.programId, [2, p.m as byte])) == Ok(p)
  {
    InitializeMultisigDecodeBuilt(p);
    assert p.signers[|p.signers| - p.m..] == p.signers;
  }

  /**
   * `transfer`: the source (writable), the destination (as written, NOT
   * writable), then the authority's references; the data is type 3 and the
   * amount as a little-endian u64. Fails when the amount is not a u64.
   */
  method Transfer(p: TransferParams) returns (r: Result<Instruction>)
    ensures r.Ok? <==> 0 <= p.amount < Pow256(8)
    ensures r.Err? ==> r.error == OutOfRange
    ensures r.Ok? ==> r.value.programId == p.programId
    ensures r.Ok? ==> (r.value.keys == [AccountMeta(p.source, false, true), AccountMeta(p.destination, false, false)]
                                       + AuthorityMetas(p.authority, p.signers))
    ensures r.Ok? ==> r.value.data == [3] + LittleEndian(p.amount, 8)
    ensures r.Ok? ==> DecodeTransfer(r.value) == Ok(p)
  {
    var data := L.Build(L.Transfer, L.AmountArgs(p.amount));
    if data.Err? {
      return Err(data.error);
    }
    var keys := [AccountMeta(p.source, false, true), AccountMeta(p.destination, false, false)];
    keys := AddSigners(keys, p.authority, p.signers);
    r := Ok(Instruction(keys, p.programId, data.value));
    TransferRoundTrip(p);
  }

  lemma TransferRoundTrip(p: TransferParams)
    requires 0 <= p.amount < Pow256(8)
    ensures DecodeTransfer(Instruction(
        [AccountMeta(p.source, false, true), AccountMeta(p.destination, false, false)]
          + AuthorityMetas(p.authority, p.signers),
        p.programId, [3] + LittleEndian(p.amount, 8))) == Ok(p)
  {
    L.ParseBuild(L.Transfer, L.AmountArgs(p.amount));
    AuthorityMetasDecode([AccountMeta(p.source, false, true), AccountMeta(p.destination, false, false)],
                         p.authority, p.signers);
  }

  /** `close_account`: the account and the destination, both writable, then the owner's references; data is type 9. */
  method CloseAccount(p: CloseAccountParams) returns (ix: Instruction)
    ensures ix.programId == p.programId && ix.data == [9]
    ensures ix.keys == [AccountMeta(p.account, false, true), AccountMeta(p.destination, false, true)]
                       + AuthorityMetas(p.owner, p.signers)
    ensures DecodeCloseAccount(ix) == Ok(p)
  {
    var data := L.Build(L.CloseAccount, L.NoArgs);
    var keys := [AccountMeta(p.account, false, true), AccountMeta(p.destination, false, true)];
    keys := AddSigners(keys, p.owner, p.signers);
    ix := Instruction(keys, p.programId, data.value);
    AuthorityMetasDecode([AccountMeta(p.account, false, true), AccountMeta(p.destination, false, true)],
                         p.owner, p.signers);
  }

  /** The operations a decoder gives back unchanged from what the builder made. */
  predicate RoundTrips(op: Operation)
  {
    match op
    case InitializeMintOp(p) => 0 <= p.decimals < 256
    case InitializeAccountOp(_) => true
    case InitializeMultisigOp(p) => 1 <= p.m == |p.signers| && p.m < 256
    case TransferOp(p) => 0 <= p.amount < Pow256(8)
    case CloseAccountOp(_) => true
    case _ => false
  }

  /**
   * The builder of each operation; those that raise NotImplementedError fail
   * with `Unsupported`. What is built carries its discriminant first, and
   * decodes back to the operation whenever its fields fit their layout.
   */
  method Encode(op: Operation) returns (r: Result<Instruction>)
    ensures r == Err(Unsupported) <==> !Implemented(op.Kind())
    ensures r.Ok? ==> |r.value.data| >= 1 && r.value.data[0] as nat == op.Kind().Value()
    ensures RoundTrips(op) ==> r.Ok? && Decode(op.Kind(), r.value) == Ok(op)
  {
    match op
    case InitializeMintOp(p) =>
      r := InitializeMint(p);
      if r.Ok? {
        InitializeMintRoundTrip(p);
      }
    case InitializeAccountOp(p) =>
      r := Ok(InitializeAccount(p));
      InitializeAccountRoundTrip(p);
    case InitializeMultisigOp(p) =>
      r := InitializeMultisig(p);
    case TransferOp(p) =>
      r := Transfer(p);
    case CloseAccountOp(p) =>
      var ix := CloseAccount(p);
      r := Ok(ix);
    case _ =>
      r := Err(Unsupported);
  }
}
