/** What the backend makes of a signed Solana message: the checks before a
    gasless payment is relayed, and those before a claim is cosigned. */
module SolanaAuth {
  import opened Wrappers
  import opened Positional
  import opened Hex
  import opened SolanaWire
  import Base58

  datatype Reason =
    | SignerNotSender | BadOwner | BadReceiver | BadAmountText | BadMessage
    | NoAccounts | WrongFeePayer | NotOneInstruction | BadProgramIndex | NotTokenProgram | UnparseableInstruction
    | NotATransfer | WrongAmount | MissingAccount | WrongAuthority | WrongSource | WrongDestination | WrongMint
    | WrongSignerCount | MintNotAllowed | NotASigner | WrongSigners | BadSignature

  datatype Verdict = Accepted | Refused(why: Reason)

  // ---- token instructions -------------------------------------------------------

  datatype TokenInstruction =
    | TransferChecked(amount: nat, decimals: byte)
    | Transfer(amount: nat)
    | Other

  /** Bytes behind the fields are ignored. Instructions that are no transfer are
      not told apart here: each of them is refused. */
  function Unpack(data: seq<byte>): Option<TokenInstruction> {
    if data == [] then None
    else if data[0] == 12 then
      if |data| < 10 then None else Some(TransferChecked(LeValue(data[1..9]), data[9]))
    else if data[0] == 3 then
      if |data| < 9 then None else Some(Transfer(LeValue(data[1..9])))
    else Some(Other)
  }

  function Nth<T>(s: seq<T>, i: nat): (r: Option<T>)
    ensures r.Some? <==> i < |s|
    ensures r.Some? ==> r.value == s[i]
  {
    if i < |s| then Some(s[i]) else None
  }

  /** The key behind an instruction's `i`-th account. */
  function AccountAt(m: Message, ix: Instruction, i: nat): Option<Bytes32> {
    match Nth(ix.accounts, i)
    case None => None
    case Some(index) => Nth(m.keys, index)
  }

  // ---- gasless payments -----------------------------------------------------------

  datatype SolanaConfig = SolanaConfig(
    keeper: Bytes32, mint: Bytes32, tokenProgram: Bytes32, ata: (Bytes32, Bytes32) -> Bytes32)

  /** The request as it came in; `message` is missing when its base64 is bad,
      `signed` says whether the signature over it verifies for the owner. */
  datatype Request = Request(
    owner: string, fromAddress: string, receiverAddress: string, amountRaw: string,
    message: Option<seq<byte>>, signed: bool)

  predicate AllDecimal(s: string) {
    forall i :: 0 <= i < |s| ==> '0' <= s[i] <= '9'
  }

  function DecimalValue(s: string): nat
    requires AllDecimal(s)
  {
    if s == "" then 0 else DecimalValue(s[..|s| - 1]) * 10 + (s[|s| - 1] - '0') as nat
  }

  /** An unsigned 64-bit decimal; one plus sign in front is tolerated. */
  function ParseU64(s: string): Option<nat> {
    var t := if s != "" && s[0] == '+' then s[1..] else s;
    if t != "" && AllDecimal(t) && DecimalValue(t) < U64_END then Some(DecimalValue(t)) else None
  }

  function VerifySolanaAuthorization(cfg: SolanaConfig, req: Request): Verdict {
    if req.owner != req.fromAddress then Refused(SignerNotSender)
    else
      var owner := PubkeyBytes(req.owner);
      var receiver := PubkeyBytes(req.receiverAddress);
      var amount := ParseU64(req.amountRaw);
      if owner.None? then Refused(BadOwner)
      else if receiver.None? then Refused(BadReceiver)
      else if amount.None? then Refused(BadAmountText)
      else if req.message.None? then Refused(BadMessage)
      else
        match ReadMessage(req.message.value)
        case Bad => Refused(BadMessage)
        case Got(m, _) =>
          var v := CheckTransfer(cfg, m, owner.value, receiver.value, amount.value);
          if v.Accepted? && !req.signed then Refused(BadSignature) else v
  }

  /** The checks on the parsed message. */
  function CheckTransfer(cfg: SolanaConfig, m: Message, owner: Bytes32, receiver: Bytes32, claimed: nat): Verdict {
    if m.keys == [] then Refused(NoAccounts)
    else if m.keys[0] != cfg.keeper then Refused(WrongFeePayer)
    else if |m.instructions| != 1 then Refused(NotOneInstruction)
    else
      var ix := m.instructions[0];
      if ix.program as nat >= |m.keys| then Refused(BadProgramIndex)
      else if m.keys[ix.program] != cfg.tokenProgram then Refused(NotTokenProgram)
      else
        match Unpack(ix.data)
        case None => Refused(UnparseableInstruction)
        case Some(Other) => Refused(NotATransfer)
        case Some(TransferChecked(amount, _)) =>
          CheckAccounts(cfg, m, owner, receiver, amount == claimed, AccountAt(m, ix, 0), AccountAt(m, ix, 2),
                        AccountAt(m, ix, 3), Nth(ix.accounts, 1))
        case Some(Transfer(amount)) =>
          CheckAccounts(cfg, m, owner, receiver, amount == claimed, AccountAt(m, ix, 0), AccountAt(m, ix, 1),
                        AccountAt(m, ix, 2), None)
  }

  function CheckAccounts(cfg: SolanaConfig, m: Message, owner: Bytes32, receiver: Bytes32, amountAgrees: bool,
                         source: Option<Bytes32>, destination: Option<Bytes32>, authority: Option<Bytes32>,
                         mintIndex: Option<byte>): Verdict {
    if !amountAgrees then Refused(WrongAmount)
    else if source.None? || destination.None? || authority.None? then Refused(MissingAccount)
    else if authority.value != owner then Refused(WrongAuthority)
    else if source.value != cfg.ata(owner, cfg.mint) then Refused(WrongSource)
    else if destination.value != receiver then Refused(WrongDestination)
    else if mintIndex.None? then Accepted
    else
      match Nth(m.keys, mintIndex.value)
      case None => Refused(MissingAccount)
      case Some(mint) => if mint != cfg.mint then Refused(WrongMint) else Accepted
  }

  /** What a message does when the token program runs its only instruction. */
  datatype Movement = Movement(from: Bytes32, to: Bytes32, authority: Bytes32, amount: nat, mint: Option<Bytes32>)

  ghost predicate Moves(tokenProgram: Bytes32, m: Message, mv: Movement) {
    && |m.instructions| == 1
    && var ix := m.instructions[0];
    && Nth(m.keys, ix.program) == Some(tokenProgram)
    && AccountAt(m, ix, 0) == Some(mv.from)
    && match Unpack(ix.data)
       case Some(TransferChecked(amount, _)) =>
         && amount == mv.amount && mv.mint.Some? && AccountAt(m, ix, 1) == mv.mint
         && AccountAt(m, ix, 2) == Some(mv.to) && AccountAt(m, ix, 3) == Some(mv.authority)
       case Some(Transfer(amount)) =>
         && amount == mv.amount && mv.mint.None?
         && AccountAt(m, ix, 1) == Some(mv.to) && AccountAt(m, ix, 2) == Some(mv.authority)
       case _ => false
  }

  /** Any message, built by anyone, passes exactly when the keeper pays and the
      one thing it does is to move the claimed amount from the payer's token
      account to the receiver under the payer's authority. */
  lemma AcceptedMeans(cfg: SolanaConfig, m: Message, owner: Bytes32, receiver: Bytes32, claimed: nat)
    ensures CheckTransfer(cfg, m, owner, receiver, claimed).Accepted? <==>
      && m.keys != [] && m.keys[0] == cfg.keeper
      && exists mint: Option<Bytes32> ::
           && (mint.Some? ==> mint.value == cfg.mint)
           && Moves(cfg.tokenProgram, m, Movement(cfg.ata(owner, cfg.mint), receiver, owner, claimed, mint))
  {
    if CheckTransfer(cfg, m, owner, receiver, claimed).Accepted? {
      var mint := if Unpack(m.instructions[0].data).value.TransferChecked? then Some(cfg.mint) else None;
      assert Moves(cfg.tokenProgram, m, Movement(cfg.ata(owner, cfg.mint), receiver, owner, claimed, mint));
    }
  }

  /** What one message moves is one thing. */
  lemma MovesOne(tokenProgram: Bytes32, m: Message, mv: Movement, mv': Movement)
    requires Moves(tokenProgram, m, mv) && Moves(tokenProgram, m, mv')
    ensures mv == mv'
  {
    assert mv.mint == mv'.mint;
  }

  /** The message a request brings, as far as it reads. */
  function MessageOf(req: Request): Option<Message> {
    match req.message
    case None => None
    case Some(bytes) => match ReadMessage(bytes) case Got(m, _) => Some(m) case Bad => None
  }

  /** Every request, with any bytes in it: it is accepted if and only if its owner is
      the sender and signed it, its texts are keys and an amount, and its bytes read
      as a message for which the keeper pays and whose only instruction moves the
      claimed amount from the owner's token account to the receiver under the owner's
      authority. */
  lemma AuthorizedIff(cfg: SolanaConfig, req: Request)
    ensures
      var owner, receiver, amount := PubkeyBytes(req.owner), PubkeyBytes(req.receiverAddress), ParseU64(req.amountRaw);
      VerifySolanaAuthorization(cfg, req).Accepted? <==>
        && req.owner == req.fromAddress && req.signed
        && owner.Some? && receiver.Some? && amount.Some? && MessageOf(req).Some?
        && var m := MessageOf(req).value;
           && m.keys != [] && m.keys[0] == cfg.keeper
           && exists mint: Option<Bytes32> ::
                && (mint.Some? ==> mint.value == cfg.mint)
                && Moves(cfg.tokenProgram, m,
                         Movement(cfg.ata(owner.value, cfg.mint), receiver.value, owner.value, amount.value, mint))
  {
    var owner, receiver, amount := PubkeyBytes(req.owner), PubkeyBytes(req.receiverAddress), ParseU64(req.amountRaw);
    if owner.Some? && receiver.Some? && amount.Some? && MessageOf(req).Some? {
      AcceptedMeans(cfg, MessageOf(req).value, owner.value, receiver.value, amount.value);
    }
  }

  /** A number as decimal text. */
  function DecimalText(n: nat): (s: string)
    ensures s != "" && AllDecimal(s)
  {
    var digit := [('0' as int + n % 10) as char];
    if n < 10 then digit else DecimalText(n / 10) + digit
  }

  lemma {:induction false} DecimalBack(n: nat)
    ensures DecimalValue(DecimalText(n)) == n
  {
    var s := DecimalText(n);
    assert DecimalValue("") == 0;
    if n < 10 {
      assert s[..0] == "";
    } else {
      DecimalBack(n / 10);
      assert s[..|s| - 1] == DecimalText(n / 10);
    }
  }

  /** An amount is read back from its text exactly when it fits 64 bits. */
  lemma AmountBack(n: nat)
    ensures ParseU64(DecimalText(n)) == if n < U64_END then Some(n) else None
  {
    DecimalBack(n);
    assert DecimalText(n)[0] != '+';
  }

  lemma TextOfKey(s: string, key: Bytes32)
    ensures Base58.Encode(key) == s <==> PubkeyBytes(s) == Some(key)
  {
    Base58.DecodeEncode(key);
    if PubkeyBytes(s) == Some(key) {
      KeyText(s);
    }
  }

  lemma BuiltTransferChecked(cfg: SolanaConfig, keys: seq<Bytes32>, hash: Bytes32, amount: nat, decimals: byte,
                             owner: Bytes32, receiver: Bytes32, claimed: nat)
    requires |keys| == 6 && keys[5] == cfg.tokenProgram && amount < U64_END
    ensures CheckTransfer(cfg, TransferMessage(keys, hash, amount, decimals), owner, receiver, claimed).Accepted? <==>
      && keys[0] == cfg.keeper && keys[1] == owner && keys[2] == cfg.ata(owner, cfg.mint)
      && keys[3] == receiver && keys[4] == cfg.mint && claimed == amount
  {
    TransferDataReads(amount, decimals);
    var m := TransferMessage(keys, hash, amount, decimals);
    var ix := m.instructions[0];
    assert AccountAt(m, ix, 0) == Some(keys[2]) && AccountAt(m, ix, 1) == Some(keys[4]);
    assert AccountAt(m, ix, 2) == Some(keys[3]) && AccountAt(m, ix, 3) == Some(keys[1]);
  }

  lemma SameText(a: Bytes32, b: Bytes32)
    ensures Base58.Encode(a) == Base58.Encode(b) <==> a == b
  {
    Base58.DecodeEncode(a);
    Base58.DecodeEncode(b);
  }

  lemma ReadsAs(cfg: SolanaConfig, req: Request, m: Message)
    requires req.message.Some? && ReadMessage(req.message.value) == Got(m, [])
    requires req.owner == req.fromAddress && req.signed
    ensures
      var owner, receiver, amount := PubkeyBytes(req.owner), PubkeyBytes(req.receiverAddress), ParseU64(req.amountRaw);
      VerifySolanaAuthorization(cfg, req).Accepted? <==>
        && owner.Some? && receiver.Some? && amount.Some?
        && CheckTransfer(cfg, m, owner.value, receiver.value, amount.value).Accepted?
  {
  }

  /** The same check, key by key and then text by text. */
  lemma AgreesByText(cfg: SolanaConfig, req: Request, texts: seq<string>, keys: seq<Bytes32>, hash: Bytes32,
                     amount: nat, decimals: byte)
    requires req.message.Some? && ReadMessage(req.message.value) == Got(TransferMessage(keys, hash, amount, decimals), [])
    requires req.owner == req.fromAddress && req.signed
    requires |keys| == 6 && keys[5] == cfg.tokenProgram && amount < U64_END
    requires |texts| == 6 && forall i :: 0 <= i < 6 ==> Base58.Encode(keys[i]) == texts[i]
    ensures VerifySolanaAuthorization(cfg, req).Accepted? <==>
      && ParseU64(req.amountRaw) == Some(amount)
      && texts[1] == req.owner && texts[3] == req.receiverAddress
      && texts[0] == Base58.Encode(cfg.keeper) && texts[4] == Base58.Encode(cfg.mint)
      && texts[2] == Base58.Encode(cfg.ata(keys[1], cfg.mint))
  {
    ReadsAs(cfg, req, TransferMessage(keys, hash, amount, decimals));
    TextOfKey(req.owner, keys[1]);
    TextOfKey(req.receiverAddress, keys[3]);
    SameText(keys[0], cfg.keeper);
    SameText(keys[4], cfg.mint);
    SameText(keys[2], cfg.ata(keys[1], cfg.mint));
    var owner, receiver, claimed := PubkeyBytes(req.owner), PubkeyBytes(req.receiverAddress), ParseU64(req.amountRaw);
    if owner.Some? && receiver.Some? && claimed.Some? {
      BuiltTransferChecked(cfg, keys, hash, amount, decimals, owner.value, receiver.value, claimed.value);
    }
  }

  lemma BuiltReads(a: TransferArgs) returns (keys: seq<Bytes32>, hash: Bytes32)
    requires BuildTransferChecked(a).Some?
    ensures ReadMessage(BuildTransferChecked(a).value) == Got(TransferMessage(keys, hash, a.amount, a.decimals), [])
    ensures |keys| == 6 && forall i :: 0 <= i < 6 ==> Base58.Encode(keys[i]) == TransferKeys(a)[i]
  {
    keys, hash := TransferRecovered(a, []);
    var b := BuildTransferChecked(a).value;
    assert b + [] == b;
  }

  /** The keys of a message and the addresses they stand for. */
  ghost predicate KeyIs(m: Message, i: nat, text: string) {
    i < |m.keys| && Base58.Encode(m.keys[i]) == text
  }

  lemma TransferMovement(keys: seq<Bytes32>, hash: Bytes32, amount: nat, decimals: byte)
    requires |keys| == 6 && amount < U64_END
    ensures
      Moves(keys[5], TransferMessage(keys, hash, amount, decimals), Movement(keys[2], keys[3], keys[1], amount, Some(keys[4])))
  {
    TransferDataReads(amount, decimals);
    var m := TransferMessage(keys, hash, amount, decimals);
    var ix := m.instructions[0];
    assert AccountAt(m, ix, 0) == Some(keys[2]) && AccountAt(m, ix, 1) == Some(keys[4]);
    assert AccountAt(m, ix, 2) == Some(keys[3]) && AccountAt(m, ix, 3) == Some(keys[1]);
  }

  lemma TransferTexts(a: TransferArgs, keys: seq<Bytes32>)
    requires |keys| == 6 && forall i :: 0 <= i < 6 ==> Base58.Encode(keys[i]) == TransferKeys(a)[i]
    ensures Base58.Encode(keys[0]) == a.feePayer && Base58.Encode(keys[1]) == a.owner && Base58.Encode(keys[2]) == a.source
    ensures Base58.Encode(keys[3]) == a.destination && Base58.Encode(keys[4]) == a.mint && Base58.Encode(keys[5]) == TOKEN_PROGRAM
  {
    var texts := TransferKeys(a);
    assert texts[0] == a.feePayer && texts[1] == a.owner && texts[2] == a.source && texts[3] == a.destination;
  }

  /** One account's address, as one of those handed to the builder. */
  lemma TransferText(a: TransferArgs, key: Bytes32, i: nat)
    requires AllDistinct(TransferKeys(a)) && i < 6 && Base58.Encode(key) == TransferKeys(a)[i]
    ensures Base58.Encode(key) in {a.feePayer, a.owner} <==> i < 2
    ensures Base58.Encode(key) in {a.feePayer, a.source, a.destination} <==> i in {0, 2, 3}
  {
    var texts := TransferKeys(a);
    assert texts[0] == a.feePayer && texts[1] == a.owner && texts[2] == a.source && texts[3] == a.destination;
    assert texts[4] == a.mint && texts[5] == TOKEN_PROGRAM;
  }

  /** An account signs exactly if it is one of these, and can be written exactly if
      it is one of those. */
  ghost predicate RolesAs(m: Message, i: nat, signing: set<string>, writable: set<string>)
    requires i < |m.keys|
  {
    var text := Base58.Encode(m.keys[i]);
    (Signs(m, i) <==> text in signing) && (Writes(m, i) <==> text in writable)
  }

  lemma TransferRolesText(a: TransferArgs, keys: seq<Bytes32>, hash: Bytes32)
    requires AllDistinct(TransferKeys(a)) && |keys| == 6 && a.amount >= 0
    requires forall i :: 0 <= i < 6 ==> Base58.Encode(keys[i]) == TransferKeys(a)[i]
    ensures
      var m := TransferMessage(keys, hash, a.amount, a.decimals);
      forall i :: 0 <= i < 6 ==> RolesAs(m, i, {a.feePayer, a.owner}, {a.feePayer, a.source, a.destination})
  {
    var m := TransferMessage(keys, hash, a.amount, a.decimals);
    forall i | 0 <= i < 6 ensures RolesAs(m, i, {a.feePayer, a.owner}, {a.feePayer, a.source, a.destination}) {
      TransferRoles(keys, hash, a.amount, a.decimals, i);
      TransferText(a, keys[i], i);
    }
  }

  /** Every message the transfer builder makes, read back: it moves the amount from
      source to destination under the owner's authority, in the given token; keeper
      and owner sign, keeper first; only the keeper and the two token accounts can
      be written. */
  lemma TransferMoves(a: TransferArgs, tail: seq<byte>) returns (m: Message, program: Bytes32, mv: Movement)
    requires BuildTransferChecked(a).Some?
    ensures ReadMessage(BuildTransferChecked(a).value + tail) == Got(m, tail)
    ensures Base58.Encode(program) == TOKEN_PROGRAM && Moves(program, m, mv) && mv.mint.Some?
    ensures Base58.Encode(mv.from) == a.source && Base58.Encode(mv.to) == a.destination
    ensures Base58.Encode(mv.authority) == a.owner && mv.amount == a.amount && Base58.Encode(mv.mint.value) == a.mint
    ensures Base58.Encode(m.blockhash) == a.blockhash && KeyIs(m, 0, a.feePayer)
    ensures forall i :: 0 <= i < |m.keys| ==> RolesAs(m, i, {a.feePayer, a.owner}, {a.feePayer, a.source, a.destination})
  {
    var keys, hash := TransferRecovered(a, tail);
    m := TransferMessage(keys, hash, a.amount, a.decimals);
    program, mv := keys[5], Movement(keys[2], keys[3], keys[1], a.amount, Some(keys[4]));
    TransferMovement(keys, hash, a.amount, a.decimals);
    TransferTexts(a, keys);
    TransferRolesText(a, keys, hash);
  }

  /** The message the browser builds is accepted exactly when keeper, payer,
      payer's token account, receiver, mint and amount all agree with the request
      and the configuration. */
  lemma BuiltTransferAccepted(cfg: SolanaConfig, a: TransferArgs, req: Request) returns (owner: Bytes32)
    requires BuildTransferChecked(a).Some? && req.message == BuildTransferChecked(a)
    requires req.owner == req.fromAddress && req.signed
    requires Base58.Encode(cfg.tokenProgram) == TOKEN_PROGRAM
    ensures Base58.Encode(owner) == a.owner
    ensures VerifySolanaAuthorization(cfg, req).Accepted? <==>
      && ParseU64(req.amountRaw) == Some(a.amount)
      && a.owner == req.owner && a.destination == req.receiverAddress
      && a.feePayer == Base58.Encode(cfg.keeper) && a.mint == Base58.Encode(cfg.mint)
      && a.source == Base58.Encode(cfg.ata(owner, cfg.mint))
  {
    var keys, hash := BuiltReads(a);
    owner := keys[1];
    assert Base58.Encode(keys[5]) == TransferKeys(a)[5] == TOKEN_PROGRAM;
    SameText(keys[5], cfg.tokenProgram);
    AgreesByText(cfg, req, TransferKeys(a), keys, hash, a.amount, a.decimals);
  }

  // ---- three-signer claims -----------------------------------------------------------

  /** The keys behind the signer accounts, or why one of them does not do. */
  function SignersFound(m: Message, indexes: seq<byte>): (r: (set<Bytes32>, Verdict)) {
    if indexes == [] then ({}, Accepted)
    else
      var before := SignersFound(m, indexes[..|indexes| - 1]);
      var i := indexes[|indexes| - 1];
      if !before.1.Accepted? then before
      else if i as nat >= |m.keys| then ({}, Refused(MissingAccount))
      else if !Signs(m, i) then ({}, Refused(NotASigner))
      else (before.0 + {m.keys[i]}, Accepted)
  }

  function ValidateMultisigTransfer(m: Message, relayer: Bytes32, multisig: Bytes32, client: Bytes32,
                                    cosigner: Bytes32, allowedMints: set<string>, tokenProgram: Bytes32): Verdict {
    if |m.instructions| != 1 then Refused(NotOneInstruction)
    else if m.signers != 3 then Refused(WrongSignerCount)
    else if m.keys == [] || m.keys[0] != relayer then Refused(WrongFeePayer)
    else
      var ix := m.instructions[0];
      if ix.program as nat >= |m.keys| then Refused(BadProgramIndex)
      else if m.keys[ix.program] != tokenProgram then Refused(NotTokenProgram)
      else
        var token := Unpack(ix.data);
        if token.None? then Refused(UnparseableInstruction)
        else if !token.value.TransferChecked? then Refused(NotATransfer)
        else
          var mint, authority := AccountAt(m, ix, 1), AccountAt(m, ix, 3);
          if mint.None? then Refused(MissingAccount)
          else if Base58.Encode(mint.value) !in allowedMints then Refused(MintNotAllowed)
          else if authority.None? then Refused(MissingAccount)
          else if authority.value != multisig then Refused(WrongAuthority)
          else
            var signers := if |ix.accounts| < 4 then [] else ix.accounts[4..];
            if |signers| != 2 then Refused(WrongSigners)
            else
              var found := SignersFound(m, signers);
              if !found.1.Accepted? then found.1
              else if client !in found.0 || cosigner !in found.0 then Refused(WrongSigners)
              else Accepted
  }

  lemma OneSigner(m: Message, i: byte)
    ensures
      var r := SignersFound(m, [i]);
      && (r.1.Accepted? <==> i as nat < |m.keys| && Signs(m, i))
      && (r.1.Accepted? ==> r.0 == {m.keys[i]})
  {
    assert [i][..0] == [];
  }

  lemma TwoSigners(m: Message, i: byte, j: byte)
    ensures
      var r := SignersFound(m, [i, j]);
      && (r.1.Accepted? <==> i as nat < |m.keys| && j as nat < |m.keys| && Signs(m, i) && Signs(m, j))
      && (r.1.Accepted? ==> r.0 == {m.keys[i], m.keys[j]})
  {
    assert [i, j][..1] == [i] && [i][..0] == [];
    OneSigner(m, i);
  }

  /** An account of the instruction that signs the message as this key. */
  ghost predicate SignsAs(m: Message, ix: Instruction, at: nat, key: Bytes32) {
    at < |ix.accounts| && Signs(m, ix.accounts[at] as nat) && AccountAt(m, ix, at) == Some(key)
  }

  /** Any message, built by anyone, passes as a claim exactly when three keys sign
      and the relayer pays, and its one instruction is a checked transfer by the
      token program, of an allowed token, under the multisig's authority, whose two
      further accounts sign and are between them the client and the cosigner. */
  lemma ClaimAcceptedMeans(m: Message, relayer: Bytes32, multisig: Bytes32, client: Bytes32, cosigner: Bytes32,
                           allowedMints: set<string>, tokenProgram: Bytes32)
    ensures
      ValidateMultisigTransfer(m, relayer, multisig, client, cosigner, allowedMints, tokenProgram).Accepted? <==>
      && m.signers == 3 && m.keys != [] && m.keys[0] == relayer && |m.instructions| == 1
      && var ix := m.instructions[0];
         && Nth(m.keys, ix.program as nat) == Some(tokenProgram)
         && Unpack(ix.data).Some? && Unpack(ix.data).value.TransferChecked?
         && (exists mint: Bytes32 :: AccountAt(m, ix, 1) == Some(mint) && Base58.Encode(mint) in allowedMints)
         && AccountAt(m, ix, 3) == Some(multisig) && |ix.accounts| == 6
         && (exists x: Bytes32, y: Bytes32 :: SignsAs(m, ix, 4, x) && SignsAs(m, ix, 5, y) && client in {x, y} && cosigner in {x, y})
  {
    if |m.instructions| == 1 && |m.instructions[0].accounts| == 6 {
      var ix := m.instructions[0];
      var i, j := ix.accounts[4], ix.accounts[5];
      assert ix.accounts[4..] == [i, j];
      TwoSigners(m, i, j);
      if i as nat < |m.keys| && j as nat < |m.keys| && Signs(m, i as nat) && Signs(m, j as nat) {
        assert SignsAs(m, ix, 4, m.keys[i]) && SignsAs(m, ix, 5, m.keys[j]);
      }
    }
  }

  /** The two further accounts of the only instruction sign and are these. */
  ghost predicate CosignedBy(m: Message, client: string, cosigner: string) {
    && |m.instructions| == 1
    && exists x: Bytes32, y: Bytes32 ::
         && SignsAs(m, m.instructions[0], 4, x) && SignsAs(m, m.instructions[0], 5, y)
         && Base58.Encode(x) == client && Base58.Encode(y) == cosigner
  }

  lemma ClaimMovement(keys: seq<Bytes32>, hash: Bytes32, amount: nat)
    requires |keys| == 8 && amount < U64_END
    ensures Moves(keys[6], ClaimMessage(keys, hash, amount), Movement(keys[3], keys[4], keys[7], amount, Some(keys[5])))
    ensures
      var m := ClaimMessage(keys, hash, amount);
      SignsAs(m, m.instructions[0], 4, keys[1]) && SignsAs(m, m.instructions[0], 5, keys[2])
  {
    TransferDataReads(amount, USDC_DECIMALS);
    var m := ClaimMessage(keys, hash, amount);
    var ix := m.instructions[0];
    assert AccountAt(m, ix, 0) == Some(keys[3]) && AccountAt(m, ix, 1) == Some(keys[5]);
    assert AccountAt(m, ix, 2) == Some(keys[4]) && AccountAt(m, ix, 3) == Some(keys[7]);
    assert AccountAt(m, ix, 4) == Some(keys[1]) && AccountAt(m, ix, 5) == Some(keys[2]);
  }

  lemma ClaimTexts(a: ClaimArgs, keys: seq<Bytes32>)
    requires |keys| == 8 && forall i :: 0 <= i < 8 ==> Base58.Encode(keys[i]) == ClaimKeys(a)[i]
    ensures Base58.Encode(keys[0]) == a.relayer && Base58.Encode(keys[1]) == a.client && Base58.Encode(keys[2]) == a.cosigner
    ensures Base58.Encode(keys[3]) == a.source && Base58.Encode(keys[4]) == a.destination && Base58.Encode(keys[5]) == a.mint
    ensures Base58.Encode(keys[6]) == TOKEN_PROGRAM && Base58.Encode(keys[7]) == a.authority
  {
    var texts := ClaimKeys(a);
    assert texts[0] == a.relayer && texts[1] == a.client && texts[2] == a.cosigner && texts[3] == a.source;
    assert texts[4] == a.destination && texts[5] == a.mint && texts[6] == TOKEN_PROGRAM && texts[7] == a.authority;
  }

  /** One account's address, as one of those handed to the builder. */
  lemma ClaimText(a: ClaimArgs, key: Bytes32, i: nat)
    requires AllDistinct(ClaimKeys(a)) && i < 8 && Base58.Encode(key) == ClaimKeys(a)[i]
    ensures Base58.Encode(key) in {a.relayer, a.client, a.cosigner} <==> i < 3
    ensures Base58.Encode(key) in {a.relayer, a.source, a.destination} <==> i in {0, 3, 4}
  {
    var texts := ClaimKeys(a);
    assert texts[0] == a.relayer && texts[1] == a.client && texts[2] == a.cosigner && texts[3] == a.source;
    assert texts[4] == a.destination && texts[5] == a.mint && texts[6] == TOKEN_PROGRAM && texts[7] == a.authority;
  }

  lemma ClaimRolesText(a: ClaimArgs, keys: seq<Bytes32>, hash: Bytes32)
    requires AllDistinct(ClaimKeys(a)) && |keys| == 8 && a.amount >= 0
    requires forall i :: 0 <= i < 8 ==> Base58.Encode(keys[i]) == ClaimKeys(a)[i]
    ensures
      var m := ClaimMessage(keys, hash, a.amount);
      forall i :: 0 <= i < 8 ==> RolesAs(m, i, {a.relayer, a.client, a.cosigner}, {a.relayer, a.source, a.destination})
  {
    var m := ClaimMessage(keys, hash, a.amount);
    forall i | 0 <= i < 8
      ensures RolesAs(m, i, {a.relayer, a.client, a.cosigner}, {a.relayer, a.source, a.destination})
    {
      ClaimRoles(keys, hash, a.amount, i);
      ClaimText(a, keys[i], i);
    }
  }

  /** Every message the claim builder makes, read back: it moves the amount from
      source to destination under the multisig's authority, in the given token, with
      client and cosigner as the multisig's signers; relayer, client and cosigner
      sign, the relayer first; only the relayer and the two token accounts can be
      written. */
  lemma ClaimMoves(a: ClaimArgs, tail: seq<byte>) returns (m: Message, program: Bytes32, mv: Movement)
    requires BuildClaim(a).Some?
    ensures ReadMessage(BuildClaim(a).value + tail) == Got(m, tail)
    ensures Base58.Encode(program) == TOKEN_PROGRAM && Moves(program, m, mv) && mv.mint.Some?
    ensures Base58.Encode(mv.from) == a.source && Base58.Encode(mv.to) == a.destination
    ensures Base58.Encode(mv.authority) == a.authority && mv.amount == a.amount && Base58.Encode(mv.mint.value) == a.mint
    ensures Base58.Encode(m.blockhash) == a.blockhash && KeyIs(m, 0, a.relayer)
    ensures CosignedBy(m, a.client, a.cosigner)
    ensures forall i :: 0 <= i < |m.keys| ==>
      RolesAs(m, i, {a.relayer, a.client, a.cosigner}, {a.relayer, a.source, a.destination})
  {
    var keys, hash := ClaimRecovered(a, tail);
    m := ClaimMessage(keys, hash, a.amount);
    program, mv := keys[6], Movement(keys[3], keys[4], keys[7], a.amount, Some(keys[5]));
    ClaimMovement(keys, hash, a.amount);
    ClaimTexts(a, keys);
    ClaimRolesText(a, keys, hash);
  }

  lemma BuiltClaimChecked(keys: seq<Bytes32>, hash: Bytes32, amount: nat, relayer: Bytes32, multisig: Bytes32,
                          client: Bytes32, cosigner: Bytes32, allowedMints: set<string>)
    requires |keys| == 8 && amount < U64_END
    ensures
      ValidateMultisigTransfer(ClaimMessage(keys, hash, amount), relayer, multisig, client, cosigner, allowedMints, keys[6]).Accepted?
      <==>
      && keys[0] == relayer && Base58.Encode(keys[5]) in allowedMints && keys[7] == multisig
      && (client == keys[1] || client == keys[2]) && (cosigner == keys[1] || cosigner == keys[2])
  {
    TransferDataReads(amount, USDC_DECIMALS);
    var m := ClaimMessage(keys, hash, amount);
    var ix := m.instructions[0];
    assert AccountAt(m, ix, 1) == Some(keys[5]) && AccountAt(m, ix, 3) == Some(keys[7]);
    assert ix.accounts[4..] == [1, 2];
    TwoSigners(m, 1, 2);
  }

  lemma ClaimByText(texts: seq<string>, keys: seq<Bytes32>, hash: Bytes32, amount: nat, relayer: Bytes32,
                    multisig: Bytes32, client: Bytes32, cosigner: Bytes32, allowedMints: set<string>)
    requires |keys| == 8 && amount < U64_END
    requires |texts| == 8 && forall i :: 0 <= i < 8 ==> Base58.Encode(keys[i]) == texts[i]
    ensures
      ValidateMultisigTransfer(ClaimMessage(keys, hash, amount), relayer, multisig, client, cosigner, allowedMints, keys[6]).Accepted?
      <==>
      && texts[0] == Base58.Encode(relayer) && texts[5] in allowedMints && texts[7] == Base58.Encode(multisig)
      && Base58.Encode(client) in {texts[1], texts[2]} && Base58.Encode(cosigner) in {texts[1], texts[2]}
  {
    BuiltClaimChecked(keys, hash, amount, relayer, multisig, client, cosigner, allowedMints);
    SameText(keys[0], relayer);
    SameText(keys[7], multisig);
    SameText(keys[1], client);
    SameText(keys[2], client);
    SameText(keys[1], cosigner);
    SameText(keys[2], cosigner);
  }

  lemma ClaimByArgs(a: ClaimArgs, keys: seq<Bytes32>, hash: Bytes32, amount: nat, relayer: Bytes32, multisig: Bytes32,
                    client: Bytes32, cosigner: Bytes32, allowedMints: set<string>, tokenProgram: Bytes32)
    requires |keys| == 8 && amount < U64_END && Base58.Encode(tokenProgram) == TOKEN_PROGRAM
    requires forall i :: 0 <= i < 8 ==> Base58.Encode(keys[i]) == ClaimKeys(a)[i]
    ensures
      ValidateMultisigTransfer(
        ClaimMessage(keys, hash, amount), relayer, multisig, client, cosigner, allowedMints, tokenProgram).Accepted?
      <==>
      && a.relayer == Base58.Encode(relayer) && a.mint in allowedMints && a.authority == Base58.Encode(multisig)
      && Base58.Encode(client) in {a.client, a.cosigner} && Base58.Encode(cosigner) in {a.client, a.cosigner}
  {
    var texts := ClaimKeys(a);
    assert texts[0] == a.relayer && texts[1] == a.client && texts[2] == a.cosigner && texts[5] == a.mint;
    assert texts[6] == TOKEN_PROGRAM && texts[7] == a.authority;
    SameText(keys[6], tokenProgram);
    ClaimByText(texts, keys, hash, amount, relayer, multisig, client, cosigner, allowedMints);
  }

  /** The claim message passes exactly when relayer, mint, multisig and the two
      signers are the expected ones. */
  lemma BuiltClaimAccepted(a: ClaimArgs, relayer: Bytes32, multisig: Bytes32, client: Bytes32, cosigner: Bytes32,
                           allowedMints: set<string>, tokenProgram: Bytes32)
    returns (m: Message)
    requires BuildClaim(a).Some? && Base58.Encode(tokenProgram) == TOKEN_PROGRAM
    ensures ReadMessage(BuildClaim(a).value + []) == Got(m, [])
    ensures ValidateMultisigTransfer(m, relayer, multisig, client, cosigner, allowedMints, tokenProgram).Accepted? <==>
      && a.relayer == Base58.Encode(relayer) && a.mint in allowedMints && a.authority == Base58.Encode(multisig)
      && Base58.Encode(client) in {a.client, a.cosigner} && Base58.Encode(cosigner) in {a.client, a.cosigner}
  {
    var keys, hash := ClaimRecovered(a, []);
    m := ClaimMessage(keys, hash, a.amount);
    ClaimByArgs(a, keys, hash, a.amount, relayer, multisig, client, cosigner, allowedMints, tokenProgram);
  }
}
