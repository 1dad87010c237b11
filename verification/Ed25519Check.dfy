/** How the settlement program recognises the signature checks of the instructions before its own. */
module Ed25519Check {
  import opened Types
  import opened Preimages
  import opened SettlementTypes

  const THIS_INSTRUCTION := 65535

  function ReadU16(data: seq<Byte>, offset: nat): Result<nat, ProgramError> {
    if offset + 2 <= |data| then
      var low: nat, high: nat := data[offset], data[offset + 1];
      Ok(low + 256 * high)
    else Err(InvalidEd25519Instruction)
  }

  function RequireSliceEq(data: seq<Byte>, offset: nat, expected: seq<Byte>): Result<(), ProgramError> {
    if offset + |expected| <= |data| && data[offset..offset + |expected|] == expected then Ok(())
    else Err(InvalidEd25519Instruction)
  }

  function VerifyEd25519Instruction(
    ix: PriorInstruction, pubkey: Pubkey, signature: Signature, message: seq<Byte>): Result<(), ProgramError>
  {
    var data := ix.data;
    if !ix.callsEd25519 || ix.accounts != 0 then Err(InvalidEd25519Instruction)
    else if !(|data| >= 16 && data[0] == 1) then Err(InvalidEd25519Instruction)
    else
      var signatureOffset :- ReadU16(data, 2);
      var signatureIndex :- ReadU16(data, 4);
      var pubkeyOffset :- ReadU16(data, 6);
      var pubkeyIndex :- ReadU16(data, 8);
      var messageOffset :- ReadU16(data, 10);
      var messageSize :- ReadU16(data, 12);
      var messageIndex :- ReadU16(data, 14);
      if !(signatureIndex == pubkeyIndex == messageIndex == THIS_INSTRUCTION) then Err(InvalidEd25519Instruction)
      else
        var _ :- RequireSliceEq(data, signatureOffset, signature);
        var _ :- RequireSliceEq(data, pubkeyOffset, pubkey);
        var _ :- RequireSliceEq(data, messageOffset, message);
        if messageSize == |message| then Ok(()) else Err(InvalidEd25519Instruction)
  }

  // What the signature program verified for one entry whose three parts lie in its own instruction.
  datatype Verified = Verified(pubkey: Pubkey, signature: Signature, message: seq<Byte>)

  function Part(data: seq<Byte>, offset: nat, size: nat): Option<seq<Byte>> {
    if offset + size <= |data| then Some(data[offset..offset + size]) else None
  }

  function Word(data: seq<Byte>, offset: nat): nat
    requires offset + 2 <= |data|
  {
    FromLittleEndian(data[offset..offset + 2])
  }

  function Entry(data: seq<Byte>): Option<Verified> {
    if |data| < 16 || data[0] != 1 then None
    else if !(Word(data, 4) == Word(data, 8) == Word(data, 14) == THIS_INSTRUCTION) then None
    else
      match (Part(data, Word(data, 6), 32), Part(data, Word(data, 2), 64), Part(data, Word(data, 10), Word(data, 12)))
      case (Some(pubkey), Some(signature), Some(message)) => Some(Verified(pubkey, signature, message))
      case _ => None
  }

  lemma {:induction false} WordIsU16(data: seq<Byte>, offset: nat)
    requires offset + 2 <= |data|
    ensures ReadU16(data, offset) == Ok(Word(data, offset))
  {
    var w := data[offset..offset + 2];
    assert w[1..][1..] == [];
    assert FromLittleEndian(w[1..]) == w[1] + 256 * FromLittleEndian([]);
    assert FromLittleEndian(w) == w[0] + 256 * FromLittleEndian(w[1..]);
  }

  /** The check passes exactly when the signature program verified this very key, signature and message. */
  lemma PassesWhatWasVerified(ix: PriorInstruction, pubkey: Pubkey, signature: Signature, message: seq<Byte>)
    ensures VerifyEd25519Instruction(ix, pubkey, signature, message).Ok?
            <==> ix.callsEd25519 && ix.accounts == 0 && Entry(ix.data) == Some(Verified(pubkey, signature, message))
  {
    var data := ix.data;
    if |data| >= 16 {
      WordIsU16(data, 2);
      WordIsU16(data, 4);
      WordIsU16(data, 6);
      WordIsU16(data, 8);
      WordIsU16(data, 10);
      WordIsU16(data, 12);
      WordIsU16(data, 14);
    }
  }

  /** One earlier instruction vouches for one order only. */
  lemma VouchesForOneOrder(
    ix: PriorInstruction, a: SignedOrderPayload, b: SignedOrderPayload, s: Signature, t: Signature)
    requires VerifyEd25519Instruction(ix, a.trader, s, Preimage(a)).Ok?
    requires VerifyEd25519Instruction(ix, b.trader, t, Preimage(b)).Ok?
    ensures a == b && s == t
  {
    PassesWhatWasVerified(ix, a.trader, s, Preimage(a));
    PassesWhatWasVerified(ix, b.trader, t, Preimage(b));
    PreimageInjective(a, b);
  }

  // The check a client puts before a settlement: one entry, with key, signature and message behind the header.
  function CheckInstruction(pubkey: Pubkey, signature: Signature, message: seq<Byte>): PriorInstruction
    requires |message| < 0x1_0000
  {
    var size := |message|;
    var header: seq<Byte> := [1, 0, 48, 0, 255, 255, 16, 0, 255, 255, 112, 0, size % 256, size / 256, 255, 255];
    PriorInstruction(true, 0, header + pubkey + signature + message)
  }

  /** Such an instruction passes the check, and it is what the signature program verifies there. */
  lemma CheckInstructionPasses(pubkey: Pubkey, signature: Signature, message: seq<Byte>)
    requires |message| < 0x1_0000
    ensures var ix := CheckInstruction(pubkey, signature, message);
            && |ix.data| == 112 + |message| && ix.data[..2] == [1, 0]
            && VerifyEd25519Instruction(ix, pubkey, signature, message).Ok?
            && Entry(ix.data) == Some(Verified(pubkey, signature, message))
  {
    var ix := CheckInstruction(pubkey, signature, message);
    var data := ix.data;
    assert data[16..48] == pubkey && data[48..112] == signature && data[112..112 + |message|] == message;
    assert ReadU16(data, 2) == Ok(48) && ReadU16(data, 6) == Ok(16) && ReadU16(data, 10) == Ok(112);
    assert ReadU16(data, 12) == Ok(|message|);
    assert ReadU16(data, 4) == ReadU16(data, 8) == ReadU16(data, 14) == Ok(THIS_INSTRUCTION);
    PassesWhatWasVerified(ix, pubkey, signature, message);
  }
}
