/** The address words of the Solidity contract ABI ("Formal Specification of the Encoding"):
    an address is a 32-byte word, 12 zero bytes followed by the 20 address bytes. */
module Abi {
  import opened Eth

  function PadAddress(a: Addr): Topic {
    seq(12, _ => 0 as Byte) + a
  }

  // The publisher and event manager that a registration event names.
  datatype Registrant = Registrant(pub: Addr, mgr: Addr)

  // The two addresses of a registration event; None where the parser runs out of bytes and throws.
  function DecodeRegistration(data: Bytes): Option<Registrant> {
    if |data| < 64 then None else Some(Registrant(data[12..32], data[44..64]))
  }

  lemma PadInjective(a: Addr, b: Addr)
    ensures PadAddress(a) == PadAddress(b) <==> a == b
  {
    assert PadAddress(a)[12..] == a && PadAddress(b)[12..] == b;
  }

  // The deploy filter of one contract never selects the deploy log of another.
  lemma DeployTopicIdentifiesContract(addr: Addr, other: Addr, sig: Topic, log: Log)
    requires log.topics == [sig, PadAddress(other)]
    ensures Matches(addr, [sig, PadAddress(addr)], log) <==> log.addr == addr == other
  {
    PadInjective(addr, other);
    if Matches(addr, [sig, PadAddress(addr)], log) {
      assert log.topics[1] == [sig, PadAddress(addr)][1];
    }
  }

  // The 12 bytes in front of the address are zero, as the ABI requires; the decoder skips them.
  predicate ZeroPadded(word: Bytes)
    requires |word| == 32
  {
    forall i | 0 <= i < 12 :: word[i] == 0
  }

  // Decoding what the ABI encodes returns both addresses, whatever follows the two words; and the
  // decoder's answer determines the two words exactly when their padding is zero.
  lemma RegistrationRoundTrip(p: Addr, m: Addr, data: Bytes)
    requires |data| >= 64
    ensures data[..64] == PadAddress(p) + PadAddress(m) <==>
            DecodeRegistration(data) == Some(Registrant(p, m)) && ZeroPadded(data[..32]) && ZeroPadded(data[32..64])
  {
    PaddedWord(data[..32], p);
    PaddedWord(data[32..64], m);
    assert data[12..32] == data[..32][12..] && data[44..64] == data[32..64][12..];
    assert data[..64] == data[..32] + data[32..64];
    if data[..64] == PadAddress(p) + PadAddress(m) {
      assert data[..32] == data[..64][..32] == PadAddress(p);
      assert data[32..64] == data[..64][32..] == PadAddress(m);
    }
  }

  lemma PaddedWord(word: Bytes, a: Addr)
    requires |word| == 32
    ensures word == PadAddress(a) <==> ZeroPadded(word) && word[12..] == a
  {}

  // Fills the first 12 bytes with zero and copies the address behind them.
  method AddressToAbiAddress(addr: Addr) returns (ret: array<Byte>)
    ensures fresh(ret)
    ensures ret[..] == PadAddress(addr)
  {
    ret := new Byte[32];
    for i := 0 to 12
      invariant forall j | 0 <= j < i :: ret[j] == 0
    {
      ret[i] := 0;
    }
    for i := 0 to 20
      invariant forall j | 0 <= j < 12 :: ret[j] == 0
      invariant forall j | 0 <= j < i :: ret[12 + j] == addr[j]
    {
      ret[12 + i] := addr[i];
    }
    forall j | 0 <= j < 32 ensures ret[j] == PadAddress(addr)[j] {
      if j >= 12 {
        assert ret[j] == ret[12 + (j - 12)];
      }
    }
  }
}
