/**
 What is hashed to predict a CREATE2 address: the message that a salt is derived from, and
 the preimage of section "Specification" of EIP-1014. Both tell all of their parts.
 */
module Create2 {
  import opened Values
  import opened Text
  import Hex

  datatype SaltError = NetworkNotConfigured | PolicyIdRequired | PaymentAddressIdInvalid

  datatype SaltInput = SaltInput(network: string, policyId: string, paymentAddressId: int64, slot: uint32)

  const SALT_VERSION := "ethereum-create2-salt.v1"

  /******* Portable ids *******/

  predicate IsPortableChar(c: char) { 'a' <= c <= 'z' || '0' <= c <= '9' || c == '_' || c == '-' }

  predicate Portable(id: string) {
    0 < |id| <= 64 && forall i | 0 <= i < |id| :: IsPortableChar(id[i])
  }

  method IsPortableId(value: string) returns (r: bool)
    ensures r == Portable(value)
  {
    if value == "" || |value| > 64 { return false; }
    for i := 0 to |value|
      invariant forall j | 0 <= j < i :: IsPortableChar(value[j])
    {
      var c := value[i];
      if 'a' <= c <= 'z' { continue; }
      if '0' <= c <= '9' { continue; }
      if c == '_' || c == '-' { continue; }
      return false;
    }
    return true;
  }

  function Normalize(id: string): string { Hex.Lower(Trim(id)) }

  lemma PortableIsNormal(id: string)
    requires Portable(id)
    ensures Normalize(id) == id && Free(id, '\n')
  {
    TrimOfTrimmed(id);
  }

  lemma LowerStaysTrimmed(s: string)
    requires Trimmed(s)
    ensures Trimmed(Hex.Lower(s))
  {
  }

  lemma LowerTwice(s: string)
    ensures Hex.Lower(Hex.Lower(s)) == Hex.Lower(s)
    ensures forall i | 0 <= i < |s| :: !('A' <= Hex.Lower(s)[i] <= 'Z')
  {
  }

  // Spaces around an id make no difference, no upper-case letter is left, and a normal form stays.
  lemma IdIsNormalized(a: string, id: string, b: string)
    requires AllSpace(a) && AllSpace(b)
    ensures Normalize(a + id + b) == Normalize(id) == Normalize(Normalize(id))
    ensures forall i | 0 <= i < |Normalize(id)| :: !('A' <= Normalize(id)[i] <= 'Z')
  {
    TrimDropsSpace(a, id, b);
    LowerStaysTrimmed(Trim(id));
    TrimOfTrimmed(Normalize(id));
    LowerTwice(Trim(id));
  }

  /******* The salt message *******/

  function Message(i: SaltInput): string
    requires i.paymentAddressId > 0
  {
    SALT_VERSION + "\n" + i.network + "\n" + i.policyId + "\n" + Decimal(i.paymentAddressId) + "\n" + Decimal(i.slot)
  }

  // A keyed hash takes its message in pieces; only what was written in all matters here.
  class Mac {
    const key: seq<byte>
    var written: string

    constructor (key: seq<byte>)
      ensures this.key == key && written == ""
    {
      this.key := key;
      written := "";
    }

    method Write(s: string)
      modifies this
      ensures written == old(written) + s
    {
      written := written + s;
    }

    method WriteLines(version: string, network: string, policyId: string, paymentAddressId: string, slot: string)
      requires written == ""
      modifies this
      ensures written == version + "\n" + network + "\n" + policyId + "\n" + paymentAddressId + "\n" + slot
    {
      Write(version);
      assert written == version;
      Write("\n");
      Write(network);
      Write("\n");
      Write(policyId);
      Write("\n");
      Write(paymentAddressId);
      Write("\n");
      Write(slot);
    }
  }

  // The hash that the salt is the value of: its key belongs to the network, and its message
  // to the allocation.
  method DeriveAllocationSalt(keyByNetwork: map<string, seq<byte>>, input: SaltInput)
    returns (r: Result<Mac, SaltError>)
    ensures r.Success? <==>
      Normalize(input.network) in keyByNetwork && Normalize(input.policyId) != "" && input.paymentAddressId > 0
    ensures r.Success? ==>
      && fresh(r.value) && r.value.key == keyByNetwork[Normalize(input.network)]
      && r.value.written == Message(input.(network := Normalize(input.network), policyId := Normalize(input.policyId)))
  {
    var network := Normalize(input.network);
    if network !in keyByNetwork { return Failure(NetworkNotConfigured); }
    var policyId := Normalize(input.policyId);
    if policyId == "" { return Failure(PolicyIdRequired); }
    if input.paymentAddressId <= 0 { return Failure(PaymentAddressIdInvalid); }
    var mac := new Mac(keyByNetwork[network]);
    mac.WriteLines(SALT_VERSION, network, policyId, Decimal(input.paymentAddressId), Decimal(input.slot));
    return Success(mac);
  }

  lemma DecimalIsFree(n: nat)
    ensures Free(Decimal(n), '\n')
  {
  }

  // Network and policy as they stand in the message.
  function Owner(i: SaltInput): string { i.network + "\n" + i.policyId }

  lemma MessageByOwner(i: SaltInput)
    requires i.paymentAddressId > 0
    ensures Message(i) ==
            (SALT_VERSION + "\n" + Owner(i)) + ("\n" + Decimal(i.paymentAddressId) + "\n" + Decimal(i.slot))
  {
  }

  // The two numbers are read off the end of a message, whatever the text before them.
  lemma NumbersAreLast(front: string, id: nat, slot: nat)
    ensures var parts := Split(front + "\n" + Decimal(id) + "\n" + Decimal(slot), '\n');
      parts == Split(front, '\n') + [Decimal(id)] + [Decimal(slot)]
  {
    DecimalIsFree(id);
    DecimalIsFree(slot);
    SplitFree(Decimal(id), '\n');
    SplitFree(Decimal(slot), '\n');
    SplitConcat(front, Decimal(id), '\n');
    SplitConcat(front + "\n" + Decimal(id), Decimal(slot), '\n');
  }

  lemma LastTwoAgree<T>(s: seq<T>, a: T, b: T, t: seq<T>, x: T, y: T)
    requires s + [a] + [b] == t + [x] + [y]
    ensures a == x && b == y
  {
    var p, q := s + [a] + [b], t + [x] + [y];
    assert p[|p| - 1] == b && q[|q| - 1] == y && p[|p| - 2] == a && q[|q| - 2] == x;
  }

  lemma FrontsAgree(head: string, a: string, b: string, tail: string)
    requires (head + a) + tail == (head + b) + tail
    ensures a == b
  {
    assert a == ((head + a) + tail)[|head|..|head| + |a|];
    assert b == ((head + b) + tail)[|head|..|head| + |b|];
  }

  // Two inputs have the same message exactly when id and slot agree, and network and policy
  // give the same text around one line break.
  lemma MessagesAgreeExactly(i: SaltInput, j: SaltInput)
    requires i.paymentAddressId > 0 && j.paymentAddressId > 0
    ensures Message(i) == Message(j) <==>
            i.paymentAddressId == j.paymentAddressId && i.slot == j.slot && Owner(i) == Owner(j)
  {
    var head := SALT_VERSION + "\n";
    MessageByOwner(i);
    MessageByOwner(j);
    if Message(i) == Message(j) {
      NumbersOf(i);
      NumbersOf(j);
      LastTwoAgree(Split(head + Owner(i), '\n'), Decimal(i.paymentAddressId), Decimal(i.slot),
                   Split(head + Owner(j), '\n'), Decimal(j.paymentAddressId), Decimal(j.slot));
      ParseUndoesDecimal(i.paymentAddressId);
      ParseUndoesDecimal(j.paymentAddressId);
      ParseUndoesDecimal(i.slot);
      ParseUndoesDecimal(j.slot);
      FrontsAgree(head, Owner(i), Owner(j), "\n" + Decimal(i.paymentAddressId) + "\n" + Decimal(i.slot));
    }
  }

  lemma NumbersOf(i: SaltInput)
    requires i.paymentAddressId > 0
    ensures Split(Message(i), '\n') ==
            Split((SALT_VERSION + "\n") + Owner(i), '\n') + [Decimal(i.paymentAddressId)] + [Decimal(i.slot)]
  {
    var front := (SALT_VERSION + "\n") + Owner(i);
    NumbersAreLast(front, i.paymentAddressId, i.slot);
    assert Message(i) == front + "\n" + Decimal(i.paymentAddressId) + "\n" + Decimal(i.slot);
  }

  lemma VersionIsOneLine()
    ensures Split(SALT_VERSION, '\n') == [SALT_VERSION]
  {
    assert Free(SALT_VERSION, '\n');
    SplitFree(SALT_VERSION, '\n');
  }

  lemma HeadLines(i: SaltInput)
    requires Free(i.network, '\n') && Free(i.policyId, '\n')
    ensures Split((SALT_VERSION + "\n") + Owner(i), '\n') == Split(SALT_VERSION, '\n') + [i.network, i.policyId]
  {
    SplitFree(i.network, '\n');
    SplitFree(i.policyId, '\n');
    SplitConcat(i.network, i.policyId, '\n');
    SplitConcat(SALT_VERSION, Owner(i), '\n');
  }

  // The message, line by line, for ids without line breaks.
  lemma MessageLines(i: SaltInput)
    requires i.paymentAddressId > 0 && Free(i.network, '\n') && Free(i.policyId, '\n')
    ensures Split(Message(i), '\n') ==
            [SALT_VERSION, i.network, i.policyId, Decimal(i.paymentAddressId), Decimal(i.slot)]
  {
    VersionIsOneLine();
    HeadLines(i);
    NumbersOf(i);
    FiveInARow(SALT_VERSION, i.network, i.policyId, Decimal(i.paymentAddressId), Decimal(i.slot));
  }

  lemma FiveInARow<T>(a: T, b: T, c: T, d: T, e: T)
    ensures [a] + [b, c] + [d] + [e] == [a, b, c, d, e]
  {
  }

  // The boundary between network and policy is safe as soon as one of the two fields never
  // holds a line break.
  lemma OneGuardedFieldSuffices(i: SaltInput, j: SaltInput)
    requires i.paymentAddressId > 0 && j.paymentAddressId > 0 && Message(i) == Message(j)
    requires || (Free(i.network, '\n') && Free(j.network, '\n'))
             || (Free(i.policyId, '\n') && Free(j.policyId, '\n'))
    ensures i == j
  {
    MessagesAgreeExactly(i, j);
    if |i.network| == |j.network| {
      assert i.network == Owner(i)[..|i.network|] && i.policyId == Owner(i)[|i.network| + 1..];
      assert j.network == Owner(j)[..|j.network|] && j.policyId == Owner(j)[|j.network| + 1..];
    } else if |i.network| < |j.network| {
      BreakInside(i, j);
    } else {
      BreakInside(j, i);
    }
  }

  // With boundaries at different places, the longer network and the longer policy both hold a
  // line break.
  lemma BreakInside(i: SaltInput, j: SaltInput)
    requires Owner(i) == Owner(j) && |i.network| < |j.network|
    ensures !Free(j.network, '\n') && !Free(i.policyId, '\n')
  {
    var at := |j.network|;
    assert j.network[|i.network|] == Owner(j)[|i.network|] == Owner(i)[|i.network|] == '\n';
    assert i.policyId[at - |i.network| - 1] == Owner(i)[at] == Owner(j)[at] == '\n';
  }

  // Allocations that differ in network, policy, id or slot have different messages: both ids
  // are portable by the time they get here.
  lemma MessageIsInjective(i: SaltInput, j: SaltInput)
    requires i.paymentAddressId > 0 && Portable(i.network) && Portable(i.policyId)
    requires j.paymentAddressId > 0 && Portable(j.network) && Portable(j.policyId)
    ensures Message(i) == Message(j) <==> i == j
  {
    if Message(i) == Message(j) {
      PortableIsNormal(i.network);
      PortableIsNormal(j.network);
      OneGuardedFieldSuffices(i, j);
    }
  }

  // The guard is needed. `Owner` would be ambiguous if line breaks could reach both fields;
  // the checks on network and policy ids refuse them in either.
  lemma TheGuardIsNeeded()
    ensures var i := SaltInput("a\nb", "c", 1, 0);
      var j := SaltInput("a", "b\nc", 1, 0);
      i != j && Message(i) == Message(j) && !Portable(i.network) && !Portable(j.policyId)
  {
    var i, j := SaltInput("a\nb", "c", 1, 0), SaltInput("a", "b\nc", 1, 0);
    assert |i.network| == 3 && |j.network| == 1;
    assert i.network[1] == '\n' && j.policyId[1] == '\n';
    assert Owner(i) == "a\nb\nc" == Owner(j);
    MessagesAgreeExactly(i, j);
  }

  /******* The preimage *******/

  function Preimage(factory: seq<byte>, salt: seq<byte>, initCodeHash: seq<byte>): seq<byte> {
    [0xff] + factory + salt + initCodeHash
  }

  method BuildPreimage(factory: seq<byte>, salt: seq<byte>, initCodeHash: seq<byte>) returns (buffer: seq<byte>)
    ensures buffer == Preimage(factory, salt, initCodeHash)
    ensures |buffer| > 0 && buffer[0] == 0xff
    ensures |factory| == 20 && |salt| == 32 && |initCodeHash| == 32 ==>
      && |buffer| == 85
      && buffer[1..21] == factory && buffer[21..53] == salt && buffer[53..] == initCodeHash
  {
    buffer := [];
    buffer := buffer + [0xff];
    buffer := buffer + factory;
    buffer := buffer + salt;
    buffer := buffer + initCodeHash;
    assert [] + [0xff as byte] == [0xff];
  }

  // The parts have fixed sizes, so the 85 bytes tell them apart.
  lemma PreimageIsInjective(f1: seq<byte>, s1: seq<byte>, h1: seq<byte>, f2: seq<byte>, s2: seq<byte>, h2: seq<byte>)
    requires |f1| == |f2| == 20 && |s1| == |s2| == |h1| == |h2| == 32
    requires Preimage(f1, s1, h1) == Preimage(f2, s2, h2)
    ensures f1 == f2 && s1 == s2 && h1 == h2
  {
    var p, q := Preimage(f1, s1, h1), Preimage(f2, s2, h2);
    assert p[1..21] == f1 && q[1..21] == f2;
    assert p[21..53] == s1 && q[21..53] == s2;
    assert p[53..] == h1 && q[53..] == h2;
  }
}
