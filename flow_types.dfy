/** The flow-go ledger types that the modelled components exchange. */
module FlowTypes {

  /** A Go byte; Go strings are modelled as the sequence of their bytes. */
  type byte = x: int | 0 <= x < 256

  /** The bytes of an ASCII string literal. */
  function Ascii(s: string): seq<byte>
    requires forall i :: 0 <= i < |s| ==> s[i] as int < 128
  {
    seq(|s|, i requires 0 <= i < |s| => s[i] as int)
  }

  /** n zero bytes. */
  function Zeros(n: nat): (r: seq<byte>)
    ensures |r| == n
    ensures forall i :: 0 <= i < n ==> r[i] == 0
  {
    if n == 0 then [] else [0] + Zeros(n - 1)
  }

  predicate HasPrefix(s: seq<byte>, prefix: seq<byte>) {
    |prefix| <= |s| && s[..|prefix|] == prefix
  }

  /** flow.RegisterID: the owner, controller and key strings of a register. */
  datatype RegisterID = RegisterID(owner: seq<byte>, controller: seq<byte>, key: seq<byte>)

  /** ledger.KeyPart: a typed component of a ledger key (the type is a uint16). */
  datatype KeyPart = KeyPart(partType: nat, value: seq<byte>)

  /** ledger.Key: the ordered parts of a ledger key. */
  datatype Key = Key(parts: seq<KeyPart>)

  /** ledger.Payload: the key a register value is stored under, and the value. */
  datatype Payload = Payload(key: Key, value: seq<byte>)

  /** ledger.Path: the fixed-width trie path of a register. */
  type Path = seq<byte>
}
