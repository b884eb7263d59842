/**
 * The FLOW balance detector of service/balance/flow.go.
 *
 * `DetectFlow` looks at one register payload. It validates the ledger key's
 * shape and turns it into a register identifier, skips registers that hold
 * FVM bookkeeping rather than Cadence values, skips keys outside the storage
 * path domains, decodes the stored Cadence value, and walks it with a visitor
 * that adds the balance of every vault composite of the configured type to
 * `flows[owner address][path]`.
 *
 * The Cadence decoding is a collaborator (`decode`), the decoded value is
 * modelled as a tree of composites and containers, and `state.IsFVMStateKey`
 * is a collaborator predicate. The flows map is the caller's, updated in
 * place: it is the field of a `FlowMap` object.
 */
module BalanceFlow {
  import opened Wrappers
  import opened FlowTypes

  // ----- keyToRegisterID -----

  /** executionState.KeyPartOwner, KeyPartController, KeyPartKey. */
  const KeyPartOwner: nat := 0
  const KeyPartController: nat := 1
  const KeyPartKey: nat := 2

  datatype DetectError =
    | KeyNotInExpectedFormat(key: Key)     // "key not in expected format %s"
    | FailedToDecodeStorable(cause: string)
    | FailedToDecodeValue(cause: string)

  /** The ledger key a register identifier is stored under: owner, controller and key parts, in that order. */
  function RegisterKey(id: RegisterID): Key {
    Key([KeyPart(KeyPartOwner, id.owner), KeyPart(KeyPartController, id.controller), KeyPart(KeyPartKey, id.key)])
  }

  /** keyToRegisterID: exactly three parts, typed owner, controller and key, become a register identifier. */
  function KeyToRegisterID(key: Key): (r: Result<RegisterID, DetectError>)
    ensures r.Err? ==> r.error == KeyNotInExpectedFormat(key)
    ensures r.Ok? ==> key == RegisterKey(r.value)
  {
    if |key.parts| != 3
       || key.parts[0].partType != KeyPartOwner
       || key.parts[1].partType != KeyPartController
       || key.parts[2].partType != KeyPartKey
    then Err(KeyNotInExpectedFormat(key))
    else Ok(RegisterID(key.parts[0].value, key.parts[1].value, key.parts[2].value))
  }

  /** keyToRegisterID accepts exactly the keys of register identifiers, and gives back the identifier. */
  lemma KeyToRegisterIDRoundTrip(key: Key, id: RegisterID)
    ensures KeyToRegisterID(key) == Ok(id) <==> key == RegisterKey(id)
  {
    if key == RegisterKey(id) {
      assert key.parts[0] == KeyPart(KeyPartOwner, id.owner);
      assert key.parts[1] == KeyPart(KeyPartController, id.controller);
      assert key.parts[2] == KeyPart(KeyPartKey, id.key);
    }
  }

  // ----- The storage path filter -----

  /** common.PathDomainPublic, PathDomainPrivate and PathDomainStorage identifiers. */
  const PublicDomain: seq<byte> := Ascii("public")
  const PrivateDomain: seq<byte> := Ascii("private")
  const StorageDomain: seq<byte> := Ascii("storage")
  const PathDomains: set<seq<byte>> := {PublicDomain, PrivateDomain, StorageDomain}

  /** The filter as written: the key starts with all three domain identifiers at once. */
  predicate InAllPathDomains(key: seq<byte>) {
    HasPrefix(key, PublicDomain) && HasPrefix(key, PrivateDomain) && HasPrefix(key, StorageDomain)
  }

  /** The as-written filter rejects every key: "public" and "private" differ in their second byte. */
  lemma NoKeyInAllPathDomains(key: seq<byte>)
    ensures !InAllPathDomains(key)
  {
    if HasPrefix(key, PublicDomain) {
      assert key[1] == PublicDomain[1] == 117;
      assert PrivateDomain[1] == 114;
    }
  }

  /** The filter as intended: the key starts with one of the domain identifiers. */
  predicate InSomePathDomain(key: seq<byte>) {
    HasPrefix(key, PublicDomain) || HasPrefix(key, PrivateDomain) || HasPrefix(key, StorageDomain)
  }

  /** Every key made of a domain identifier and a name passes the intended filter... */
  lemma PathDomainAdmits(domain: seq<byte>, name: seq<byte>)
    requires domain in PathDomains
    ensures InSomePathDomain(domain + name)
  {
    assert (domain + name)[..|domain|] == domain;
  }

  /** ...and every key that passes it is such a key. */
  lemma PathDomainSplit(key: seq<byte>) returns (domain: seq<byte>, name: seq<byte>)
    requires InSomePathDomain(key)
    ensures domain in PathDomains && key == domain + name
  {
    if HasPrefix(key, PublicDomain) {
      domain := PublicDomain;
    } else if HasPrefix(key, PrivateDomain) {
      domain := PrivateDomain;
    } else {
      domain := StorageDomain;
    }
    name := key[|domain|..];
    assert key == key[..|domain|] + key[|domain|..];
  }

  // ----- The flows map and the visitor's update of it -----

  const Uint64Bound: nat := 0x1_0000_0000_0000_0000

  type uint64 = x: int | 0 <= x < Uint64Bound

  /** flow.Address: eight bytes. */
  type Address = seq<byte>

  /** map[flow.Address]map[ledger.Path]uint64 */
  type Flows = map<Address, map<Path, uint64>>

  /** flow.BytesToAddress: the last eight bytes, left-padded with zeros when there are fewer. */
  function BytesToAddress(b: seq<byte>): (a: Address)
    ensures |a| == 8
    ensures |b| >= 8 ==> a == b[|b| - 8..]
    ensures |b| < 8 ==> a[8 - |b|..] == b && forall i :: 0 <= i < 8 - |b| ==> a[i] == 0
  {
    if |b| >= 8 then b[|b| - 8..] else Zeros(8 - |b|) + b
  }

  /** What `flows[address][path]` reads: the stored amount, or Go's zero value when absent. */
  function Amount(flows: Flows, address: Address, path: Path): uint64 {
    if address in flows && path in flows[address] then flows[address][path] else 0
  }

  /** The visitor's update for a vault of balance b: nothing for a zero balance, else a wrapping uint64 `+=`. */
  function Credit(flows: Flows, address: Address, path: Path, b: uint64): (r: Flows)
    ensures b == 0 ==> r == flows
    ensures Amount(r, address, path) == (Amount(flows, address, path) + b) % Uint64Bound
  {
    if b == 0 then flows
    else
      var inner: map<Path, uint64> := if address in flows then flows[address] else map[];
      var amount: uint64 := if path in inner then inner[path] else 0;
      var sum: uint64 := (amount + b) % Uint64Bound;
      flows[address := inner[path := sum]]
  }

  /** A credit creates the address's inner map and the path's entry when absent, and touches no other entry. */
  lemma CreditFrame(flows: Flows, address: Address, path: Path, b: uint64)
    ensures var r := Credit(flows, address, path, b);
      && (b != 0 ==> r.Keys == flows.Keys + {address})
      && (b != 0 ==> r[address].Keys == (if address in flows then flows[address].Keys else {}) + {path})
      && (forall other :: other in flows && other != address ==> r[other] == flows[other])
      && (address in flows ==> forall p :: p in flows[address] && p != path ==> r[address][p] == flows[address][p])
  {
  }

  /** The visitor's updates for each vault balance in turn. */
  function CreditAll(flows: Flows, address: Address, path: Path, balances: seq<uint64>): Flows
    decreases |balances|
  {
    if balances == [] then flows else CreditAll(Credit(flows, address, path, balances[0]), address, path, balances[1..])
  }

  function Sum(balances: seq<uint64>): nat {
    if balances == [] then 0 else balances[0] + Sum(balances[1..])
  }

  /** Reducing the running amount before adding is the same as reducing after: the uint64 wrap. */
  lemma ModAdd(x: nat, y: nat)
    ensures (x % Uint64Bound + y) % Uint64Bound == (x + y) % Uint64Bound
  {
  }

  /** The visited vaults add up, modulo 2^64, at the payload's address and path. */
  lemma {:induction false} CreditAllAmount(flows: Flows, address: Address, path: Path, balances: seq<uint64>)
    ensures Amount(CreditAll(flows, address, path, balances), address, path) ==
      (Amount(flows, address, path) + Sum(balances)) % Uint64Bound
    decreases |balances|
  {
    if balances == [] {
      assert Amount(flows, address, path) < Uint64Bound;
    } else {
      var credited := Credit(flows, address, path, balances[0]);
      CreditAllAmount(credited, address, path, balances[1..]);
      ModAdd(Amount(flows, address, path) + balances[0], Sum(balances[1..]));
    }
  }

  /** Every other address and path keeps its amount. */
  lemma {:induction false} CreditAllOthers(flows: Flows, address: Address, path: Path, balances: seq<uint64>,
                                           otherAddress: Address, otherPath: Path)
    requires otherAddress != address || otherPath != path
    ensures Amount(CreditAll(flows, address, path, balances), otherAddress, otherPath) == Amount(flows, otherAddress, otherPath)
    decreases |balances|
  {
    if balances != [] {
      var credited := Credit(flows, address, path, balances[0]);
      CreditAllOthers(credited, address, path, balances[1..], otherAddress, otherPath);
      CreditFrame(flows, address, path, balances[0]);
      assert Amount(credited, otherAddress, otherPath) == Amount(flows, otherAddress, otherPath);
    }
  }

  /** The order in which the visitor meets two vaults does not matter. */
  lemma CreditCommutes(flows: Flows, address: Address, path: Path, b1: uint64, b2: uint64)
    ensures Credit(Credit(flows, address, path, b1), address, path, b2) ==
            Credit(Credit(flows, address, path, b2), address, path, b1)
  {
    if b1 != 0 && b2 != 0 {
      CreditTwice(flows, address, path, b1, b2);
      CreditTwice(flows, address, path, b2, b1);
    }
  }

  /** Two non-zero credits in a row leave the wrapped total of both. */
  lemma CreditTwice(flows: Flows, address: Address, path: Path, b1: uint64, b2: uint64)
    requires b1 != 0 && b2 != 0
    ensures var inner: map<Path, uint64> := if address in flows then flows[address] else map[];
      var sum: uint64 := (Amount(flows, address, path) + b1 + b2) % Uint64Bound;
      Credit(Credit(flows, address, path, b1), address, path, b2) == flows[address := inner[path := sum]]
  {
    var amount := Amount(flows, address, path);
    var inner: map<Path, uint64> := if address in flows then flows[address] else map[];
    var first: uint64 := (amount + b1) % Uint64Bound;
    var once := Credit(flows, address, path, b1);
    assert once == flows[address := inner[path := first]];
    assert once[address] == inner[path := first];
    ModAdd(amount + b1, b2);
    var sum: uint64 := (first + b2) % Uint64Bound;
    assert Credit(once, address, path, b2) == once[address := inner[path := first][path := sum]];
    assert inner[path := first][path := sum] == inner[path := sum];
  }

  /** The caller's flows map, which DetectFlow updates in place. */
  class FlowMap {
    var entries: Flows

    constructor ()
      ensures entries == map[]
    {
      entries := map[];
    }

    /** The composite visitor's work for one vault: the `if b == 0`, the inner map creation and the `+=`. */
    method AddBalance(address: Address, path: Path, b: uint64)
      modifies this
      ensures entries == Credit(old(entries), address, path, b)
    {
      if b == 0 {
        return;
      }
      if address !in entries {
        entries := entries[address := map[]];
      }
      var inner: map<Path, uint64> := entries[address];
      var amount := if path in inner then inner[path] else 0;
      var sum: uint64 := (amount + b) % Uint64Bound;
      entries := entries[address := inner[path := sum]];
    }

    /** The visitor's work over a traversal: one AddBalance per vault visited, in order. */
    method AddBalances(address: Address, path: Path, balances: seq<uint64>)
      modifies this
      ensures entries == CreditAll(old(entries), address, path, balances)
    {
      var i := 0;
      while i < |balances|
        invariant 0 <= i <= |balances|
        invariant CreditAll(entries, address, path, balances[i..]) == CreditAll(old(entries), address, path, balances)
      {
        assert balances[i..][0] == balances[i] && balances[i..][1..] == balances[i + 1..];
        AddBalance(address, path, balances[i]);
        i := i + 1;
      }
      assert balances[i..] == [];
    }
  }

  // ----- DetectFlow -----

  /** A decoded Cadence value, as far as the visitor sees it. */
  datatype Value =
    | Composite(typeID: seq<byte>, balance: uint64, fields: seq<Value>)  // balance: the raw UFix64 of its "balance" field
    | Container(elements: seq<Value>)

  /** The balances of the vaults the visitor meets, in visiting order; it does not descend into a vault. */
  function VaultBalances(values: seq<Value>, vaultTypeID: seq<byte>): seq<uint64>
    decreases values
  {
    if values == [] then []
    else
      assert values[0] in values;
      var first := match values[0]
        case Composite(typeID, balance, fields) =>
          if typeID == vaultTypeID then [balance] else VaultBalances(fields, vaultTypeID)
        case Container(elements) => VaultBalances(elements, vaultTypeID);
      first + VaultBalances(values[1..], vaultTypeID)
  }

  /** Why the stored bytes could not be decoded: the storable, or the value it holds. */
  datatype DecodeFailure = StorableFailure(cause: string) | ValueFailure(cause: string)

  /** FlowFinder, with its collaborators. */
  datatype FlowFinder = FlowFinder(
    vaultTypeID: seq<byte>,
    isFVMStateKey: (seq<byte>, seq<byte>, seq<byte>) -> bool,
    decode: seq<byte> -> Result<Value, DecodeFailure>)

  datatype Outcome = Outcome(err: Option<DetectError>, flows: Flows)

  /** What DetectFlow returns and leaves in the flows map, for a given storage path filter. */
  function Detect(finder: FlowFinder, inStorageDomain: seq<byte> -> bool, path: Path, payload: Payload, flows: Flows): (r: Outcome)
    ensures r.err.Some? ==> r.flows == flows
    ensures KeyToRegisterID(payload.key).Err? ==> r == Outcome(Some(KeyNotInExpectedFormat(payload.key)), flows)
    ensures KeyToRegisterID(payload.key).Ok? ==>
      var id := KeyToRegisterID(payload.key).value;
      finder.isFVMStateKey(id.owner, id.controller, id.key) || !inStorageDomain(id.key) ==> r == Outcome(None, flows)
  {
    match KeyToRegisterID(payload.key)
    case Err(e) => Outcome(Some(e), flows)
    case Ok(id) =>
      if finder.isFVMStateKey(id.owner, id.controller, id.key) then Outcome(None, flows)
      else if !inStorageDomain(id.key) then Outcome(None, flows)
      else
        match finder.decode(payload.value)
        case Err(StorableFailure(cause)) => Outcome(Some(FailedToDecodeStorable(cause)), flows)
        case Err(ValueFailure(cause)) => Outcome(Some(FailedToDecodeValue(cause)), flows)
        case Ok(value) =>
          Outcome(None, CreditAll(flows, BytesToAddress(id.owner), path, VaultBalances([value], finder.vaultTypeID)))
  }

  /** With the filter as written, DetectFlow never changes the flows map and never decodes a value. */
  lemma AsWrittenCreditsNothing(finder: FlowFinder, path: Path, payload: Payload, flows: Flows)
    ensures var r := Detect(finder, InAllPathDomains, path, payload, flows);
      r.flows == flows && (r.err.Some? ==> r.err.value.KeyNotInExpectedFormat?)
  {
    match KeyToRegisterID(payload.key)
    case Err(_) =>
    case Ok(id) => NoKeyInAllPathDomains(id.key);
  }

  /** With the intended filter, a storage register's vaults are added at its owner's address and path, and nothing else moves. */
  lemma DetectCredits(finder: FlowFinder, path: Path, payload: Payload, flows: Flows, id: RegisterID, value: Value)
    requires payload.key == RegisterKey(id)
    requires !finder.isFVMStateKey(id.owner, id.controller, id.key) && InSomePathDomain(id.key)
    requires finder.decode(payload.value) == Ok(value)
    ensures var r := Detect(finder, InSomePathDomain, path, payload, flows);
      var address := BytesToAddress(id.owner);
      && r.err == None
      && Amount(r.flows, address, path) == (Amount(flows, address, path) + Sum(VaultBalances([value], finder.vaultTypeID))) % Uint64Bound
      && forall a, p :: a != address || p != path ==> Amount(r.flows, a, p) == Amount(flows, a, p)
  {
    KeyToRegisterIDRoundTrip(payload.key, id);
    var address := BytesToAddress(id.owner);
    var balances := VaultBalances([value], finder.vaultTypeID);
    CreditAllAmount(flows, address, path, balances);
    forall a, p | a != address || p != path
      ensures Amount(CreditAll(flows, address, path, balances), a, p) == Amount(flows, a, p)
    {
      CreditAllOthers(flows, address, path, balances, a, p);
    }
  }

  /** FlowFinder.DetectFlow, with the intended storage path filter. */
  method DetectFlow(finder: FlowFinder, path: Path, payload: Payload, flows: FlowMap) returns (err: Option<DetectError>)
    modifies flows
    ensures var outcome := Detect(finder, InSomePathDomain, path, payload, old(flows.entries));
      err == outcome.err && flows.entries == outcome.flows
  {
    var found := KeyToRegisterID(payload.key);
    if found.Err? {
      return Some(found.error);
    }
    var id := found.value;
    if finder.isFVMStateKey(id.owner, id.controller, id.key) {
      return None;
    }
    if !InSomePathDomain(id.key) {
      return None;
    }
    var decoded := finder.decode(payload.value);
    if decoded.Err? {
      match decoded.error
      case StorableFailure(cause) => return Some(FailedToDecodeStorable(cause));
      case ValueFailure(cause) => return Some(FailedToDecodeValue(cause));
    }
    var balances := VaultBalances([decoded.value], finder.vaultTypeID);
    flows.AddBalances(BytesToAddress(id.owner), path, balances);
    return None;
  }
}
