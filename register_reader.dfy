/**
 * The cache-fronted register reader of rosetta/invoker/read.go.
 *
 * `readRegister(index, cache, height)` returns a closure over the index, the
 * shared cache and a fixed height. A read first looks the register up in the
 * cache under a key formatted from the height and the register identifier; on
 * a miss it converts the identifier to a trie path, asks the index for that
 * single path at the height, and offers the value to the cache at a cost of its
 * length in bytes.
 *
 * The closure is the class `Reader`, its captured variables its constant
 * fields. The cache (ristretto) is modelled by its Get/Set contract; whether a
 * Set is admitted is the cache's decision, passed in as a parameter. The path
 * conversion (state.RegisterIDToKey then pathfinder.KeyToPath) and the index
 * are collaborators whose insides are not part of this model.
 */
module RegisterReader {
  import opened Wrappers
  import opened FlowTypes

  // ----- The cache key: "%d/%x/%x/%s" of height, owner, controller and key -----

  const Slash: byte := 47

  predicate IsDigit(c: byte) {
    48 <= c <= 57
  }

  /** %d of a number: its decimal digits, without leading zeros. */
  function Decimal(n: nat): (r: seq<byte>)
    ensures |r| > 0 && forall i :: 0 <= i < |r| ==> IsDigit(r[i])
  {
    if n < 10 then [48 + n] else Decimal(n / 10) + [48 + n % 10]
  }

  /** The number a string of decimal digits denotes. */
  function DecimalValue(s: seq<byte>): nat {
    if s == [] then 0
    else DecimalValue(s[..|s| - 1]) * 10 + (if IsDigit(s[|s| - 1]) then s[|s| - 1] - 48 else 0)
  }

  lemma {:induction false} DecimalRoundTrip(n: nat)
    ensures DecimalValue(Decimal(n)) == n
  {
    if n >= 10 {
      var s := Decimal(n);
      assert s[..|s| - 1] == Decimal(n / 10);
      DecimalRoundTrip(n / 10);
    }
  }

  function HexDigit(d: nat): byte
    requires d < 16
  {
    if d < 10 then 48 + d else 87 + d
  }

  function HexDigitValue(c: byte): (d: nat)
    ensures d < 16
  {
    if 48 <= c <= 57 then c - 48 else if 97 <= c <= 102 then c - 87 else 0
  }

  /** %x of a string: two lower-case hexadecimal digits per byte; never a '/'. */
  function Hex(s: seq<byte>): (r: seq<byte>)
    ensures |r| == 2 * |s|
    ensures forall i :: 0 <= i < |r| ==> r[i] != Slash
  {
    if s == [] then [] else [HexDigit(s[0] / 16), HexDigit(s[0] % 16)] + Hex(s[1..])
  }

  /** The bytes a string of hexadecimal digit pairs denotes. */
  function Unhex(s: seq<byte>): seq<byte> {
    if |s| < 2 then [] else [HexDigitValue(s[0]) * 16 + HexDigitValue(s[1])] + Unhex(s[2..])
  }

  lemma {:induction false} HexRoundTrip(s: seq<byte>)
    ensures Unhex(Hex(s)) == s
  {
    if s != [] {
      var h := Hex(s);
      assert h[2..] == Hex(s[1..]);
      HexRoundTrip(s[1..]);
      assert Unhex(h) == [s[0]] + s[1..];
    }
  }

  /** Two fields joined by a '/'. */
  function Join(first: seq<byte>, rest: seq<byte>): seq<byte> {
    first + [Slash] + rest
  }

  /** The cache key of a register at a height. */
  function CacheKey(height: nat, owner: seq<byte>, controller: seq<byte>, key: seq<byte>): seq<byte> {
    Join(Decimal(height), Join(Hex(owner), Join(Hex(controller), key)))
  }

  /** The position of the first '/' in s, or |s| when there is none. */
  function FirstSlash(s: seq<byte>): (i: nat)
    ensures i <= |s| && (i < |s| ==> s[i] == Slash)
    ensures forall j :: 0 <= j < i ==> s[j] != Slash
  {
    if s == [] || s[0] == Slash then 0 else 1 + FirstSlash(s[1..])
  }

  /** Splitting a joined string at its first '/' gives back the fields, when the first has no '/'. */
  lemma SplitJoin(first: seq<byte>, rest: seq<byte>)
    requires forall j :: 0 <= j < |first| ==> first[j] != Slash
    ensures FirstSlash(Join(first, rest)) == |first|
    ensures Join(first, rest)[..|first|] == first && Join(first, rest)[|first| + 1..] == rest
  {
    var s := Join(first, rest);
    assert s[|first|] == Slash;
  }

  /** Reads a cache key back into a height and a register: the three '/'-separated fields, then the key. */
  function ParseCacheKey(s: seq<byte>): Option<(nat, RegisterID)> {
    var i := FirstSlash(s);
    if i == |s| then None
    else
      var t := s[i + 1..];
      var j := FirstSlash(t);
      if j == |t| then None
      else
        var u := t[j + 1..];
        var k := FirstSlash(u);
        if k == |u| then None
        else Some((DecimalValue(s[..i]), RegisterID(Unhex(t[..j]), Unhex(u[..k]), u[k + 1..])))
  }

  lemma ParseCacheKeyRoundTrip(height: nat, owner: seq<byte>, controller: seq<byte>, key: seq<byte>)
    ensures ParseCacheKey(CacheKey(height, owner, controller, key)) == Some((height, RegisterID(owner, controller, key)))
  {
    var tail := Join(Hex(controller), key);
    var rest := Join(Hex(owner), tail);
    SplitJoin(Decimal(height), rest);
    SplitJoin(Hex(owner), tail);
    SplitJoin(Hex(controller), key);
    DecimalRoundTrip(height);
    HexRoundTrip(owner);
    HexRoundTrip(controller);
  }

  /** Distinct heights or registers never share a cache entry. */
  lemma CacheKeyInjective(h1: nat, o1: seq<byte>, c1: seq<byte>, k1: seq<byte>,
                          h2: nat, o2: seq<byte>, c2: seq<byte>, k2: seq<byte>)
    requires CacheKey(h1, o1, c1, k1) == CacheKey(h2, o2, c2, k2)
    ensures h1 == h2 && o1 == o2 && c1 == c2 && k1 == k2
  {
    ParseCacheKeyRoundTrip(h1, o1, c1, k1);
    ParseCacheKeyRoundTrip(h2, o2, c2, k2);
  }

  // ----- Collaborators -----

  /** The index reader, by its answer for one path at one height. */
  datatype Index = Index(lookup: (nat, Path) -> Result<seq<byte>, string>)

  /** index.Reader.Registers: one value per path, in order, or the first failure. */
  function Registers(index: Index, height: nat, paths: seq<Path>): (r: Result<seq<seq<byte>>, string>)
    ensures r.Ok? <==> forall i :: 0 <= i < |paths| ==> index.lookup(height, paths[i]).Ok?
    ensures r.Ok? ==> |r.value| == |paths|
    ensures r.Ok? ==> forall i :: 0 <= i < |paths| ==> r.value[i] == index.lookup(height, paths[i]).value
  {
    if paths == [] then Ok([])
    else
      match index.lookup(height, paths[0])
      case Err(e) => Err(e)
      case Ok(value) =>
        match Registers(index, height, paths[1..])
        case Err(e) => Err(e)
        case Ok(values) => Ok([value] + values)
  }

  /** The cache of register values (ristretto), by its Get/Set contract. */
  class Cache {
    var entries: map<seq<byte>, seq<byte>>

    constructor ()
      ensures entries == map[]
    {
      entries := map[];
    }

    method Get(key: seq<byte>) returns (value: Option<seq<byte>>)
      ensures value == if key in entries then Some(entries[key]) else None
    {
      value := if key in entries then Some(entries[key]) else None;
    }

    /** Offers an entry; `admitted` is the cache's own decision, and the caller ignores it. */
    method Set(key: seq<byte>, value: seq<byte>, cost: nat, admitted: bool) returns (ok: bool)
      modifies this
      ensures ok == admitted
      ensures entries == if admitted then old(entries)[key := value] else old(entries)
    {
      ok := admitted;
      if admitted {
        entries := entries[key := value];
      }
    }
  }

  // ----- The read -----

  datatype ReadError =
    | CouldNotConvert(cause: string)  // "could not convert key to path: %w"
    | CouldNotRead(cause: string)     // "could not read register: %w"

  /** What a read returns without a cache: convert the register to a path, then ask the index for it. */
  function Uncached(index: Index, toPath: RegisterID -> Result<Path, string>, height: nat,
                    owner: seq<byte>, controller: seq<byte>, key: seq<byte>): Result<seq<byte>, ReadError>
  {
    match toPath(RegisterID(owner, controller, key))
    case Err(e) => Err(CouldNotConvert(e))
    case Ok(path) =>
      match Registers(index, height, [path])
      case Err(e) => Err(CouldNotRead(e))
      case Ok(values) => Ok(values[0])
  }

  /** A read without a cache fails exactly when the conversion or the lookup of that one path fails. */
  lemma UncachedReadsOnePath(index: Index, toPath: RegisterID -> Result<Path, string>, height: nat,
                             owner: seq<byte>, controller: seq<byte>, key: seq<byte>)
    ensures var id := RegisterID(owner, controller, key);
      Uncached(index, toPath, height, owner, controller, key) ==
        match toPath(id)
        case Err(e) => Err(CouldNotConvert(e))
        case Ok(path) =>
          match index.lookup(height, path)
          case Err(e) => Err(CouldNotRead(e))
          case Ok(value) => Ok(value)
  {
    match toPath(RegisterID(owner, controller, key))
    case Err(e) =>
    case Ok(path) =>
      var r := Registers(index, height, [path]);
      assert r.Ok? <==> index.lookup(height, path).Ok?;
  }

  /** Every cached entry holds what an uncached read of its register at its height returns. */
  ghost predicate Coherent(entries: map<seq<byte>, seq<byte>>, index: Index, toPath: RegisterID -> Result<Path, string>) {
    forall height: nat, owner, controller, key {:trigger CacheKey(height, owner, controller, key)} ::
      CacheKey(height, owner, controller, key) in entries ==>
        Uncached(index, toPath, height, owner, controller, key) == Ok(entries[CacheKey(height, owner, controller, key)])
  }

  /** Storing the value an uncached read returns keeps the cache coherent. */
  lemma CoherentStore(entries: map<seq<byte>, seq<byte>>, index: Index, toPath: RegisterID -> Result<Path, string>,
                      height: nat, owner: seq<byte>, controller: seq<byte>, key: seq<byte>, value: seq<byte>)
    requires Coherent(entries, index, toPath)
    requires Uncached(index, toPath, height, owner, controller, key) == Ok(value)
    ensures Coherent(entries[CacheKey(height, owner, controller, key) := value], index, toPath)
  {
    var stored := entries[CacheKey(height, owner, controller, key) := value];
    forall h: nat, o, c, k | CacheKey(h, o, c, k) in stored
      ensures Uncached(index, toPath, h, o, c, k) == Ok(stored[CacheKey(h, o, c, k)])
    {
      if CacheKey(h, o, c, k) == CacheKey(height, owner, controller, key) {
        CacheKeyInjective(h, o, c, k, height, owner, controller, key);
      }
    }
  }

  /** A call the read makes on its collaborators. */
  datatype Call =
    | Converted(id: RegisterID)
    | Queried(height: nat, paths: seq<Path>)
    | Stored(key: seq<byte>, value: seq<byte>, cost: nat)

  /** The calls a read makes after a cache miss. */
  ghost function MissCalls(index: Index, toPath: RegisterID -> Result<Path, string>, height: nat,
                           owner: seq<byte>, controller: seq<byte>, key: seq<byte>): seq<Call>
  {
    var id := RegisterID(owner, controller, key);
    [Converted(id)] +
      match toPath(id)
      case Err(_) => []
      case Ok(path) =>
        [Queried(height, [path])] +
          match Registers(index, height, [path])
          case Err(_) => []
          case Ok(values) => [Stored(CacheKey(height, owner, controller, key), values[0], |values[0]|)]
  }

  /** The closure returned by readRegister. */
  class Reader {
    const index: Index
    const cache: Cache
    const height: nat
    const toPath: RegisterID -> Result<Path, string>
    /** The conversions, index queries and cache stores made so far. */
    ghost var calls: seq<Call>

    constructor (index: Index, cache: Cache, height: nat, toPath: RegisterID -> Result<Path, string>)
      ensures this.index == index && this.cache == cache && this.height == height && this.toPath == toPath
      ensures calls == []
    {
      this.index := index;
      this.cache := cache;
      this.height := height;
      this.toPath := toPath;
      calls := [];
    }

    ghost predicate Valid()
      reads this, cache
    {
      Coherent(cache.entries, index, toPath)
    }

    method Read(owner: seq<byte>, controller: seq<byte>, key: seq<byte>, admitted: bool) returns (r: Result<seq<byte>, ReadError>)
      modifies this, cache
      ensures var cacheKey := CacheKey(height, owner, controller, key);
        if cacheKey in old(cache.entries) then
          && r == Ok(old(cache.entries)[cacheKey])
          && cache.entries == old(cache.entries)
          && calls == old(calls)
        else
          && r == Uncached(index, toPath, height, owner, controller, key)
          && calls == old(calls) + MissCalls(index, toPath, height, owner, controller, key)
          && cache.entries == if r.Ok? && admitted then old(cache.entries)[cacheKey := r.value] else old(cache.entries)
      ensures old(Valid()) ==> Valid() && r == Uncached(index, toPath, height, owner, controller, key)
    {
      var cacheKey := CacheKey(height, owner, controller, key);
      var cached := cache.Get(cacheKey);
      if cached.Some? {
        return Ok(cached.value);
      }
      var id := RegisterID(owner, controller, key);
      calls := calls + [Converted(id)];
      var path := toPath(id);
      if path.Err? {
        return Err(CouldNotConvert(path.error));
      }
      calls := calls + [Queried(height, [path.value])];
      var values := Registers(index, height, [path.value]);
      if values.Err? {
        return Err(CouldNotRead(values.error));
      }
      var value := values.value[0];
      calls := calls + [Stored(cacheKey, value, |value|)];
      if old(Valid()) {
        CoherentStore(cache.entries, index, toPath, height, owner, controller, key, value);
      }
      var stored := cache.Set(cacheKey, value, |value|, admitted);
      return Ok(value);
    }
  }
}
