# flow-dps core, modelled in Dafny

This project models four small components of flow-dps, the Flow Data Provisioning Service:

- **The ledger WAL record decoder** (`wal_encoding.dfy`, module `WalEncoding`). `Decode` checks that a record has at least four bytes, then dispatches on its one-byte operation tag:
  - an update record is handed to the trie-update decoder;
  - a delete record yields its length-prefixed state commitment;
  - any other tag is an unknown operation.

  The readers Decode relies on are written from the record layout the source documents. That layout is: the operation byte, a big-endian uint16 commitment length, the commitment, and for updates a big-endian uint32 pair count, a big-endian uint16 shared key length, and per pair the key, a big-endian uint32 value length and the value. An encoder written from the same layout is the decoder's partner.
- **The cache-fronted register reader** (`register_reader.dfy`, module `RegisterReader`), the closure built by `readRegister`. A read looks up a cache key formatted from the height and the register. On a miss it converts the register to a trie path, asks the index for that one path at the closure's height, and offers the value to the cache at a cost of its byte length.
- **The index trie loader** (`index_loader.dfy`, module `IndexLoader`), `Index.Trie`. It takes the initial trie, then replays every indexed batch of paths and payloads over it. For each batch it copies the payloads out of their pointers and keeps a progress counter that resets at 10000. The first failure aborts the restoration.
- **The FLOW balance detector** (`balance_flow.dfy`, module `BalanceFlow`), `FlowFinder.DetectFlow`. It validates a ledger key's three-part shape and skips FVM bookkeeping registers and keys outside the storage path domains. It then adds every visited vault's balance to the caller's `flows[address][path]`, wrapping as a Go uint64 does.

Shared types are in `flow_types.dfy` (bytes, register identifiers, ledger keys, payloads, paths) and `wrappers.dfy` (`Option`, `Result`).

Collaborators whose code is not part of this model are parameters:

- the register-to-path conversion;
- the index lookup;
- the cache's admission decision;
- the initial trie and the trie update;
- the sequence of batches the ledger iterator produces;
- `IsFVMStateKey`;
- the Cadence decoding of a payload value;
- the register cache (ristretto), given by its assumed Get/Set contract.

## Model

| member | source | states |
|---|---|---|
| WalEncoding.Decode | ledger/wal/encoding.go:38-66 | Without an error the operation is Update or Delete. An update is returned exactly for an Update record decoded without error. A non-zero root hash is returned only for a Delete record decoded without error. |
| WalEncoding.DecodeTooShort | ledger/wal/encoding.go:39-42 | Fewer than four bytes give an error carrying the data, operation 0, the zero root hash and no update. |
| WalEncoding.DecodeUnknownOperation | ledger/wal/encoding.go:62-64 | A tag other than 1 or 2 gives an unknown-operation error. That tag is returned as the operation, with no update and the zero root hash. |
| WalEncoding.DecodeUpdateDelegates | ledger/wal/encoding.go:46-48 | An Update record returns exactly the trie-update decoding of `data[1:]` (update or error), and its root hash stays zero. |
| WalEncoding.DecodeDeleteTruncated | ledger/wal/encoding.go:51-55 | A Delete record whose declared commitment length exceeds the bytes after the length gives "cannot read state commitment", wrapping the too-small-input error. |
| WalEncoding.DecodeDeleteWrongLength | ledger/wal/encoding.go:56-60 | A Delete commitment whose length is not HashLen gives "invalid root hash", wrapping the wrong-length error. |
| WalEncoding.DecodeDeleteCommitment | ledger/wal/encoding.go:49-61 | A well-formed Delete record returns bytes 3 .. 3+HashLen as the root hash, with no update and no error. Any later bytes are ignored. |
| WalEncoding.DecodeDeleteRoundTrip | ledger/wal/encoding.go:49-61 | The encoding of a Delete record for any root hash, followed by any bytes, decodes to operation 2 and exactly that hash. |
| WalEncoding.DecodeDeleteComplete | ledger/wal/encoding.go:49-61 | Converse of the round trip: a Delete record that decodes without error starts with the encoding of the returned hash. |
| WalEncoding.DecodeUpdateRoundTrip | ledger/wal/encoding.go:46-48 | The encoding of any well-formed update, followed by any bytes, decodes to operation 1 and exactly that update. |
| WalEncoding.DecodeUpdateComplete | ledger/wal/encoding.go:46-48 | Converse of the round trip: an Update record that decodes is operation byte 1, then the encoding of the returned update, then ignored bytes. The encoding uses the declared key length, which equals every key's length whenever there are keys. |
| WalEncoding.DecodeUpdateTruncated | ledger/wal/encoding.go:46-48 | An Update record whose header declares more pair bytes than follow is rejected with a too-small-input error and no update. |
| WalEncoding.DecodeTrieUpdate | ledger/wal/encoding.go:27-32 | A decoded update is well formed: as many keys as values, fewer than 2^32 pairs, every key of the shared key length, every value shorter than 2^32. |
| WalEncoding.DecodeTrieUpdateComplete | ledger/wal/encoding.go:25-32 | Bytes the trie-update decoder accepts are the encoding of the returned update, with its declared key length, followed by ignored bytes. |
| WalEncoding.DecodeTrieUpdateRoundTrip | ledger/wal/encoding.go:25-32 | The trie-update decoder reads back any encoded well-formed update, ignoring trailing bytes. |
| WalEncoding.ReadShortData | ledger/wal/encoding.go:25 | Succeeds exactly when there are two length bytes and at least that many bytes after them. On success the input is the encoding of the data read, followed by the rest. |
| WalEncoding.ReadUint16 | ledger/wal/encoding.go:25 | Succeeds exactly on two or more bytes. The value is below 2^16, and the input is its big-endian encoding followed by the rest. |
| WalEncoding.ReadUint32 | ledger/wal/encoding.go:29 | Succeeds exactly on four or more bytes. The value is below 2^32, and the input is its big-endian encoding followed by the rest. |
| WalEncoding.ReadPairs | ledger/wal/encoding.go:31-32 | A failure is a too-small-input error. A success reads `count` keys of the shared length and `count` values, and the input is their encoding followed by the rest. |
| WalEncoding.ReadPairsRoundTrip | ledger/wal/encoding.go:31-32 | Encoded pairs are read back as the same keys and values, leaving what followed them. |
| WalEncoding.ReadPairsNeedsBytes | ledger/wal/encoding.go:31-32 | Fewer than count*(keyLength+4) bytes can never be read as `count` pairs; the result is a too-small-input error. |
| WalEncoding.ToRootHash | ledger/wal/encoding.go:56 | Succeeds exactly on HashLen bytes, returning them; otherwise it reports the wrong length. |
| RegisterReader.Reader.Read | rosetta/invoker/read.go:33-56 | On a hit it returns the cached value and calls nothing. On a miss it returns the uncached read and records its calls: conversion; then, if conversion succeeded, one query of one path at the closure's height; then, if that succeeded, one store of element 0 at cost equal to its byte length. The cache changes only by that store, and only when admitted. A coherent cache stays coherent, and every read then returns what the index holds. |
| RegisterReader.Reader.constructor | rosetta/invoker/read.go:32-33 | The closure captures the index, the cache and the height, and has made no calls yet. |
| RegisterReader.Cache.Get | rosetta/invoker/read.go:36 | The external cache's assumed Get contract, which Read relies on: the entry under the key when there is one, otherwise a miss. |
| RegisterReader.Cache.Set | rosetta/invoker/read.go:53 | The external cache's assumed Set contract: the entry is stored when admitted, otherwise the cache is unchanged. It reports whether it stored. |
| RegisterReader.CacheKeyInjective | rosetta/invoker/read.go:35 | Two reads share a cache key only when height, owner, controller and key all agree. |
| RegisterReader.ParseCacheKeyRoundTrip | rosetta/invoker/read.go:35 | A cache key splits at its first three '/' back into its height and its register. |
| RegisterReader.DecimalRoundTrip | rosetta/invoker/read.go:35 | The `%d` rendering of a height denotes that height. |
| RegisterReader.HexRoundTrip | rosetta/invoker/read.go:35 | The `%x` rendering of a string denotes that string's bytes. |
| RegisterReader.Registers | rosetta/invoker/read.go:47 | Succeeds exactly when every path's lookup succeeds. It then returns one value per path, in order. |
| RegisterReader.UncachedReadsOnePath | rosetta/invoker/read.go:41-52 | An uncached read either fails conversion ("could not convert key to path"), fails the single lookup ("could not read register"), or returns that lookup's value. |
| RegisterReader.CoherentStore | rosetta/invoker/read.go:52-53 | Storing what an uncached read returns, under its key, keeps every cached entry equal to its register's uncached read. |
| IndexLoader.Trie | service/loader/index.go:61-100 | Returns exactly the restoration: a failing initializer gives "could not initialize trie". Otherwise the trie update is folded over the batches in order, and the first failure gives "could not iterate ledger". The progress counter ends below 10000, and after a success it is the counter run over all batches. |
| IndexLoader.CopyPayloads | service/loader/index.go:77-80 | The copy has one element per pointer, and element i is the payload pointer i refers to. |
| IndexLoader.Targets | service/loader/index.go:77-80 | The dereferenced payloads keep the length and order of the pointers. |
| IndexLoader.Progress | service/loader/index.go:85-89 | After a batch the counter is the previous count plus the batch's paths while that stays below 10000. Once the sum reaches 10000 the counter is reset to zero. |
| IndexLoader.CountedCounts | service/loader/index.go:72-89 | While fewer than 10000 paths have been processed in total, the counter equals that total. |
| IndexLoader.RestoreInitial | service/loader/index.go:67-70 | A failing initializer fails the restoration, whatever the batches. With no batches the initial trie is returned. |
| IndexLoader.ReplayAppend | service/loader/index.go:81 | Replaying two runs of batches is replaying the first, then the second over its result. |
| IndexLoader.FirstErrorAborts | service/loader/index.go:82-96 | A batch that fails after the earlier ones succeeded ends the restoration with its error, wrapped twice, and no trie. |
| IndexLoader.RestoreLastBatch | service/loader/index.go:81-90 | A successful restoration of batches plus one more is that batch's update of the trie restored from the batches before it. |
| BalanceFlow.KeyToRegisterID | service/balance/flow.go:190-203 | Errors are "key not in expected format" for that key. A success returns the register whose key is exactly the input. |
| BalanceFlow.KeyToRegisterIDRoundTrip | service/balance/flow.go:190-202 | Succeeds with a register exactly when the key is three parts typed owner, controller, key, in order, holding that register's strings. |
| BalanceFlow.NoKeyInAllPathDomains | service/balance/flow.go:118-123 | No key starts with "public", "private" and "storage" at once. |
| BalanceFlow.AsWrittenCreditsNothing | service/balance/flow.go:118-123 | With the filter as written, DetectFlow never changes `flows`. Its only possible error is the key-format error. |
| BalanceFlow.PathDomainAdmits | service/balance/flow.go:118-123 | With the filter as intended, a domain identifier followed by any name passes. |
| BalanceFlow.PathDomainSplit | service/balance/flow.go:118-123 | With the filter as intended, every key that passes is a domain identifier followed by a name. |
| BalanceFlow.BytesToAddress | service/balance/flow.go:159 | The address is eight bytes: the last eight of the owner, or the owner left-padded with zero bytes. |
| BalanceFlow.Credit | service/balance/flow.go:160-169 | A zero balance leaves `flows` unchanged. Otherwise the amount at (address, path) grows by the balance modulo 2^64. |
| BalanceFlow.CreditFrame | service/balance/flow.go:165-169 | A non-zero credit adds the address to the outer map (creating its inner map when absent) and the path to that inner map. Every other address, and every other path of that address, keeps its entry. |
| BalanceFlow.CreditAllAmount | service/balance/flow.go:155-172 | After all visited vaults, the amount at (address, path) is the old amount plus their balances' sum, modulo 2^64. |
| BalanceFlow.CreditAllOthers | service/balance/flow.go:165-169 | Every other (address, path) amount is unchanged. |
| BalanceFlow.CreditCommutes | service/balance/flow.go:169 | The order in which two vaults are visited does not change the result. |
| BalanceFlow.FlowMap.AddBalance | service/balance/flow.go:157-171 | The visitor's work for one vault updates the caller's map as Credit says. |
| BalanceFlow.FlowMap.AddBalances | service/balance/flow.go:154-185 | Visiting the vaults in order updates the caller's map by each vault's credit, in turn. |
| BalanceFlow.Detect | service/balance/flow.go:109-187 | Errors leave `flows` unchanged. A malformed key returns its format error. An FVM-state key, or one outside the storage domains, returns nil with `flows` unchanged. |
| BalanceFlow.DetectCredits | service/balance/flow.go:109-187 | For a storage register that decodes, the owner's address and the payload's path gain the sum of the visited vault balances modulo 2^64. Every other (address, path) keeps its amount. |
| BalanceFlow.DetectFlow | service/balance/flow.go:109-188 | Returns the error Detect gives, with the intended filter, and leaves `flows` as Detect says. |

## Left out

- Error messages are modelled as constructors that carry the wrapped cause. The formatted text, including the hex dumps of the data, is not modelled.
- The readers Decode calls are flow-go code (`utils.ReadShortData`, `ledger.ToRootHash`, `encoding.DecodeTrieUpdate`) and are not part of this model. They are written here from the layout documented at ledger/wal/encoding.go:18-36, with HashLen = 32.
- flow-go's newer, versioned trie-update encoding is not part of this model. In the modelled trie-update decoder, bytes after the last pair are ignored.
- WalEncoding.DecodeUpdateComplete: a record with zero pairs may declare any key length, and the decoded update does not keep it; re-encoding that update writes key length 0, so such a record is reproduced only up to that field.
- WalEncoding.Decode: when `ToRootHash` fails, Go returns whatever root hash it produced; the model returns the zero hash.
- `pathfinder.KeyToPath` and `state.RegisterIDToKey` are a single collaborator from register to path, or an error.
- `index.Reader.Registers` is modelled through a per-path lookup: one value per path, or the first failure.
- RegisterReader.Cache: ristretto's admission policy is the `admitted` argument. Its eviction of other entries, its buffered (delayed) Set and its concurrency are not modelled, so a stored entry stays until overwritten.
- RegisterReader.Reader.Read: the calls made to collaborators are recorded in a ghost trace rather than observed.
- The loader's logging, timing, Badger transaction, `FromIndex` options and `ExcludeHeight` are not modelled. The ledger iterator is the sequence of batches it hands to `process`.
- IndexLoader.Trie: it treats an error returned by `process` as ending the iteration and surfacing through it. Errors of the iterator itself (decoding the index) are not modelled.
- IndexLoader.Trie: the Go `int` counter cannot overflow below 10000 plus one batch; its width is not modelled.
- IndexLoader.CopyPayloads: nil payload pointers (a Go panic) cannot occur in the model.
- Cadence decoding (`DecodeStorable`, `StoredValue`, `MustConvertStoredValue`), the atree storage and the interpreter are not modelled. Decoding is a collaborator that yields a value or a storable/value failure, and the interpreter is assumed to be created.
- The decoded value is a tree of composites and containers. The visitor sees it depth-first, fields in order, and does not descend into a vault. Cadence's own traversal is not part of this model.
- Panics are not modelled: a vault without a UFix64 `balance` field, and `MustConvertStoredValue` failing.
- The commented-out code at service/balance/flow.go:26-105 is not modelled, and neither is `storageMigrationV5DecMode` (service/balance/flow.go:205-216).
- BalanceFlow.DetectFlow uses the intended storage path filter (see Findings). The filter as written is `InAllPathDomains`, and its consequence is proved in `AsWrittenCreditsNothing`.
- The forest, trie flattening and rebuilding code is not part of this model; only a test of it is available.

## Findings

| source | as written | input that shows it | evidently intended | confidence | as-written member | corrected member |
|---|---|---|---|---|---|---|
| service/balance/flow.go:118-120 | The storage path filter requires the key to start with "public" AND "private" AND "storage" | Any key, e.g. the storage key "storage" + 0x1f + "flowTokenVault": it does not start with "public", so DetectFlow returns nil and no vault is ever counted | The key starts with any one of the three domain identifiers (`\|\|`) | high; not executed | BalanceFlow.AsWrittenCreditsNothing | BalanceFlow.PathDomainSplit |
