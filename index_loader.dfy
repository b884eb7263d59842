/**
 * The index trie loader of service/loader/index.go.
 *
 * `Index.Trie` obtains a starting trie from the configured initializer, then
 * lets the ledger iterator hand it the indexed registers batch by batch. Each
 * batch's payload pointers are copied into an array of payload values and the
 * trie is replaced by the result of updating it with the batch's paths and
 * payloads; a progress counter of processed paths is reset once it reaches
 * 10000. The first failure ends the restoration with an error and no trie.
 *
 * The trie type, the initializer, the trie update (flow-go's
 * NewTrieWithUpdatedRegisters) and the iterator are collaborators: the trie is
 * a type parameter, the initializer's answer and the update are parameters,
 * and the iterator is the sequence of batches it produces, in order.
 */
module IndexLoader {
  import opened Wrappers
  import opened FlowTypes

  /** A `*ledger.Payload`: the batch holds pointers, and the copy dereferences them. */
  class PayloadPointer {
    const target: Payload

    constructor (target: Payload)
      ensures this.target == target
    {
      this.target := target;
    }
  }

  /** One call of the `process` closure: the paths and payload pointers of a batch. */
  datatype Batch = Batch(paths: seq<Path>, payloads: seq<PayloadPointer>)

  /** The wrapping the closure adds, "could not update trie: %w". */
  datatype UpdateError<+E> = CouldNotUpdate(cause: E)

  datatype LoadError<+E> =
    | CouldNotInitialize(cause: E)               // "could not initialize trie: %w"
    | CouldNotIterate(failure: UpdateError<E>)   // "could not iterate ledger: %w"

  /** The payload values the pointers refer to, in order. */
  function Targets(pointers: seq<PayloadPointer>): (payloads: seq<Payload>)
    ensures |payloads| == |pointers|
    ensures forall i :: 0 <= i < |pointers| ==> payloads[i] == pointers[i].target
  {
    seq(|pointers|, i requires 0 <= i < |pointers| => pointers[i].target)
  }

  /** The trie update applied to each batch, in iteration order, stopping at the first failure. */
  function Replay<T, E>(tree: T, batches: seq<Batch>, mutate: (T, seq<Path>, seq<Payload>) -> Result<T, E>): Result<T, E>
    decreases |batches|
  {
    if batches == [] then Ok(tree)
    else
      match mutate(tree, batches[0].paths, Targets(batches[0].payloads))
      case Err(e) => Err(e)
      case Ok(next) => Replay(next, batches[1..], mutate)
  }

  /** What `Trie` returns: the replay of every batch over the initial trie, or the first error, wrapped. */
  function Restore<T, E>(initializer: Result<T, E>, batches: seq<Batch>,
                         mutate: (T, seq<Path>, seq<Payload>) -> Result<T, E>): Result<T, LoadError<E>>
  {
    match initializer
    case Err(e) => Err(CouldNotInitialize(e))
    case Ok(tree) =>
      match Replay(tree, batches, mutate)
      case Err(e) => Err(CouldNotIterate(CouldNotUpdate(e)))
      case Ok(restored) => Ok(restored)
  }

  /** The progress counter after a batch of `count` paths: reset to zero once it reaches 10000. */
  function Progress(processed: nat, count: nat): (p: nat)
    ensures p < 10000
    ensures processed + count < 10000 ==> p == processed + count
    ensures processed + count >= 10000 ==> p == 0
  {
    if processed + count >= 10000 then 0 else processed + count
  }

  /** The counter after a run of batches, starting from zero. */
  function Counted(batches: seq<Batch>): (p: nat)
    ensures p < 10000
  {
    if batches == [] then 0 else Progress(Counted(batches[..|batches| - 1]), |batches[|batches| - 1].paths|)
  }

  /** The number of paths in a run of batches. */
  function TotalPaths(batches: seq<Batch>): nat {
    if batches == [] then 0 else TotalPaths(batches[..|batches| - 1]) + |batches[|batches| - 1].paths|
  }

  /** Until 10000 paths have gone by, the counter is the number of paths processed. */
  lemma {:induction false} CountedCounts(batches: seq<Batch>)
    requires TotalPaths(batches) < 10000
    ensures Counted(batches) == TotalPaths(batches)
    decreases |batches|
  {
    if batches != [] {
      CountedCounts(batches[..|batches| - 1]);
    }
  }

  /** The copy of a batch's payloads, realPayloads[i] = *payloads[i]. */
  method CopyPayloads(payloads: seq<PayloadPointer>) returns (copied: array<Payload>)
    ensures copied.Length == |payloads|
    ensures copied[..] == Targets(payloads)
  {
    copied := new Payload[|payloads|];
    var i := 0;
    while i < |payloads|
      invariant 0 <= i <= |payloads|
      invariant forall j :: 0 <= j < i ==> copied[j] == payloads[j].target
    {
      copied[i] := payloads[i].target;
      i := i + 1;
    }
  }

  /** Index.Trie, with the counter it keeps between batches. */
  method Trie<T, E>(initializer: Result<T, E>, batches: seq<Batch>,
                    mutate: (T, seq<Path>, seq<Payload>) -> Result<T, E>)
    returns (r: Result<T, LoadError<E>>, processed: nat)
    ensures r == Restore(initializer, batches, mutate)
    ensures processed < 10000
    ensures r.Ok? ==> processed == Counted(batches)
  {
    processed := 0;
    if initializer.Err? {
      return Err(CouldNotInitialize(initializer.error)), processed;
    }
    var tree := initializer.value;
    var i := 0;
    while i < |batches|
      invariant 0 <= i <= |batches|
      invariant processed == Counted(batches[..i])
      invariant Replay(initializer.value, batches, mutate) == Replay(tree, batches[i..], mutate)
    {
      var copied := CopyPayloads(batches[i].payloads);
      assert batches[i..][0] == batches[i] && batches[i..][1..] == batches[i + 1..];
      var next := mutate(tree, batches[i].paths, copied[..]);
      if next.Err? {
        return Err(CouldNotIterate(CouldNotUpdate(next.error))), processed;
      }
      tree := next.value;
      processed := Progress(processed, |batches[i].paths|);
      assert batches[..i + 1][..i] == batches[..i];
      i := i + 1;
    }
    assert batches[..i] == batches;
    return Ok(tree), processed;
  }

  // ----- Properties -----

  /** A failing initializer ends the restoration before any batch; with no batches the initial trie is returned. */
  lemma RestoreInitial<T, E>(initializer: Result<T, E>, mutate: (T, seq<Path>, seq<Payload>) -> Result<T, E>)
    ensures initializer.Err? ==> forall batches :: Restore(initializer, batches, mutate) == Err(CouldNotInitialize(initializer.error))
    ensures initializer.Ok? ==> Restore(initializer, [], mutate) == Ok(initializer.value)
  {
  }

  /** Replaying two runs of batches is replaying the first, then the second over its result. */
  lemma {:induction false} ReplayAppend<T, E>(tree: T, first: seq<Batch>, second: seq<Batch>,
                                              mutate: (T, seq<Path>, seq<Payload>) -> Result<T, E>)
    ensures Replay(tree, first + second, mutate) ==
      match Replay(tree, first, mutate)
      case Err(e) => Err(e)
      case Ok(middle) => Replay(middle, second, mutate)
    decreases |first|
  {
    if first != [] {
      assert (first + second)[0] == first[0] && (first + second)[1..] == first[1..] + second;
      match mutate(tree, first[0].paths, Targets(first[0].payloads))
      case Err(e) =>
      case Ok(next) => ReplayAppend(next, first[1..], second, mutate);
    } else {
      assert first + second == second;
    }
  }

  /** A batch that fails after the earlier ones succeeded ends the restoration with its error, wrapped, and no trie. */
  lemma FirstErrorAborts<T, E>(initial: T, batches: seq<Batch>, k: nat, reached: T, e: E,
                               mutate: (T, seq<Path>, seq<Payload>) -> Result<T, E>)
    requires k < |batches|
    requires Replay(initial, batches[..k], mutate) == Ok(reached)
    requires mutate(reached, batches[k].paths, Targets(batches[k].payloads)) == Err(e)
    ensures Restore(Ok(initial), batches, mutate) == Err(CouldNotIterate(CouldNotUpdate(e)))
  {
    assert batches == batches[..k] + batches[k..];
    ReplayAppend(initial, batches[..k], batches[k..], mutate);
    assert batches[k..][0] == batches[k];
  }

  /** A restoration that succeeds applied every batch in order: it is the last batch's update of the trie before it. */
  lemma RestoreLastBatch<T, E>(initial: T, batches: seq<Batch>, last: Batch,
                               mutate: (T, seq<Path>, seq<Payload>) -> Result<T, E>)
    requires Restore(Ok(initial), batches + [last], mutate).Ok?
    ensures Replay(initial, batches, mutate).Ok?
    ensures var update := mutate(Replay(initial, batches, mutate).value, last.paths, Targets(last.payloads));
      update.Ok? && Restore(Ok(initial), batches + [last], mutate) == Ok(update.value)
  {
    ReplayAppend(initial, batches, [last], mutate);
    assert [last][1..] == [];
  }
}
