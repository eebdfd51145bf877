/**
 * The pipeline driver `main`: resolve the arguments, choose a batch source
 * (one single-entry batch per precalculated source, or the batches of
 * `fetch_all`), and unless in dry run pull batches one at a time, handing
 * every item of every batch to `process_item`.
 *
 * The two collaborators are not modelled: a call of `fetch_all` is recorded
 * with its arguments and the batches its generator would yield are an input;
 * a call of `process_item` is recorded in a call trace and its result dropped.
 */
module PipelineDriver {
  import opened Wrappers
  import opened ArgumentResolver

  /** One batch: the entries of a mapping from an opaque key to a source item, in iteration order. */
  type Batch = seq<(string, SourceItem)>

  /** A recorded `process_item(backend=…, addr=…, fname=…)`. */
  datatype ProcessCall = ProcessCall(backend: string, addr: string, fname: string)

  /** A recorded `fetch_all(term=…, db=…, batch_size=…)`. */
  datatype FetchCall = FetchCall(term: string, db: string, batchSize: Option<int>)

  /**
   * How `main` ends: it returns `True`, or it raises because it evaluated
   * `batch.values()` on the `None` that `next(fetcher, None)` gives once the
   * producer is exhausted.
   */
  datatype Outcome = ReturnedTrue | RaisedOnExhaustedProducer

  /** Everything observable about one run of `main`. */
  datatype RunRecord = RunRecord(
    fetchCall: Option<FetchCall>,
    dryRunNotice: bool,
    trace: seq<ProcessCall>,
    outcome: Outcome)

  /** The trace and outcome of the batch loop. */
  datatype Drained = Drained(trace: seq<ProcessCall>, outcome: Outcome)

  /** A single-pass producer of batches, pulled one at a time (`next(fetcher, None)`). */
  class BatchProducer {
    const batches: seq<Batch>
    var pos: nat

    ghost predicate Valid()
      reads this
    {
      pos <= |batches|
    }

    /** The batches not yet pulled. */
    function Remaining(): seq<Batch>
      reads this
      requires Valid()
    {
      batches[pos..]
    }

    constructor (batches: seq<Batch>)
      ensures Valid() && this.batches == batches && Remaining() == batches
    {
      this.batches := batches;
      pos := 0;
    }

    /** The next batch, or `None` once every batch has been pulled. */
    method Next() returns (b: Option<Batch>)
      requires Valid()
      modifies this
      ensures Valid()
      ensures old(Remaining()) == [] ==> b == None && Remaining() == []
      ensures old(Remaining()) != [] ==>
        b == Some(old(Remaining())[0]) && Remaining() == old(Remaining())[1..]
    {
      if pos < |batches| {
        b := Some(batches[pos]);
        pos := pos + 1;
      } else {
        b := None;
      }
    }
  }

  // ------------------------------------------------------------ specification

  /** The calls for the items of a batch, in order, all with the given backend. */
  function ItemCalls(backend: string, b: Batch): (r: seq<ProcessCall>)
    ensures |r| == |b|
    ensures forall i :: 0 <= i < |b| ==> r[i] == ProcessCall(backend, b[i].1.addr, b[i].1.fname)
  {
    if b == [] then [] else ItemCalls(backend, b[..|b| - 1]) + [ProcessCall(backend, b[|b| - 1].1.addr, b[|b| - 1].1.fname)]
  }

  /**
   * The batch loop `while batch: batch = next(fetcher, None); for … in batch.values(): …`
   * over the batches still to come: an empty batch ends it normally, running
   * out of batches raises, and a non-empty batch is processed and the loop goes on.
   */
  function Drain(backend: string, batches: seq<Batch>): Drained
    decreases |batches|
  {
    if batches == [] then Drained([], RaisedOnExhaustedProducer)
    else if batches[0] == [] then Drained([], ReturnedTrue)
    else
      var rest := Drain(backend, batches[1..]);
      Drained(ItemCalls(backend, batches[0]) + rest.trace, rest.outcome)
  }

  /** The concatenation of the batches' entries, batch after batch. */
  function Flatten(batches: seq<Batch>): Batch {
    if batches == [] then [] else batches[0] + Flatten(batches[1..])
  }

  /** The index of the first empty batch, or the number of batches when none is empty. */
  function FirstEmpty(batches: seq<Batch>): (k: nat)
    ensures k <= |batches|
    ensures forall i :: 0 <= i < k ==> batches[i] != []
    ensures k < |batches| ==> batches[k] == []
  {
    if batches == [] then 0
    else if batches[0] == [] then 0
    else 1 + FirstEmpty(batches[1..])
  }

  /** `({k: v} for k, v in precalculated_sources.items())`. */
  function SingleEntryBatches(sources: Sources): seq<Batch> {
    seq(|sources|, i requires 0 <= i < |sources| => [sources[i]])
  }

  /** Whether the precalculated path is taken (`if precalculated_sources:`). */
  predicate UsesPrecalculated(args: CanonicalArgs) {
    TruthySources(args.precalculatedSources)
  }

  /** The `fetch_all` call `main` makes, if any. */
  function FetchCallOf(args: CanonicalArgs): Option<FetchCall> {
    if UsesPrecalculated(args) then None
    else Some(FetchCall(args.query, args.database, args.batchSize))
  }

  /** The batches the loop would pull, given what `fetch_all`'s generator yields. */
  function BatchSource(args: CanonicalArgs, fetchAllYields: seq<Batch>): seq<Batch> {
    if UsesPrecalculated(args) then SingleEntryBatches(args.precalculatedSources.value)
    else fetchAllYields
  }

  /** The whole run of `main(cfg, **raw)`. */
  function RunSpec(d: Defaults, cfg: Option<Config>, raw: RawArgs, fetchAllYields: seq<Batch>): RunRecord {
    var args := ParseAppArgs(d, cfg, Some(raw));
    if args.dryRun then
      RunRecord(FetchCallOf(args), true, [], ReturnedTrue)
    else
      var drained := Drain(args.backend, BatchSource(args, fetchAllYields));
      RunRecord(FetchCallOf(args), false, drained.trace, drained.outcome)
  }

  // --------------------------------------------------------- loop properties

  /** The calls of two item lists in a row are the calls of their concatenation. */
  lemma ItemCallsAppend(backend: string, a: Batch, b: Batch)
    ensures ItemCalls(backend, a + b) == ItemCalls(backend, a) + ItemCalls(backend, b)
  {
  }

  /** Splitting single-entry batches back together gives the sources again. */
  lemma {:induction false} FlattenSingleEntryBatches(sources: Sources)
    ensures Flatten(SingleEntryBatches(sources)) == sources
    ensures FirstEmpty(SingleEntryBatches(sources)) == |sources|
    decreases |sources|
  {
    var bs := SingleEntryBatches(sources);
    if sources != [] {
      assert bs[0] == [sources[0]];
      assert bs[1..] == SingleEntryBatches(sources[1..]);
      FlattenSingleEntryBatches(sources[1..]);
      assert [sources[0]] + sources[1..] == sources;
    }
  }

  /**
   * What the batch loop processes, stated without the loop: the items of every
   * batch before the first empty one, batch after batch and item after item.
   */
  lemma {:induction false} DrainTrace(backend: string, batches: seq<Batch>)
    ensures Drain(backend, batches).trace == ItemCalls(backend, Flatten(batches[..FirstEmpty(batches)]))
    decreases |batches|
  {
    if batches == [] {
    } else if batches[0] == [] {
      assert batches[..0] == [];
      assert Flatten([]) == [];
    } else {
      var tail := batches[1..];
      var k := FirstEmpty(batches);
      DrainTrace(backend, tail);
      var prefix := tail[..k - 1];
      assert batches[..k] == [batches[0]] + prefix;
      assert ([batches[0]] + prefix)[1..] == prefix;
      assert Flatten(batches[..k]) == batches[0] + Flatten(prefix);
      ItemCallsAppend(backend, batches[0], Flatten(prefix));
    }
  }

  /** The batch loop returns normally exactly when some batch is empty; otherwise it raises. */
  lemma {:induction false} DrainOutcome(backend: string, batches: seq<Batch>)
    ensures Drain(backend, batches).outcome == ReturnedTrue <==>
      exists i :: 0 <= i < |batches| && batches[i] == []
    decreases |batches|
  {
    if batches != [] && batches[0] != [] {
      var tail := batches[1..];
      DrainOutcome(backend, tail);
      if exists i :: 0 <= i < |batches| && batches[i] == [] {
        var i :| 0 <= i < |batches| && batches[i] == [];
        assert tail[i - 1] == [];
      }
      if exists i :: 0 <= i < |tail| && tail[i] == [] {
        var i :| 0 <= i < |tail| && tail[i] == [];
        assert batches[i + 1] == [];
      }
    }
  }

  /** Every `process_item` call of the loop uses the resolved backend. */
  lemma DrainUsesBackend(backend: string, batches: seq<Batch>)
    ensures forall c :: c in Drain(backend, batches).trace ==> c.backend == backend
  {
  }

  // ---------------------------------------------------------- run properties

  /** Dry run: no item is processed, the notice is given and `main` returns `True`. */
  lemma DryRunProcessesNothing(d: Defaults, cfg: Option<Config>, raw: RawArgs, fetchAllYields: seq<Batch>)
    requires cfg.Some? && cfg.value.dryRun
    ensures var r := RunSpec(d, cfg, raw, fetchAllYields);
      r.trace == [] && r.outcome == ReturnedTrue && r.dryRunNotice
  {
  }

  /**
   * `fetch_all` is called exactly when there are no precalculated sources,
   * with the resolved query, database and batch size; this happens before
   * the dry-run test, so a dry run without precalculated sources calls it too.
   */
  lemma FetchCalledUnlessPrecalculated(d: Defaults, cfg: Option<Config>, raw: RawArgs, fetchAllYields: seq<Batch>)
    ensures var args := ParseAppArgs(d, cfg, Some(raw));
      RunSpec(d, cfg, raw, fetchAllYields).fetchCall ==
        if cfg.Some? && TruthySources(cfg.value.accessionNumbers) then None
        else Some(FetchCall(args.query, args.database, args.batchSize))
  {
  }

  /**
   * A run over `fetch_all`'s batches processes, with the resolved backend,
   * the items of each batch before the first empty one in batch-then-item
   * order, and returns `True` exactly when some batch is empty.
   */
  lemma FetchedRunTrace(d: Defaults, cfg: Option<Config>, raw: RawArgs, fetchAllYields: seq<Batch>)
    requires !(cfg.Some? && TruthySources(cfg.value.accessionNumbers))
    requires !(cfg.Some? && cfg.value.dryRun)
    ensures var r := RunSpec(d, cfg, raw, fetchAllYields);
      var backend := ParseAppArgs(d, cfg, Some(raw)).backend;
      && r.trace == ItemCalls(backend, Flatten(fetchAllYields[..FirstEmpty(fetchAllYields)]))
      && (r.outcome == ReturnedTrue <==> exists i :: 0 <= i < |fetchAllYields| && fetchAllYields[i] == [])
  {
    var backend := ParseAppArgs(d, cfg, Some(raw)).backend;
    DrainTrace(backend, fetchAllYields);
    DrainOutcome(backend, fetchAllYields);
  }

  /**
   * A run over precalculated sources never calls `fetch_all`, processes each
   * source once in mapping order, and then raises: the single-entry batches
   * are never empty, so the loop only stops on the exhausted producer.
   */
  lemma PrecalculatedRunRaises(d: Defaults, cfg: Option<Config>, raw: RawArgs, fetchAllYields: seq<Batch>)
    requires cfg.Some? && TruthySources(cfg.value.accessionNumbers)
    requires !cfg.value.dryRun
    ensures var r := RunSpec(d, cfg, raw, fetchAllYields);
      && r.fetchCall == None
      && r.trace == ItemCalls(ParseAppArgs(d, cfg, Some(raw)).backend, cfg.value.accessionNumbers.value)
      && r.outcome == RaisedOnExhaustedProducer
  {
    var args := ParseAppArgs(d, cfg, Some(raw));
    var sources := cfg.value.accessionNumbers.value;
    var bs := SingleEntryBatches(sources);
    FlattenSingleEntryBatches(sources);
    DrainTrace(args.backend, bs);
    DrainOutcome(args.backend, bs);
    assert bs[..|bs|] == bs;
  }

  /** One precalculated source: exactly one `process_item` call, with its address and file name. */
  lemma SinglePrecalculatedSourceExample(d: Defaults, q: Option<QuerySpec>, batch: Option<int>,
                                         backend: Option<string>, raw: RawArgs,
                                         addr: string, fname: string, fetchAllYields: seq<Batch>)
    ensures var cfg := Some(Config(q, batch, backend, Some([("k1", SourceItem(addr, fname))]), false));
      var r := RunSpec(d, cfg, raw, fetchAllYields);
      && r.fetchCall == None
      && r.trace == [ProcessCall(ParseAppArgs(d, cfg, Some(raw)).backend, addr, fname)]
  {
    var cfg := Some(Config(q, batch, backend, Some([("k1", SourceItem(addr, fname))]), false));
    PrecalculatedRunRaises(d, cfg, raw, fetchAllYields);
  }

  /** Two non-empty batches and then an empty one: both batches' items, in order, then `True`. */
  lemma TwoBatchesThenEmptyExample(d: Defaults, cfg: Option<Config>, raw: RawArgs, b1: Batch, b2: Batch)
    requires !(cfg.Some? && TruthySources(cfg.value.accessionNumbers))
    requires !(cfg.Some? && cfg.value.dryRun)
    requires b1 != [] && b2 != []
    ensures var r := RunSpec(d, cfg, raw, [b1, b2, []]);
      var backend := ParseAppArgs(d, cfg, Some(raw)).backend;
      r.trace == ItemCalls(backend, b1) + ItemCalls(backend, b2) && r.outcome == ReturnedTrue
  {
    var backend := ParseAppArgs(d, cfg, Some(raw)).backend;
    var bs: seq<Batch> := [b1, b2, []];
    assert bs[1..] == [b2, []];
    assert bs[1..][1..] == [[]];
    assert Drain(backend, [[]]).trace == [];
    assert Drain(backend, bs[1..]).trace == ItemCalls(backend, b2);
  }

  // ----------------------------------------------------------- corrected loop

  /**
   * The batch loop as evidently intended: an exhausted producer ends it like
   * an empty batch does, instead of raising.
   */
  function DrainCorrected(backend: string, batches: seq<Batch>): (r: Drained)
    ensures r.outcome == ReturnedTrue
    ensures r.trace == ItemCalls(backend, Flatten(batches[..FirstEmpty(batches)]))
    decreases |batches|
  {
    if batches == [] then Drained([], ReturnedTrue)
    else if batches[0] == [] then Drained([], ReturnedTrue)
    else
      var rest := DrainCorrected(backend, batches[1..]);
      var k := FirstEmpty(batches);
      assert batches[..k] == [batches[0]] + batches[1..][..k - 1];
      assert ([batches[0]] + batches[1..][..k - 1])[1..] == batches[1..][..k - 1];
      ItemCallsAppend(backend, batches[0], Flatten(batches[1..][..k - 1]));
      Drained(ItemCalls(backend, batches[0]) + rest.trace, rest.outcome)
  }

  /** The corrected loop processes exactly what the loop as written does. */
  lemma DrainCorrectedAgrees(backend: string, batches: seq<Batch>)
    ensures DrainCorrected(backend, batches).trace == Drain(backend, batches).trace
    ensures Drain(backend, batches).outcome == RaisedOnExhaustedProducer <==>
      forall i :: 0 <= i < |batches| ==> batches[i] != []
  {
  }

  /** With the corrected loop, a precalculated run processes every source once and returns `True`. */
  lemma PrecalculatedCorrectedCompletes(backend: string, sources: Sources)
    ensures DrainCorrected(backend, SingleEntryBatches(sources)) == Drained(ItemCalls(backend, sources), ReturnedTrue)
  {
    var bs := SingleEntryBatches(sources);
    FlattenSingleEntryBatches(sources);
    assert bs[..|bs|] == bs;
  }

  // ------------------------------------------------------------------- driver

  /** The inner loop: `process_item` once per value of the batch, in order. */
  method ProcessBatch(backend: string, items: Batch, trace: seq<ProcessCall>) returns (trace': seq<ProcessCall>)
    ensures trace' == trace + ItemCalls(backend, items)
  {
    trace' := trace;
    for j := 0 to |items|
      invariant trace' == trace + ItemCalls(backend, items[..j])
    {
      assert items[..j + 1][..j] == items[..j];
      trace' := trace' + [ProcessCall(backend, items[j].1.addr, items[j].1.fname)];
    }
    assert items[..|items|] == items;
  }

  /** One turn of the batch loop on a non-empty remainder, as `Drain` sees it. */
  lemma DrainStep(backend: string, remaining: seq<Batch>, before: seq<ProcessCall>, after: seq<ProcessCall>)
    requires remaining != []
    requires after == before + ItemCalls(backend, remaining[0])
    ensures remaining[0] != [] ==>
      after + Drain(backend, remaining[1..]).trace == before + Drain(backend, remaining).trace
      && Drain(backend, remaining[1..]).outcome == Drain(backend, remaining).outcome
    ensures remaining[0] == [] ==>
      after == before + Drain(backend, remaining).trace && Drain(backend, remaining).outcome == ReturnedTrue
  {
  }

  /** The outer loop `while batch:` over a fresh producer of `source`. */
  method DrainLoop(backend: string, source: seq<Batch>) returns (trace: seq<ProcessCall>, outcome: Outcome)
    ensures Drained(trace, outcome) == Drain(backend, source)
  {
    var fetcher := new BatchProducer(source);
    trace := [];
    outcome := ReturnedTrue;
    var batchTruthy := true;  // `batch = 'not started'`
    while batchTruthy
      invariant fetcher.Valid() && fetcher.batches == source
      invariant batchTruthy ==>
        trace + Drain(backend, fetcher.Remaining()).trace == Drain(backend, source).trace
        && Drain(backend, fetcher.Remaining()).outcome == Drain(backend, source).outcome
      invariant !batchTruthy ==>
        trace == Drain(backend, source).trace && Drain(backend, source).outcome == ReturnedTrue
        && outcome == ReturnedTrue
      decreases |fetcher.Remaining()|
    {
      ghost var remaining := fetcher.Remaining();
      var batch := fetcher.Next();
      if batch.None? {
        // `batch.values()` on `None`
        outcome := RaisedOnExhaustedProducer;
        break;
      }
      ghost var before := trace;
      trace := ProcessBatch(backend, batch.value, trace);
      batchTruthy := batch.value != [];
      DrainStep(backend, remaining, before, trace);
    }
  }

  /** `main(cfg, **raw)`, with `fetch_all`'s generator yielding `fetchAllYields`. */
  method Run(d: Defaults, cfg: Option<Config>, raw: RawArgs, fetchAllYields: seq<Batch>) returns (r: RunRecord)
    ensures r == RunSpec(d, cfg, raw, fetchAllYields)
  {
    var args := ParseAppArgs(d, cfg, Some(raw));
    var backend := args.backend;
    var dryRun := args.dryRun;

    var fetchCall: Option<FetchCall>;
    var source: seq<Batch>;
    if TruthySources(args.precalculatedSources) {
      fetchCall := None;
      source := SingleEntryBatches(args.precalculatedSources.value);
    } else {
      fetchCall := Some(FetchCall(args.query, args.database, args.batchSize));
      source := fetchAllYields;
    }

    var trace: seq<ProcessCall> := [];
    var outcome := ReturnedTrue;
    if !dryRun {
      trace, outcome := DrainLoop(backend, source);
    }
    r := RunRecord(fetchCall, dryRun, trace, outcome);
  }
}
