# geo-trawler main loop, modelled in Dafny

This project models the core of geo-trawler's `app/core/mainloop.py`. The file has two parts:

- **`parse_app_args`**, the argument resolver. It merges raw UI keyword arguments, an optional configuration object and the constants of the `constants` module into one canonical record: database, composite search query, batch size, processing backend, precalculated sources and dry-run flag.
- **`main`**, the pipeline driver. It picks a batch source: one single-entry batch per precalculated source, or the batches of `fetch_all`. Unless in dry run, it pulls batches one at a time and calls `process_item` once for every item, in order.

Files:

- `wrappers.dfy`: the `Option` datatype.
- `resolver.dfy` (module `ArgumentResolver`): `parse_app_args` written as pure functions.
  - Python truthiness is explicit. `None`, `""`, `0` and an empty mapping are falsy. A present configuration object, and a present `cfg.query`, are truthy.
  - Every `or` chain is written out as `Or`, `OrElse` or `OrInt`.
  - The constants are a `Defaults` record passed in: `DEFAULT_DB_VALUE`, `DEFAULT_SEARCH_INCREMENT` (an `Option<int>`, because the source tests `increment is None`) and `BACKEND_LOCAL`.
- `driver.dfy` (module `PipelineDriver`): `main` written as imperative code.
  - `BatchProducer` is a single-pass producer with an index; `Next` models `next(fetcher, None)`.
  - `Run` is `main`. It calls `DrainLoop` (the `while batch:` loop), which calls `ProcessBatch` (the inner `for` loop).
  - Each method is proved equal to a specification function (`RunSpec`, `Drain`, `ItemCalls`). Lemmas state what the source promises about those functions.

`Run` returns a `RunRecord`, which holds:

- the recorded `fetch_all` call, if there was one, with its `(term, db, batch_size)`;
- whether the dry-run notice was printed;
- the trace of `process_item(backend, addr, fname)` calls;
- the outcome: `main` returned `True`, or it raised because `batch.values()` ran on the `None` that an exhausted producer gives.

`parse_app_args` is a Dafny function. It is therefore deterministic and cannot modify its inputs, so identical inputs give identical results by construction.

Four behaviours of the code are easy to miss. The model follows the code in each of them:

- `fetch_all` is called at line 120, before the dry-run test at line 122. A dry run without precalculated sources therefore still calls `fetch_all`. Only the batch loop is skipped. See `FetchCalledUnlessPrecalculated`.
- A raw batch size of `0` is falsy. It falls through to the configured batch size, then to the default; it is not clamped to 1. See `RawZeroIncrementFallsThrough`. A negative raw value is truthy and is clamped to 1.
- The loop does not stop when the producer is exhausted. It evaluates `None.values()` and raises. Every non-dry-run precalculated run therefore ends by raising, after every source has been processed. See `PrecalculatedRunRaises` and the finding below.
- The entry point accepts precalculated sources and a dry-run flag as raw arguments, but the resolver never reads those keys. See `RawArgsIgnoredFields`. The raw batch size is read only under `MAINARG_INCREMENT` (line 74); a raw `MAINARG_BATCH_SIZE` key, which is where the result stores its batch size (line 82), is never read.

## Model

| member | source | states |
|---|---|---|
| `ArgumentResolver.JoinAnd` | app/core/mainloop.py:16-20 | the `+AND+` join of the raw fragments is empty exactly when there are no fragments or a single empty one |
| `ArgumentResolver.FreeTextTerm` | app/core/mainloop.py:16-27 | the free-text term is the `+AND+` join of the raw fragments when that join is non-empty; otherwise it is `cfg.query.text` verbatim; it is `None` when cfg or cfg.query is missing |
| `ArgumentResolver.FreeTextExample` | app/core/mainloop.py:16-27 | raw fragments `["foo","bar"]` give `foo+AND+bar` over configured text `baz`; without raw fragments the term is `baz` |
| `ArgumentResolver.OrganismPiece` | app/core/mainloop.py:30-38 | a non-empty raw organism wins over `cfg.query.organism`; the piece is rendered `{x}[Organism]`; it is absent exactly when neither is non-empty |
| `ArgumentResolver.EntryTypePiece` | app/core/mainloop.py:41-49 | the entry-type piece depends on the configuration only; it is present exactly when `cfg.query.entrytype` is non-empty, as `{x}[EntryType]` |
| `ArgumentResolver.FileFormat` | app/core/mainloop.py:52-60 | the file format is `cfg.query.fileformat` if non-empty, else `csv`, and is never empty |
| `ArgumentResolver.FileFormatPiece` | app/core/mainloop.py:61 | the file-format piece is always present, as `{fileformat}[Supplementary Files]`; its `else None` branch cannot be taken |
| `ArgumentResolver.Present` | app/core/mainloop.py:71 | `filter(None, …)` leaves no empty element, every element it keeps is one of the pieces, and it has no more elements than the pieces |
| `ArgumentResolver.JoinPresentEndingWith` | app/core/mainloop.py:64-71 | filtering then joining pieces that end with a non-empty one puts each truthy piece followed by one `+AND+`, and makes falsy pieces vanish, with no empty segments |
| `ArgumentResolver.ComposeQueryShape` | app/core/mainloop.py:64-71 | the composed query is free text, organism and entry type, each followed by `+AND+` when present and omitted otherwise, in that order, then the file-format piece |
| `ArgumentResolver.QueryShape` | app/core/mainloop.py:16-81 | the resolved record's query has that same fixed-order shape |
| `ArgumentResolver.QueryEndsWithFileFormat` | app/core/mainloop.py:52-71 | the resolved query always ends with `{fileformat}[Supplementary Files]` |
| `ArgumentResolver.OrganismWithoutEntryTypeExample` | app/core/mainloop.py:30-71 | organism `human`, no entry type and the default format give `<term>+AND+human[Organism]+AND+csv[Supplementary Files]` |
| `ArgumentResolver.ResolveBatchSize` | app/core/mainloop.py:73-78 | the batch size is at least 1 whenever present; it is absent exactly when raw, configured and default values are all falsy and the default is `None`; a truthy raw value wins, else a truthy `cfg.batch_size`, else the default, each clamped to at least 1 |
| `ArgumentResolver.RawZeroIncrementFallsThrough` | app/core/mainloop.py:73-78 | a raw increment of 0 resolves as if absent; with no configuration it is the default, not 1 |
| `ArgumentResolver.ResolveBackend` | app/core/mainloop.py:83-87 | the backend is the raw value if non-empty, else `cfg.backend` if non-empty, else `BACKEND_LOCAL` |
| `ArgumentResolver.ParseAppArgs` | app/core/mainloop.py:13-91 | the database is raw or `DEFAULT_DB_VALUE`; the query is never empty; the batch size is at least 1 when the default increment is set; the precalculated sources are cfg's mapping exactly when cfg exists and that mapping is non-empty; dry run holds exactly when cfg's flag does |
| `ArgumentResolver.RawArgsIgnoredFields` | app/core/mainloop.py:13-91 | the raw precalculated-sources and dry-run keys never affect the result; those two fields equal what resolving without raw arguments gives |
| `PipelineDriver.BatchProducer.constructor` | app/core/mainloop.py:109-120 | a fresh producer has every batch of the chosen source still to come |
| `PipelineDriver.BatchProducer.Next` | app/core/mainloop.py:125 | `next(fetcher, None)` yields the first remaining batch and consumes it, or `None` once exhausted |
| `PipelineDriver.ItemCalls` | app/core/mainloop.py:127-132 | one `process_item` call per batch value, in order, each with the backend and the item's address and file name |
| `PipelineDriver.ProcessBatch` | app/core/mainloop.py:127-132 | the inner loop appends exactly the batch's item calls to the trace |
| `PipelineDriver.DrainStep` | app/core/mainloop.py:124-132 | one loop turn on a non-empty batch moves that batch's calls into the trace; on an empty batch the loop ends normally |
| `PipelineDriver.DrainLoop` | app/core/mainloop.py:122-132 | the `while batch:` loop over a fresh producer produces exactly the trace and outcome of `Drain` |
| `PipelineDriver.Run` | app/core/mainloop.py:94-135 | `main` produces exactly the fetch call, dry-run notice, call trace and outcome of `RunSpec` |
| `PipelineDriver.ItemCallsAppend` | app/core/mainloop.py:124-132 | the calls of two item lists in a row are the calls of their concatenation |
| `PipelineDriver.FlattenSingleEntryBatches` | app/core/mainloop.py:113 | the single-entry batches of a mapping, concatenated, give the mapping's entries back in order, and none of them is empty |
| `PipelineDriver.DrainTrace` | app/core/mainloop.py:124-132 | the loop processes the items of every batch before the first empty one, in batch-then-item order |
| `PipelineDriver.DrainOutcome` | app/core/mainloop.py:124-127 | the loop returns normally exactly when some batch is empty, and otherwise raises on the exhausted producer |
| `PipelineDriver.DrainUsesBackend` | app/core/mainloop.py:103-132 | every `process_item` call uses the resolved backend |
| `PipelineDriver.DryRunProcessesNothing` | app/core/mainloop.py:122-135 | in dry run no item is processed, the notice is given, and `main` returns `True` |
| `PipelineDriver.FetchCalledUnlessPrecalculated` | app/core/mainloop.py:107-120 | `fetch_all` is called once, with the resolved query, database and batch size, exactly when there are no precalculated sources, dry run or not |
| `PipelineDriver.FetchedRunTrace` | app/core/mainloop.py:114-132 | a non-dry fetched run processes each batch's values up to the first empty batch, in order, and returns `True` exactly when an empty batch comes |
| `PipelineDriver.PrecalculatedRunRaises` | app/core/mainloop.py:107-127 | a non-dry precalculated run never calls `fetch_all`, processes each source once in mapping order, and then raises on the exhausted producer |
| `PipelineDriver.SinglePrecalculatedSourceExample` | app/core/mainloop.py:107-132 | the sources `{"k1": (addr, fname)}` give exactly one `process_item` call, with `addr` and `fname`, and no `fetch_all` call |
| `PipelineDriver.TwoBatchesThenEmptyExample` | app/core/mainloop.py:124-132 | two non-empty batches followed by an empty one process both batches' items in order, then return `True` |
| `PipelineDriver.DrainCorrected` | app/core/mainloop.py:124-127 | with an exhausted producer treated like an empty batch, the loop always returns `True` after processing every batch before the first empty one |
| `PipelineDriver.DrainCorrectedAgrees` | app/core/mainloop.py:124-127 | the corrected loop processes the same items as the loop as written; the loop as written raises exactly when no batch is empty |
| `PipelineDriver.PrecalculatedCorrectedCompletes` | app/core/mainloop.py:107-127 | with the corrected loop, a precalculated run processes every source once and returns `True` |

## Left out

- The body of `fetch_all` (`core.fetch.fetching`), a network client. A call is recorded with its arguments, and the batches its generator would yield are an input of `Run`. Its errors, and any lazy work its generator does, are not modelled.
- The body of `process_item` (`processing_backends`), a foreign backend. A call is recorded in the trace, and its result `extracted` is dropped. Exceptions it may raise, which would end the run early, are not modelled.
- The values of the `constants` module, which is not part of this model. The `MAINARG_*` keys are distinct fields of `RawArgs`, and the defaults are a `Defaults` parameter.
- `print("Dry Run!")`, which is console output. It is recorded only as the `dryRunNotice` flag.
- Python's dynamic types. The raw query is a list of strings; a bare string would be joined character by character, which is not modelled. Batch values are `(address, file name)` pairs; unpacking errors are not modelled. Configuration fields have the types above. A `cfg` object that defines its own `__bool__` is not modelled.
- Key uniqueness of mappings. A batch and the precalculated sources are lists of entries in iteration order, and the driver reads only their values.
- A producer that yields `None` itself, rather than running out, is not modelled. It would raise the same way an exhausted producer does.
- `ArgumentResolver.Present`: states that no empty element survives, that every kept element is one of the pieces, and that there are no more elements than pieces; it does not state that order is kept. Its exact result, for the query's pieces, is given by `JoinPresentEndingWith` and `ComposeQueryShape`.

## Findings

| source | as written | input that shows it | evidently intended | confidence | as-written member | corrected member |
|---|---|---|---|---|---|---|
| app/core/mainloop.py:124-127 | `batch = next(fetcher, None)` is dereferenced by `batch.values()` before `while batch:` can test it, so an exhausted producer raises `AttributeError` | configuration with `accession_numbers = {"k1": (addr, fname)}` and `dry_run` false: `(addr, fname)` is processed, then the second `next` gives `None` and `main` raises instead of returning `True` | an exhausted producer ends the loop like an empty batch, and `main` returns `True` | high, not executed | `PipelineDriver.PrecalculatedRunRaises` | `PipelineDriver.DrainCorrected` |

`Run` keeps the loop as written, because it models `main` as it is. `DrainCorrected` and `PrecalculatedCorrectedCompletes` state the intended behaviour.
