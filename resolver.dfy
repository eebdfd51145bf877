/**
 * The argument resolver of `parse_app_args`: raw UI arguments, an optional
 * configuration object and the built-in constants are merged, field by field,
 * into one canonical argument record. Every precedence chain in the source is a
 * Python `or` chain, so Python truthiness is written out explicitly: `None`,
 * `""`, `0` and an empty mapping are falsy; a present configuration object (and
 * a present `cfg.query`) is truthy.
 */
module ArgumentResolver {
  import opened Wrappers

  /** Separator of query pieces. */
  const AND: string := "+AND+"
  const ORGANISM_TAG: string := "[Organism]"
  const ENTRYTYPE_TAG: string := "[EntryType]"
  const FILEFORMAT_TAG: string := "[Supplementary Files]"
  const DEFAULT_FILE_FORMAT: string := "csv"

  /** The values of the `constants` module that the resolver reads. */
  datatype Defaults = Defaults(
    dbValue: string,                 // DEFAULT_DB_VALUE
    searchIncrement: Option<int>,    // DEFAULT_SEARCH_INCREMENT
    backendLocal: string)            // BACKEND_LOCAL

  /** One fetchable record: its address and its file name. */
  datatype SourceItem = SourceItem(addr: string, fname: string)

  /** A mapping from key to source item, as its entries in iteration order. */
  type Sources = seq<(string, SourceItem)>

  /** `cfg.query`: the nested query specification. */
  datatype QuerySpec = QuerySpec(
    text: Option<string>,
    organism: Option<string>,
    entrytype: Option<string>,
    fileformat: Option<string>)

  /** The configuration object; the resolver only reads it. */
  datatype Config = Config(
    query: Option<QuerySpec>,
    batchSize: Option<int>,
    backend: Option<string>,
    accessionNumbers: Option<Sources>,
    dryRun: bool)

  /**
   * The raw keyword arguments: one field per `MAINARG_*` key the resolver reads,
   * plus the precalculated-sources and dry-run keys, which the entry point
   * accepts but the resolver never reads. An absent key and a key bound to
   * `None` are both `None`. Any other key, such as `MAINARG_BATCH_SIZE` (the
   * key the result's batch size is stored under), is never read either.
   */
  datatype RawArgs = RawArgs(
    query: Option<seq<string>>,       // MAINARG_QUERY: free-text fragments
    organism: Option<string>,         // MAINARG_ORGANISM
    increment: Option<int>,           // MAINARG_INCREMENT
    database: Option<string>,         // MAINARG_DATABASE
    backend: Option<string>,          // MAINARG_PROCESSING_BACKEND
    precalculatedSources: Option<Sources>,  // MAINARG_PRECALCULATED_SOURCES
    dryRun: Option<bool>)             // MAINARG_DRY_RUN

  const NoArgs: RawArgs := RawArgs(None, None, None, None, None, None, None)

  /** The resolved record `parse_app_args` returns. */
  datatype CanonicalArgs = CanonicalArgs(
    database: string,
    query: string,
    batchSize: Option<int>,
    backend: string,
    precalculatedSources: Option<Sources>,
    dryRun: bool)

  // ---------------------------------------------------------------- truthiness

  predicate Truthy(s: Option<string>) { s.Some? && s.value != "" }

  predicate TruthyInt(n: Option<int>) { n.Some? && n.value != 0 }

  predicate TruthySources(m: Option<Sources>) { m.Some? && m.value != [] }

  /** Python `a or b` on optional strings. */
  function Or(a: Option<string>, b: Option<string>): Option<string> {
    if Truthy(a) then a else b
  }

  /** Python `a or b` where `b` is a plain string. */
  function OrElse(a: Option<string>, b: string): string {
    if Truthy(a) then a.value else b
  }

  /** Python `a or b` on optional integers. */
  function OrInt(a: Option<int>, b: Option<int>): Option<int> {
    if TruthyInt(a) then a else b
  }

  // ------------------------------------------------------------ string pieces

  /** `'+AND+'.join(xs)`. */
  function JoinAnd(xs: seq<string>): (r: string)
    ensures r == "" <==> xs == [] || xs == [""]
  {
    if |xs| == 0 then ""
    else if |xs| == 1 then xs[0]
    else xs[0] + AND + JoinAnd(xs[1..])
  }

  /** `filter(None, pieces)`: the truthy pieces, in order. */
  function Present(pieces: seq<Option<string>>): (r: seq<string>)
    ensures forall s :: s in r ==> s != "" && Some(s) in pieces
    ensures |r| <= |pieces|
  {
    if pieces == [] then []
    else (if Truthy(pieces[0]) then [pieces[0].value] else []) + Present(pieces[1..])
  }

  /** `'{x}<tag>'.format(x=x) if x else None`. */
  function Tagged(x: Option<string>, tag: string): Option<string> {
    if Truthy(x) then Some(x.value + tag) else None
  }

  /** `cfg.query if cfg and cfg.query else None`. */
  function CfgQuery(cfg: Option<Config>): Option<QuerySpec> {
    if cfg.Some? && cfg.value.query.Some? then cfg.value.query else None
  }

  /** `app_args or dict()`. */
  function ArgsOrEmpty(appArgs: Option<RawArgs>): RawArgs {
    if appArgs.Some? then appArgs.value else NoArgs
  }

  /** The raw fragments, `_app_args.get(MAINARG_QUERY) or []`. */
  function Fragments(raw: RawArgs): seq<string> {
    if raw.query.Some? then raw.query.value else []
  }

  // ------------------------------------------------------------- the fields

  /**
   * The free-text term: the raw fragments joined with `+AND+` unless that join
   * is empty (no fragments, or the single fragment ""), in which case the
   * configuration's query text verbatim, or `None` without a configured query.
   */
  function FreeTextTerm(cfg: Option<Config>, raw: RawArgs): (r: Option<string>)
    ensures var fs := Fragments(raw);
      fs != [] && fs != [""] ==> r == Some(JoinAnd(fs))
    ensures var fs := Fragments(raw);
      fs == [] || fs == [""] ==>
        r == (if CfgQuery(cfg).Some? then CfgQuery(cfg).value.text else None)
    ensures CfgQuery(cfg).None? && Truthy(r) ==> r == Some(JoinAnd(Fragments(raw)))
  {
    var joined := JoinAnd(Fragments(raw));
    if joined != "" then Some(joined)
    else if CfgQuery(cfg).Some? then CfgQuery(cfg).value.text
    else None
  }

  /** The organism value: the raw argument if non-empty, else the configuration's. */
  function Species(cfg: Option<Config>, raw: RawArgs): Option<string> {
    Or(raw.organism, if CfgQuery(cfg).Some? then CfgQuery(cfg).value.organism else None)
  }

  /** `"{species}[Organism]"`, or absent when there is no non-empty organism. */
  function OrganismPiece(cfg: Option<Config>, raw: RawArgs): (r: Option<string>)
    ensures Truthy(raw.organism) ==> r == Some(raw.organism.value + ORGANISM_TAG)
    ensures !Truthy(raw.organism) && CfgQuery(cfg).Some? && Truthy(CfgQuery(cfg).value.organism)
      ==> r == Some(CfgQuery(cfg).value.organism.value + ORGANISM_TAG)
    ensures r.None? <==>
      !Truthy(raw.organism) && (CfgQuery(cfg).None? || !Truthy(CfgQuery(cfg).value.organism))
  {
    Tagged(Species(cfg, raw), ORGANISM_TAG)
  }

  /** `"{entrytype}[EntryType]"` from the configuration only; there is no raw path. */
  function EntryTypePiece(cfg: Option<Config>): (r: Option<string>)
    ensures r.Some? <==> CfgQuery(cfg).Some? && Truthy(CfgQuery(cfg).value.entrytype)
    ensures r.Some? ==> r.value == CfgQuery(cfg).value.entrytype.value + ENTRYTYPE_TAG
  {
    // `None or (cfg.query.entrytype ...)`: the leading `None` is the missing CLI argument
    Tagged(Or(None, if CfgQuery(cfg).Some? then CfgQuery(cfg).value.entrytype else None),
           ENTRYTYPE_TAG)
  }

  /** The file format: the configuration's if non-empty, else "csv"; never empty. */
  function FileFormat(cfg: Option<Config>): (r: string)
    ensures r != ""
    ensures CfgQuery(cfg).Some? && Truthy(CfgQuery(cfg).value.fileformat)
      ==> r == CfgQuery(cfg).value.fileformat.value
    ensures CfgQuery(cfg).None? || !Truthy(CfgQuery(cfg).value.fileformat)
      ==> r == DEFAULT_FILE_FORMAT
  {
    OrElse(Or(None, if CfgQuery(cfg).Some? then CfgQuery(cfg).value.fileformat else None),
           DEFAULT_FILE_FORMAT)
  }

  /** The file-format piece; its `else None` branch can never be taken. */
  function FileFormatPiece(cfg: Option<Config>): (r: Option<string>)
    ensures r == Some(FileFormat(cfg) + FILEFORMAT_TAG)
  {
    Tagged(Some(FileFormat(cfg)), FILEFORMAT_TAG)
  }

  /** The four query pieces in their fixed order. */
  function RawTerms(cfg: Option<Config>, raw: RawArgs): seq<Option<string>> {
    [FreeTextTerm(cfg, raw), OrganismPiece(cfg, raw), EntryTypePiece(cfg), FileFormatPiece(cfg)]
  }

  /** `'+AND+'.join(filter(None, raw_terms))`. */
  function ComposeQuery(cfg: Option<Config>, raw: RawArgs): string {
    JoinAnd(Present(RawTerms(cfg, raw)))
  }

  /**
   * The batch size: the raw increment if non-zero, else the configured batch
   * size if non-zero, else the default; then raised to at least 1. It is
   * absent only when every source is falsy and the default itself is `None`.
   */
  function ResolveBatchSize(d: Defaults, cfg: Option<Config>, raw: RawArgs): (r: Option<int>)
    ensures r.Some? ==> r.value >= 1
    ensures r.None? <==>
      !TruthyInt(raw.increment) && (cfg.None? || !TruthyInt(cfg.value.batchSize))
      && d.searchIncrement.None?
    ensures TruthyInt(raw.increment) ==> r == Some(if raw.increment.value < 1 then 1 else raw.increment.value)
    ensures !TruthyInt(raw.increment) && cfg.Some? && TruthyInt(cfg.value.batchSize) ==>
      r == Some(if cfg.value.batchSize.value < 1 then 1 else cfg.value.batchSize.value)
    ensures !TruthyInt(raw.increment) && (cfg.None? || !TruthyInt(cfg.value.batchSize)) && d.searchIncrement.Some?
      ==> r == Some(if d.searchIncrement.value < 1 then 1 else d.searchIncrement.value)
  {
    var increment := OrInt(OrInt(raw.increment, if cfg.Some? then cfg.value.batchSize else None),
                           d.searchIncrement);
    if increment.None? then d.searchIncrement
    else Some(if increment.value < 1 then 1 else increment.value)
  }

  /** The processing backend: raw, else configured, else BACKEND_LOCAL. */
  function ResolveBackend(d: Defaults, cfg: Option<Config>, raw: RawArgs): (r: string)
    ensures Truthy(raw.backend) ==> r == raw.backend.value
    ensures !Truthy(raw.backend) && cfg.Some? && Truthy(cfg.value.backend) ==> r == cfg.value.backend.value
    ensures !Truthy(raw.backend) && (cfg.None? || !Truthy(cfg.value.backend)) ==> r == d.backendLocal
  {
    OrElse(Or(raw.backend, if cfg.Some? then cfg.value.backend else None), d.backendLocal)
  }

  /** `parse_app_args(cfg, app_args)`. */
  function ParseAppArgs(d: Defaults, cfg: Option<Config>, appArgs: Option<RawArgs>): (r: CanonicalArgs)
    ensures r.database ==
      (if Truthy(ArgsOrEmpty(appArgs).database) then ArgsOrEmpty(appArgs).database.value else d.dbValue)
    ensures r.query != ""
    ensures d.searchIncrement.Some? ==> r.batchSize.Some? && r.batchSize.value >= 1
    ensures r.precalculatedSources.Some? <==> cfg.Some? && TruthySources(cfg.value.accessionNumbers)
    ensures r.precalculatedSources.Some? ==>
      r.precalculatedSources == cfg.value.accessionNumbers && r.precalculatedSources.value != []
    ensures r.dryRun <==> cfg.Some? && cfg.value.dryRun
  {
    var raw := ArgsOrEmpty(appArgs);
    ComposeQueryShape(cfg, raw);
    CanonicalArgs(
      database := OrElse(raw.database, d.dbValue),
      query := ComposeQuery(cfg, raw),
      batchSize := ResolveBatchSize(d, cfg, raw),
      backend := ResolveBackend(d, cfg, raw),
      precalculatedSources :=
        if cfg.Some? && TruthySources(cfg.value.accessionNumbers) then cfg.value.accessionNumbers else None,
      dryRun := cfg.Some? && cfg.value.dryRun)
  }

  // ------------------------------------------------------- query composition

  /** `p + "+AND+"` for a truthy piece, nothing for a falsy one. */
  function Segment(p: Option<string>): string {
    if Truthy(p) then p.value + AND else ""
  }

  /** The segments of a list of pieces, concatenated. */
  function Segments(ps: seq<Option<string>>): string {
    if ps == [] then "" else Segment(ps[0]) + Segments(ps[1..])
  }

  /**
   * Filtering then joining with a non-empty last piece: every truthy piece
   * before it contributes itself followed by one separator, every falsy piece
   * contributes nothing.
   */
  lemma {:induction false} JoinPresentEndingWith(ps: seq<Option<string>>, last: string)
    requires last != ""
    ensures JoinAnd(Present(ps + [Some(last)])) == Segments(ps) + last
    decreases |ps|
  {
    if ps == [] {
      assert Present([Some(last)]) == [last] by {
        assert [Some(last)][1..] == [];
      }
    } else {
      var tail := ps[1..];
      assert (ps + [Some(last)])[1..] == tail + [Some(last)];
      var rest := Present(tail + [Some(last)]);
      PresentKeepsTruthyLast(tail, last);
      JoinPresentEndingWith(tail, last);
      if Truthy(ps[0]) {
        assert Present(ps + [Some(last)]) == [ps[0].value] + rest;
        assert ([ps[0].value] + rest)[1..] == rest;
      } else {
        assert Present(ps + [Some(last)]) == rest;
      }
    }
  }

  /** A truthy last piece survives the filter. */
  lemma {:induction false} PresentKeepsTruthyLast(ps: seq<Option<string>>, last: string)
    requires last != ""
    ensures |Present(ps + [Some(last)])| >= 1
    decreases |ps|
  {
    if ps == [] {
      assert Present([Some(last)]) == [last] by {
        assert [Some(last)][1..] == [];
      }
    } else {
      assert (ps + [Some(last)])[1..] == ps[1..] + [Some(last)];
      PresentKeepsTruthyLast(ps[1..], last);
    }
  }

  /** The segments of three pieces, one after the other. */
  lemma SegmentsThree(a: Option<string>, b: Option<string>, c: Option<string>)
    ensures Segments([a, b, c]) == Segment(a) + Segment(b) + Segment(c)
  {
    assert [a, b, c][1..] == [b, c];
    assert [b, c][1..] == [c];
    assert [c][1..] == [];
    assert Segments([c]) == Segment(c);
  }

  /** Three leading pieces and a non-empty last one, filtered and joined. */
  lemma JoinPresentFour(a: Option<string>, b: Option<string>, c: Option<string>, last: string)
    requires last != ""
    ensures JoinAnd(Present([a, b, c, Some(last)])) == Segment(a) + Segment(b) + Segment(c) + last
  {
    assert [a, b, c, Some(last)] == [a, b, c] + [Some(last)];
    JoinPresentEndingWith([a, b, c], last);
    SegmentsThree(a, b, c);
  }

  /** `ComposeQuery` written without join or filter. */
  lemma ComposeQueryShape(cfg: Option<Config>, raw: RawArgs)
    ensures ComposeQuery(cfg, raw) ==
      Segment(FreeTextTerm(cfg, raw)) + Segment(OrganismPiece(cfg, raw))
      + Segment(EntryTypePiece(cfg)) + FileFormat(cfg) + FILEFORMAT_TAG
  {
    var last := FileFormat(cfg) + FILEFORMAT_TAG;
    JoinPresentFour(FreeTextTerm(cfg, raw), OrganismPiece(cfg, raw), EntryTypePiece(cfg), last);
  }

  /**
   * The resolved query, written without join or filter: free text, organism
   * and entry type each appear followed by `+AND+` when truthy and not at all
   * otherwise, in that order, and the file-format piece always ends it.
   */
  lemma QueryShape(d: Defaults, cfg: Option<Config>, appArgs: Option<RawArgs>)
    ensures var raw := ArgsOrEmpty(appArgs);
      ParseAppArgs(d, cfg, appArgs).query ==
        Segment(FreeTextTerm(cfg, raw)) + Segment(OrganismPiece(cfg, raw))
        + Segment(EntryTypePiece(cfg)) + FileFormat(cfg) + FILEFORMAT_TAG
  {
    ComposeQueryShape(cfg, ArgsOrEmpty(appArgs));
  }

  /** The resolved query always ends with `"{fileformat}[Supplementary Files]"`. */
  lemma QueryEndsWithFileFormat(d: Defaults, cfg: Option<Config>, appArgs: Option<RawArgs>)
    ensures var q := ParseAppArgs(d, cfg, appArgs).query;
      var tail := FileFormat(cfg) + FILEFORMAT_TAG;
      |q| >= |tail| && q[|q| - |tail|..] == tail
  {
    var raw := ArgsOrEmpty(appArgs);
    var tail := FileFormat(cfg) + FILEFORMAT_TAG;
    var head := Segment(FreeTextTerm(cfg, raw)) + Segment(OrganismPiece(cfg, raw)) + Segment(EntryTypePiece(cfg));
    ComposeQueryShape(cfg, raw);
    assert ParseAppArgs(d, cfg, appArgs).query == ComposeQuery(cfg, raw) == head + tail;
    assert (head + tail)[|head|..] == tail;
  }

  /**
   * With a free-text term, the organism "human", no entry type and the default
   * file format, the query is the term, the organism piece and the csv piece,
   * with no empty segment for the entry type.
   */
  lemma OrganismWithoutEntryTypeExample(d: Defaults, cfg: Option<Config>, raw: RawArgs)
    requires CfgQuery(cfg).Some?
    requires CfgQuery(cfg).value.organism == Some("human")
    requires CfgQuery(cfg).value.entrytype == None && CfgQuery(cfg).value.fileformat == None
    requires raw.organism == None
    requires Truthy(FreeTextTerm(cfg, raw))
    ensures ParseAppArgs(d, cfg, Some(raw)).query ==
      FreeTextTerm(cfg, raw).value + AND + "human" + ORGANISM_TAG + AND + DEFAULT_FILE_FORMAT + FILEFORMAT_TAG
  {
    var t := FreeTextTerm(cfg, raw).value;
    var org := "human" + ORGANISM_TAG;
    ComposeQueryShape(cfg, raw);
    assert Segment(FreeTextTerm(cfg, raw)) == t + AND;
    assert Segment(OrganismPiece(cfg, raw)) == org + AND;
    assert Segment(EntryTypePiece(cfg)) == "";
    assert FileFormat(cfg) == DEFAULT_FILE_FORMAT;
    assert ParseAppArgs(d, cfg, Some(raw)).query == ComposeQuery(cfg, raw)
      == (t + AND) + (org + AND) + "" + DEFAULT_FILE_FORMAT + FILEFORMAT_TAG;
  }

  // ---------------------------------------------------------------- precedence

  /** Raw fragments win over the configured text, and are joined. */
  lemma FreeTextExample(q: QuerySpec, raw: RawArgs, batch: Option<int>,
                        backend: Option<string>, sources: Option<Sources>, dry: bool)
    requires q.text == Some("baz")
    ensures var cfg := Some(Config(Some(q), batch, backend, sources, dry));
      && FreeTextTerm(cfg, raw.(query := Some(["foo", "bar"]))) == Some("foo+AND+bar")
      && FreeTextTerm(cfg, raw.(query := None)) == Some("baz")
  {
    var fs := ["foo", "bar"];
    assert fs[1..] == ["bar"];
    assert JoinAnd(fs) == "foo" + AND + "bar";
    assert "foo" + AND + "bar" == "foo+AND+bar";
  }

  /**
   * The entry-type piece, the precalculated sources and the dry-run flag do
   * not depend on the raw arguments at all; the raw precalculated-sources and
   * dry-run keys are never read, so two argument sets that differ only there
   * resolve identically.
   */
  lemma RawArgsIgnoredFields(d: Defaults, cfg: Option<Config>, a1: RawArgs, a2: RawArgs)
    requires a1.(precalculatedSources := None, dryRun := None) == a2.(precalculatedSources := None, dryRun := None)
    ensures ParseAppArgs(d, cfg, Some(a1)) == ParseAppArgs(d, cfg, Some(a2))
    ensures ParseAppArgs(d, cfg, Some(a1)).precalculatedSources == ParseAppArgs(d, cfg, None).precalculatedSources
    ensures ParseAppArgs(d, cfg, Some(a1)).dryRun == ParseAppArgs(d, cfg, None).dryRun
  {
  }

  /** A raw increment of 0 is falsy: it resolves exactly as if it were absent. */
  lemma RawZeroIncrementFallsThrough(d: Defaults, cfg: Option<Config>, raw: RawArgs)
    requires raw.increment == Some(0)
    ensures ResolveBatchSize(d, cfg, raw) == ResolveBatchSize(d, cfg, raw.(increment := None))
    ensures cfg.None? && d.searchIncrement.Some? && d.searchIncrement.value >= 1 ==>
      ResolveBatchSize(d, cfg, raw) == d.searchIncrement
  {
  }
}
