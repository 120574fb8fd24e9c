/**
 * The slot authorization configuration of `src/perms/config.rs`: three
 * seconds-into-slot values, each clamped to at most 11 (the last second of
 * a 12-second slot) when the configuration is built.
 */
module AuthzConfig {
  import opened Wrappers

  /** Rust's `u8`. */
  type u8 = x: int | 0 <= x < 256

  /** The largest value any of the three settings may hold. */
  const MAX_SLOT_SECOND: u8 := 11

  datatype SlotAuthzConfig = SlotAuthzConfig(chainOffset: u8, blockQueryCutoff: u8, blockQueryStart: u8) {
    /** The getters widen the stored `u8` to `u64`. */
    function ChainOffset(): nat { chainOffset }
    function BlockQueryCutoff(): nat { blockQueryCutoff }
    function BlockQueryStart(): nat { blockQueryStart }
  }

  /** Every stored value is within `0..=11`. */
  predicate Clamped(cfg: SlotAuthzConfig) {
    cfg.ChainOffset() <= MAX_SLOT_SECOND
    && cfg.BlockQueryCutoff() <= MAX_SLOT_SECOND
    && cfg.BlockQueryStart() <= MAX_SLOT_SECOND
  }

  /** `x.clamp(0, 11)` on a `u8`; the lower bound 0 never applies to an unsigned value. */
  function Clamp(x: u8): (r: u8)
    ensures r <= MAX_SLOT_SECOND
    ensures x <= MAX_SLOT_SECOND ==> r == x
    ensures x > MAX_SLOT_SECOND ==> r == MAX_SLOT_SECOND
  {
    if x > MAX_SLOT_SECOND then MAX_SLOT_SECOND else x
  }

  /**
   * `SlotAuthzConfig::new(chain_offset, block_query_cutoff, block_query_start)`:
   * each getter returns the smaller of its own argument and 11.
   */
  function New(chainOffset: u8, blockQueryCutoff: u8, blockQueryStart: u8): (cfg: SlotAuthzConfig)
    ensures Clamped(cfg)
    ensures cfg.ChainOffset() == if chainOffset <= MAX_SLOT_SECOND then chainOffset else MAX_SLOT_SECOND
    ensures cfg.BlockQueryCutoff() == if blockQueryCutoff <= MAX_SLOT_SECOND then blockQueryCutoff else MAX_SLOT_SECOND
    ensures cfg.BlockQueryStart() == if blockQueryStart <= MAX_SLOT_SECOND then blockQueryStart else MAX_SLOT_SECOND
  {
    SlotAuthzConfig(Clamp(chainOffset), Clamp(blockQueryCutoff), Clamp(blockQueryStart))
  }

  /** Rebuilding a configuration from its own getters gives the same configuration. */
  lemma NewIdempotent(chainOffset: u8, blockQueryCutoff: u8, blockQueryStart: u8)
    ensures var cfg := New(chainOffset, blockQueryCutoff, blockQueryStart);
      New(cfg.ChainOffset(), cfg.BlockQueryCutoff(), cfg.BlockQueryStart()) == cfg
  {
  }

  /** Exactly the configurations with every value at most 11 are what `New` builds. */
  lemma NewImageIsClamped(cfg: SlotAuthzConfig)
    ensures Clamped(cfg) <==> New(cfg.chainOffset, cfg.blockQueryCutoff, cfg.blockQueryStart) == cfg
  {
  }

  /** The two window bounds are clamped independently: start may end up after cutoff. */
  lemma BoundsNotOrdered()
    ensures New(0, 3, 5).BlockQueryStart() > New(0, 3, 5).BlockQueryCutoff()
    ensures New(0, 200, 255).BlockQueryStart() == New(0, 200, 255).BlockQueryCutoff() == 11
  {
  }

  // ---------------------------------------------------------------------
  // Loading from the environment, with the reads of the variables given as inputs.

  /** `std::env::VarError`. */
  datatype VarError = NotPresent | NotUnicode

  /** `core::num::ParseIntError`, kept opaque: the text that did not parse. */
  datatype ParseIntError = ParseIntError(input: string)

  /** `FromEnvErr<Inner>`: a missing or empty variable, or a parse error of type `Inner`. */
  datatype FromEnvErr<Inner> = EnvError(name: string, cause: VarError) | Empty(name: string) | ParseError(inner: Inner)

  /** `SlotAuthzConfigError`: a parse error tagged with the setting it came from. */
  datatype SlotAuthzConfigError =
    | ChainOffset(err: ParseIntError)
    | BlockQueryCutoff(err: ParseIntError)
    | BlockQueryStart(err: ParseIntError)

  /** Which of the three settings a read belongs to. */
  datatype Setting = ChainOffsetSetting | BlockQueryCutoffSetting | BlockQueryStartSetting

  function Tag(s: Setting, e: ParseIntError): SlotAuthzConfigError {
    match s
    case ChainOffsetSetting => ChainOffset(e)
    case BlockQueryCutoffSetting => BlockQueryCutoff(e)
    case BlockQueryStartSetting => BlockQueryStart(e)
  }

  /**
   * `FromEnvErr::map` with a `SlotAuthzConfigError` variant: a parse error
   * is tagged with its setting, the other errors keep their variable name.
   */
  function MapErr(e: FromEnvErr<ParseIntError>, s: Setting): (r: FromEnvErr<SlotAuthzConfigError>)
    ensures r.EnvError? <==> e.EnvError?
    ensures r.Empty? <==> e.Empty?
    ensures e.EnvError? ==> r.name == e.name && r.cause == e.cause
    ensures e.Empty? ==> r.name == e.name
    ensures e.ParseError? ==> r.ParseError? && r.inner.err == e.inner
    ensures e.ParseError? ==> (r.inner.ChainOffset? <==> s == ChainOffsetSetting)
    ensures e.ParseError? ==> (r.inner.BlockQueryCutoff? <==> s == BlockQueryCutoffSetting)
  {
    match e
    case EnvError(name, cause) => EnvError(name, cause)
    case Empty(name) => Empty(name)
    case ParseError(inner) => ParseError(Tag(s, inner))
  }

  /**
   * `SlotAuthzConfig::from_env`, given the results of reading the three
   * variables: the first failure, in the order chain offset, cutoff, start,
   * is returned tagged with its setting; when all three reads succeed the
   * result is the configuration `New` builds from them.
   */
  function FromEnv(
    chainOffset: Result<u8, FromEnvErr<ParseIntError>>,
    blockQueryCutoff: Result<u8, FromEnvErr<ParseIntError>>,
    blockQueryStart: Result<u8, FromEnvErr<ParseIntError>>
  ): (r: Result<SlotAuthzConfig, FromEnvErr<SlotAuthzConfigError>>)
    ensures r.Ok? <==> chainOffset.Ok? && blockQueryCutoff.Ok? && blockQueryStart.Ok?
    ensures r.Ok? ==> r.value == New(chainOffset.value, blockQueryCutoff.value, blockQueryStart.value)
    ensures r.Ok? ==> Clamped(r.value)
    ensures chainOffset.Err? ==> r == Err(MapErr(chainOffset.error, ChainOffsetSetting))
    ensures chainOffset.Ok? && blockQueryCutoff.Err? ==>
      r == Err(MapErr(blockQueryCutoff.error, BlockQueryCutoffSetting))
    ensures chainOffset.Ok? && blockQueryCutoff.Ok? && blockQueryStart.Err? ==>
      r == Err(MapErr(blockQueryStart.error, BlockQueryStartSetting))
  {
    if chainOffset.Err? then Err(MapErr(chainOffset.error, ChainOffsetSetting))
    else
      var c := Clamp(chainOffset.value);
      if blockQueryCutoff.Err? then Err(MapErr(blockQueryCutoff.error, BlockQueryCutoffSetting))
      else
        var k := Clamp(blockQueryCutoff.value);
        if blockQueryStart.Err? then Err(MapErr(blockQueryStart.error, BlockQueryStartSetting))
        else
          var s := Clamp(blockQueryStart.value);
          Ok(SlotAuthzConfig(c, k, s))
  }
}
