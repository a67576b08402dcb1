/**
 * The defender's configuration, its validation, and the score weight of each
 * kind of host event.
 */
module DefenderConfig {
  import opened Wrappers

  datatype DefenderConfig = DefenderConfig(
    enabled: bool,
    banTime: int,            // minutes
    banTimeIncrement: int,   // percent of banTime
    threshold: int,
    scoreInvalid: int,
    scoreValid: int,
    scoreLimitExceeded: int,
    observationTime: int,    // minutes
    entriesSoftLimit: int,
    entriesHardLimit: int,
    safeListFile: string,
    blockListFile: string)

  /** The zero value of the configuration record. */
  const ZeroConfig := DefenderConfig(false, 0, 0, 0, 0, 0, 0, 0, 0, 0, "", "")

  datatype ConfigError =
    | ScoreInvalidTooHigh
    | ScoreValidTooHigh
    | ScoreLimitExceededTooHigh
    | BanTimeNotPositive
    | BanTimeIncrementNotPositive
    | ObservationTimeNotPositive
    | SoftLimitNotPositive
    | HardLimitNotAboveSoft

  /** The condition each error reports as broken. */
  predicate Violates(c: DefenderConfig, e: ConfigError)
  {
    match e
    case ScoreInvalidTooHigh => c.scoreInvalid >= c.threshold
    case ScoreValidTooHigh => c.scoreValid >= c.threshold
    case ScoreLimitExceededTooHigh => c.scoreLimitExceeded >= c.threshold
    case BanTimeNotPositive => c.banTime <= 0
    case BanTimeIncrementNotPositive => c.banTimeIncrement <= 0
    case ObservationTimeNotPositive => c.observationTime <= 0
    case SoftLimitNotPositive => c.entriesSoftLimit <= 0
    case HardLimitNotAboveSoft => c.entriesHardLimit <= c.entriesSoftLimit
  }

  /** The conditions an enabled configuration must meet. */
  predicate Sound(c: DefenderConfig)
  {
    && c.scoreInvalid < c.threshold
    && c.scoreValid < c.threshold
    && c.scoreLimitExceeded < c.threshold
    && c.banTime > 0
    && c.banTimeIncrement > 0
    && c.observationTime > 0
    && c.entriesSoftLimit > 0
    && c.entriesHardLimit > c.entriesSoftLimit
  }

  /** Sound means that no error's condition holds. */
  lemma SoundIffNoViolation(c: DefenderConfig)
    ensures Sound(c) <==> forall e :: !Violates(c, e)
  {
    if !Sound(c) {
      var e := if c.scoreInvalid >= c.threshold then ScoreInvalidTooHigh
               else if c.scoreValid >= c.threshold then ScoreValidTooHigh
               else if c.scoreLimitExceeded >= c.threshold then ScoreLimitExceededTooHigh
               else if c.banTime <= 0 then BanTimeNotPositive
               else if c.banTimeIncrement <= 0 then BanTimeIncrementNotPositive
               else if c.observationTime <= 0 then ObservationTimeNotPositive
               else if c.entriesSoftLimit <= 0 then SoftLimitNotPositive
               else HardLimitNotAboveSoft;
      assert Violates(c, e);
    }
  }

  /**
   * DefenderConfig.validate: a disabled configuration is always accepted; an
   * enabled one is rejected with an error naming a condition it breaks.
   */
  function Validate(c: DefenderConfig): (r: Option<ConfigError>)
    ensures r.None? <==> !c.enabled || Sound(c)
    ensures r.Some? ==> c.enabled && Violates(c, r.value)
  {
    if !c.enabled then None
    else if c.scoreInvalid >= c.threshold then Some(ScoreInvalidTooHigh)
    else if c.scoreValid >= c.threshold then Some(ScoreValidTooHigh)
    else if c.scoreLimitExceeded >= c.threshold then Some(ScoreLimitExceededTooHigh)
    else if c.banTime <= 0 then Some(BanTimeNotPositive)
    else if c.banTimeIncrement <= 0 then Some(BanTimeIncrementNotPositive)
    else if c.observationTime <= 0 then Some(ObservationTimeNotPositive)
    else if c.entriesSoftLimit <= 0 then Some(SoftLimitNotPositive)
    else if c.entriesHardLimit <= c.entriesSoftLimit then Some(HardLimitNotAboveSoft)
    else None
  }

  datatype HostEvent = LoginFailed | UserNotFound | LimitExceeded | NoLoginTried

  /** The configured weight of an event kind. */
  function Weight(c: DefenderConfig, kind: HostEvent): int
  {
    match kind
    case LoginFailed => c.scoreValid
    case LimitExceeded => c.scoreLimitExceeded
    case UserNotFound => c.scoreInvalid
    case NoLoginTried => c.scoreInvalid
  }

  /**
   * What an accepted, enabled configuration guarantees: no single event reaches
   * the threshold, every duration is positive and hard > soft > 0.
   */
  lemma ValidatedBounds(c: DefenderConfig)
    requires c.enabled && Validate(c).None?
    ensures forall kind :: Weight(c, kind) < c.threshold
    ensures c.banTime > 0 && c.banTimeIncrement > 0 && c.observationTime > 0
    ensures c.entriesHardLimit > c.entriesSoftLimit > 0
  {
  }

  /**
   * TestDefenderConfig: each configuration is the previous one with the
   * fields the test sets next, from the zero value on; only the last is
   * accepted. The test asks only for an error, so no error kind is stated.
   */
  lemma ValidateExamples()
    ensures var c0 := ZeroConfig;
            var c1 := c0.(enabled := true, threshold := 10, scoreInvalid := 10);
            var c2 := c1.(scoreInvalid := 2, scoreLimitExceeded := 10);
            var c3 := c2.(scoreLimitExceeded := 2, scoreValid := 10);
            var c4 := c3.(scoreValid := 1, banTime := 0);
            var c5 := c4.(banTime := 30, banTimeIncrement := 0);
            var c6 := c5.(banTimeIncrement := 50, observationTime := 0);
            var c7 := c6.(observationTime := 30);
            var c8 := c7.(entriesSoftLimit := 10);
            var c9 := c8.(entriesHardLimit := 10);
            var c10 := c9.(entriesHardLimit := 20);
            && Validate(c0).None?
            && Validate(c1).Some? && Validate(c2).Some? && Validate(c3).Some?
            && Validate(c4).Some? && Validate(c5).Some? && Validate(c6).Some?
            && Validate(c7).Some? && Validate(c8).Some? && Validate(c9).Some?
            && Validate(c10).None?
  {
  }
}
