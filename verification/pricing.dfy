/** The per-litre milk rate rule and the variants of it that the intake
    handler, the intake preview, the dashboard statistics, the accountant's
    ledger and the pending-payments figure each re-implement. */
module Pricing {
  import opened Common
  import opened Entities

  const FatSnf: string := "FAT_SNF"
  const FatOnly: string := "FAT_ONLY"
  const Fixed: string := "FIXED"

  /** The readings the pending-payments figure substitutes for a zero (unmeasured) one. */
  const DefaultFat: real := 3.5
  const DefaultSnf: real := 8.5

  /** The rate rule: fat and SNF weighted, fat weighted, or — for `FIXED`
      and for every other rate type — the farmer's fixed rate. */
  function Rate(f: Farmer, fat: real, snf: real): real
  {
    if f.rateType == FatSnf then fat * f.fatRate + snf * f.snfRate
    else if f.rateType == FatOnly then fat * f.fatRate
    else f.fixedRate
  }

  /** The rate type reads the fat reading. */
  predicate UsesFat(rateType: string) {
    rateType == FatSnf || rateType == FatOnly
  }

  /** The rate type reads the SNF reading. */
  predicate UsesSnf(rateType: string) {
    rateType == FatSnf
  }

  /** A stored collection whose rate follows the rule for its own stored
      readings, and whose amount is quantity times rate. */
  predicate PricedWith(c: Collection, f: Farmer) {
    && c.rate == Rate(f, c.fat, c.snf)
    && c.totalAmount == c.quantity * c.rate
  }

  /** Any rate type other than the two graded ones pays the fixed rate,
      whatever the readings. */
  lemma FixedRateIgnoresReadings(f: Farmer, fat1: real, snf1: real, fat2: real, snf2: real)
    requires !UsesFat(f.rateType)
    ensures Rate(f, fat1, snf1) == f.fixedRate
    ensures Rate(f, fat1, snf1) == Rate(f, fat2, snf2)
  {
  }

  /** Only `FAT_SNF` looks at the SNF reading. */
  lemma SnfOnlyMattersForFatSnf(f: Farmer, fat: real, snf1: real, snf2: real)
    requires !UsesSnf(f.rateType)
    ensures Rate(f, fat, snf1) == Rate(f, fat, snf2)
  {
  }

  /** With non-negative rates, better milk never earns a lower rate. */
  lemma {:induction false} RateMonotone(f: Farmer, fat1: real, snf1: real, fat2: real, snf2: real)
    requires f.fatRate >= 0.0 && f.snfRate >= 0.0
    requires fat1 <= fat2 && snf1 <= snf2
    ensures Rate(f, fat1, snf1) <= Rate(f, fat2, snf2)
  {
    assert fat1 * f.fatRate <= fat2 * f.fatRate by {
      assert (fat2 - fat1) * f.fatRate >= 0.0;
    }
    assert snf1 * f.snfRate <= snf2 * f.snfRate by {
      assert (snf2 - snf1) * f.snfRate >= 0.0;
    }
  }

  /** The dashboard statistics' rate: `c.fat || 0`, `c.snf || 0` then the rule. */
  function StatsRate(f: Farmer, fat: real, snf: real): real
  {
    if f.rateType == FatSnf then
      var fa := OrIfZero(fat, 0.0);
      var s := OrIfZero(snf, 0.0);
      fa * f.fatRate + s * f.snfRate
    else if f.rateType == FatOnly then OrIfZero(fat, 0.0) * f.fatRate
    else f.fixedRate
  }

  /** The ledger's rate: start from the fixed rate and overwrite it for the graded types. */
  function LedgerRate(f: Farmer, fat: real, snf: real): real
  {
    var rate0 := f.fixedRate;
    var rate1 := if f.rateType == FatOnly then OrIfZero(fat, 0.0) * f.fatRate else rate0;
    if f.rateType == FatSnf then OrIfZero(fat, 0.0) * f.fatRate + OrIfZero(snf, 0.0) * f.snfRate
    else rate1
  }

  /** The pending-payments rate: as the ledger's, but a zero reading counts
      as fat 3.5 or SNF 8.5. */
  function LifetimeRate(f: Farmer, fat: real, snf: real): real
  {
    var rate0 := f.fixedRate;
    var rate1 := if f.rateType == FatOnly then OrIfZero(fat, DefaultFat) * f.fatRate else rate0;
    if f.rateType == FatSnf then OrIfZero(fat, DefaultFat) * f.fatRate + OrIfZero(snf, DefaultSnf) * f.snfRate
    else rate1
  }

  /** The statistics and the ledger price every stored reading exactly as the rule does. */
  lemma StatsAndLedgerAgreeWithRule(f: Farmer, fat: real, snf: real)
    ensures StatsRate(f, fat, snf) == Rate(f, fat, snf)
    ensures LedgerRate(f, fat, snf) == Rate(f, fat, snf)
  {
  }

  /** The pending-payments rate is the rule applied to back-filled readings. */
  lemma LifetimeRateBackfills(f: Farmer, fat: real, snf: real)
    ensures LifetimeRate(f, fat, snf) == Rate(f, OrIfZero(fat, DefaultFat), OrIfZero(snf, DefaultSnf))
  {
  }

  /** How far the pending-payments rate exceeds the rule: the default
      reading's worth for each reading the rate type uses that is zero, and
      nothing otherwise. */
  lemma {:induction false} LifetimeRateSurcharge(f: Farmer, fat: real, snf: real)
    ensures LifetimeRate(f, fat, snf) - Rate(f, fat, snf)
         == (if UsesFat(f.rateType) && fat == 0.0 then DefaultFat * f.fatRate else 0.0)
          + (if UsesSnf(f.rateType) && snf == 0.0 then DefaultSnf * f.snfRate else 0.0)
  {
    LifetimeRateBackfills(f, fat, snf);
  }

  /** The two agree whenever every reading the rate type uses is non-zero. */
  lemma LifetimeAgreesWhenMeasured(f: Farmer, fat: real, snf: real)
    requires !UsesFat(f.rateType) || fat != 0.0
    requires !UsesSnf(f.rateType) || snf != 0.0
    ensures LifetimeRate(f, fat, snf) == Rate(f, fat, snf)
  {
    LifetimeRateSurcharge(f, fat, snf);
  }
}
