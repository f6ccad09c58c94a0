// What a payout or a bill costs on top of its amount, and the Lagos day the
// free payouts and the daily cap are counted in.
//
// Money is an integer number of 1/10000 naira: the scale of every numeric
// column. Time is an integer number of milliseconds.
module Charges {
  import opened Prelude

  const NAIRA := 10_000
  const KOBO := 100

  const TIER_1_MAX := 5_000 * NAIRA
  const TIER_2_MAX := 50_000 * NAIRA
  const TIER_1_FEE := 10 * NAIRA
  const TIER_2_FEE := 25 * NAIRA
  const TIER_3_FEE := 50 * NAIRA

  const FREE_PAYOUTS_PER_DAY := 2
  const STAMP_DUTY := 50 * NAIRA
  const STAMP_DUTY_THRESHOLD := 10_000 * NAIRA

  datatype Charge = Charge(fee: int, vat: int, stampDuty: int, total: int)

  function CalculateTransferFee(amount: int): int {
    if amount <= TIER_1_MAX then TIER_1_FEE
    else if amount <= TIER_2_MAX then TIER_2_FEE
    else TIER_3_FEE
  }

  // Fee plus 7.5% of it, rounded to kobo with halves going up.
  function WithVat(fee: nat): int {
    (fee * 1075 + 50_000) / 100_000 * KOBO
  }

  function StampDuty(amount: int): int {
    if amount >= STAMP_DUTY_THRESHOLD then STAMP_DUTY else 0
  }

  function ChargeFor(fee: nat, amount: int): Charge {
    var vat := WithVat(fee) - fee;
    var duty := StampDuty(amount);
    Charge(fee, vat, duty, fee + vat + duty)
  }

  // The whole schedule: a free slot waives the fee (and so its VAT), never
  // the stamp duty.
  function Schedule(free: bool, amount: int): Charge {
    ChargeFor(if free then 0 else CalculateTransferFee(amount), amount)
  }

  // WithVat is the multiple of a kobo nearest to 1.075 * fee, the upper one of
  // two equally near; no other number is.
  lemma VatIsNearestKobo(fee: nat, w: int)
    ensures (w % KOBO == 0 && -50_000 < 1000 * w - 1075 * fee <= 50_000) <==> w == WithVat(fee)
  {
    var q := (fee * 1075 + 50_000) / 100_000;
    assert 100_000 * q <= fee * 1075 + 50_000 < 100_000 * q + 100_000;
    if w % KOBO == 0 && -50_000 < 1000 * w - 1075 * fee <= 50_000 {
      var k := w / KOBO;
      assert w == KOBO * k;
      assert 100_000 * k <= fee * 1075 + 50_000 < 100_000 * (k + 1);
      assert k == q;
    }
  }

  // The fee with its VAT grows with the amount, so the fee-paying total does.
  lemma FeePayingTotalGrows(a: int, b: int)
    requires a <= b
    ensures Schedule(false, a).total <= Schedule(false, b).total
    ensures Schedule(true, a).total <= Schedule(false, a).total
  {
    assert WithVat(TIER_1_FEE) == 107_500;
    assert WithVat(TIER_2_FEE) == 268_800;
    assert WithVat(TIER_3_FEE) == 537_500;
    assert WithVat(0) == 0;
  }

  // The stored parts give the base fee back, and the base fee tells the free
  // payouts from the paying ones.
  lemma ChargeSplits(free: bool, amount: int)
    ensures var c := Schedule(free, amount);
            && c.total - c.vat - c.stampDuty == (if free then 0 else CalculateTransferFee(amount))
            && c.vat >= 0 && c.stampDuty >= 0 && c.total >= 0
            && (c.total - c.vat - c.stampDuty == 0 <==> free)
  {
    assert WithVat(TIER_1_FEE) == 107_500;
    assert WithVat(TIER_2_FEE) == 268_800;
    assert WithVat(TIER_3_FEE) == 537_500;
    assert WithVat(0) == 0;
  }

  // ---- Bills ---------------------------------------------------------------

  datatype BillType = Airtime | Data | CableTv | Utility | Internet | Betting | Other

  function CalculateBillFee(bill: BillType, convenienceFee: Option<nat>, configured: nat): nat {
    var convenience := if convenienceFee.Some? then convenienceFee.value else 0;
    convenience + (if bill.Airtime? || bill.Data? then 0 else configured)
  }

  // ---- The Lagos day -------------------------------------------------------

  const HOUR := 3_600_000
  const DAY := 24 * HOUR

  // Midnight in Lagos (UTC+1, no daylight saving) on or before `now`.
  function StartOfLagosDay(now: int): int {
    (now + HOUR) / DAY * DAY - HOUR
  }

  // Every instant lies in exactly one day, the one that starts on or before it.
  lemma LagosDaysPartitionTime(now: int, day: int)
    ensures StartOfLagosDay(now) <= now < StartOfLagosDay(now) + DAY
    ensures (StartOfLagosDay(now) + 3_600_000) % 86_400_000 == 0
    ensures StartOfLagosDay(StartOfLagosDay(now)) == StartOfLagosDay(now)
    ensures StartOfLagosDay(day) == day ==>
              (StartOfLagosDay(now) == day <==> day <= now < day + DAY)
  {
    var q := (now + HOUR) / DAY;
    assert q * DAY <= now + HOUR < q * DAY + DAY;
    assert (q * DAY) / DAY == q && (q * DAY) % DAY == 0;
    if StartOfLagosDay(day) == day && day <= now < day + DAY {
      var p := (day + HOUR) / DAY;
      assert p * DAY <= now + HOUR < (p + 1) * DAY;
      assert p == q;
    }
  }
}
