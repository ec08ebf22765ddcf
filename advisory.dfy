/** The advisory composer of the Bitcoin chatbot: the price band with its
    advice, risk level and trend indicator, the derived key levels, and the
    substitution of a fixed apology when the price fetch fails
    (`get_crypto_analysis` in main.py). Prices are exact reals. */
module Advisory {
  import opened Wrappers
  import opened Text

  /** The five advisory bands, from the lowest prices to the highest. */
  datatype Band = StrongBuy | BuyZone | DcaZone | CautionZone | SellZone

  /** Position of a band in price order: 0 for the lowest prices. */
  function Rank(b: Band): (r: nat)
    ensures r < 5
  {
    match b
    case StrongBuy => 0
    case BuyZone => 1
    case DcaZone => 2
    case CautionZone => 3
    case SellZone => 4
  }

  /** The exclusive lower bound of a band's price range; the lowest band
      has none. */
  function Floor(b: Band): Option<real> {
    match b
    case StrongBuy => None
    case BuyZone => Some(25000.0)
    case DcaZone => Some(35000.0)
    case CautionZone => Some(50000.0)
    case SellZone => Some(70000.0)
  }

  /** The inclusive upper bound of a band's price range; the highest band
      has none. */
  function Ceiling(b: Band): Option<real> {
    match b
    case StrongBuy => Some(25000.0)
    case BuyZone => Some(35000.0)
    case DcaZone => Some(50000.0)
    case CautionZone => Some(70000.0)
    case SellZone => None
  }

  /** `p` lies in the half-open range (Floor, Ceiling] of band `b`. */
  predicate InBand(b: Band, p: real) {
    (Floor(b).None? || Floor(b).value < p) && (Ceiling(b).None? || p <= Ceiling(b).value)
  }

  /** The band of a spot price: strict `>` tests from 70000 down to 25000,
      first success wins, everything else is the lowest band. */
  function Classify(p: real): (b: Band)
    ensures InBand(b, p)
  {
    if p > 70000.0 then SellZone
    else if p > 50000.0 then CautionZone
    else if p > 35000.0 then DcaZone
    else if p > 25000.0 then BuyZone
    else StrongBuy
  }

  /** Every price lies in exactly one band, and that band is the one
      `Classify` picks. */
  lemma ClassifyExactly(p: real, b: Band)
    ensures InBand(b, p) <==> Classify(p) == b
  {
  }

  /** No price lies in two bands. */
  lemma BandsDisjoint(p: real, b1: Band, b2: Band)
    requires InBand(b1, p) && InBand(b2, p)
    ensures b1 == b2
  {
    ClassifyExactly(p, b1);
    ClassifyExactly(p, b2);
  }

  /** Adjacent bands share their boundary: the ceiling of one is the floor
      of the next, so the ranges leave no gap. */
  lemma BandsAdjacent(b: Band, c: Band)
    requires Rank(c) == Rank(b) + 1
    ensures Ceiling(b).Some? && Floor(c) == Ceiling(b)
  {
  }

  /** A boundary price belongs to the band below it. */
  lemma BoundariesBelongBelow()
    ensures Classify(70000.0) == CautionZone
    ensures Classify(50000.0) == DcaZone
    ensures Classify(35000.0) == BuyZone
    ensures Classify(25000.0) == StrongBuy
  {
  }

  /** A higher price never gets a lower band. */
  lemma ClassifyMonotone(p: real, q: real)
    requires p <= q
    ensures Rank(Classify(p)) <= Rank(Classify(q))
  {
  }

  /** The threshold table the if/elif chain encodes: exclusive lower bounds
      from the highest down, each with the band it selects. */
  const Thresholds: seq<(real, Band)> :=
    [(70000.0, SellZone), (50000.0, CautionZone), (35000.0, DcaZone), (25000.0, BuyZone)]

  /** Scan a threshold table top-down and take the first entry whose bound
      `p` exceeds, or `fallback` when none does. */
  function FirstAbove(p: real, table: seq<(real, Band)>, fallback: Band): Band {
    if table == [] then fallback
    else if p > table[0].0 then table[0].1
    else FirstAbove(p, table[1..], fallback)
  }

  /** The chain of comparisons is exactly the top-down table scan. */
  lemma ClassifyIsTableScan(p: real)
    ensures Classify(p) == FirstAbove(p, Thresholds, StrongBuy)
  {
    var t0 := Thresholds;
    var t1 := [(50000.0, CautionZone), (35000.0, DcaZone), (25000.0, BuyZone)];
    var t2 := [(35000.0, DcaZone), (25000.0, BuyZone)];
    var t3 := [(25000.0, BuyZone)];
    assert t0[1..] == t1 && t1[1..] == t2 && t2[1..] == t3 && t3[1..] == [];
    assert FirstAbove(p, t3, StrongBuy) == if p > 25000.0 then BuyZone else StrongBuy;
    assert FirstAbove(p, t2, StrongBuy) == if p > 35000.0 then DcaZone else FirstAbove(p, t3, StrongBuy);
    assert FirstAbove(p, t1, StrongBuy) == if p > 50000.0 then CautionZone else FirstAbove(p, t2, StrongBuy);
  }

  /** The table is ordered from the highest bound down, and each entry's
      bound is the floor of the band it selects. */
  lemma ThresholdsDescending()
    ensures forall i, j :: 0 <= i < j < |Thresholds| ==> Thresholds[i].0 > Thresholds[j].0
    ensures forall i :: 0 <= i < |Thresholds| ==> Floor(Thresholds[i].1) == Some(Thresholds[i].0)
  {
  }

  /** The trend indicator shown for a band: every band above the lowest is
      announced as a zone, the lowest as a strong buy. */
  function TrendIndicator(b: Band): (r: string)
    ensures |r| >= 4 && (r[|r| - 4..] == "ZONE" <==> b != StrongBuy)
  {
    match b
    case SellZone => "🔺 SELL ZONE"
    case CautionZone => "⚠️ CAUTION ZONE"
    case DcaZone => "📊 DCA ZONE"
    case BuyZone => "📈 BUY ZONE"
    case StrongBuy => "🚀 STRONG BUY"
  }

  /** The risk level shown for a band: it warns of the risk "to buy" exactly
      for the two bands above 50000. */
  function RiskLevel(b: Band): (r: string)
    ensures |r| >= 6 && (r[|r| - 6..] == "to buy" <==> Rank(b) > Rank(DcaZone))
  {
    match b
    case SellZone => "HIGH RISK to buy"
    case CautionZone => "MEDIUM-HIGH RISK to buy"
    case DcaZone => "MEDIUM RISK - good for DCA"
    case BuyZone => "LOW-MEDIUM RISK - good buying zone"
    case StrongBuy => "LOW RISK - strong buying opportunity"
  }

  /** The coloured marker that opens a band's advice. */
  function Signal(b: Band): char {
    match b
    case SellZone => '🔴'
    case CautionZone => '🟡'
    case _ => '🟢'
  }

  /** The trading advice shown for a band: it opens with a green marker
      exactly for the bands at or below DCA, red for the highest band. */
  function Advice(b: Band): (r: string)
    ensures |r| > 0
    ensures r[0] == '🟢' <==> Rank(b) <= Rank(DcaZone)
    ensures r[0] == '🔴' <==> b == SellZone
  {
    [Signal(b)] + AdviceText(b)
  }

  /** The advice after its marker. */
  function AdviceText(b: Band): string {
    match b
    case SellZone => " Price is very high - consider taking profits or waiting for a significant dip."
    case CautionZone => " Price is high - good time for partial profit-taking or DCA selling."
    case DcaZone => " Price is in a moderate range - good for Dollar Cost Averaging (DCA)."
    case BuyZone => " Price is relatively low - might be a good buying opportunity."
    case StrongBuy => " Price is quite low - could be an excellent buying opportunity for long-term holders."
  }

  /** Each band shows its own trend indicator and risk level, so either one
      identifies the band. */
  lemma BandTextsDistinct(b: Band, c: Band)
    requires b != c
    ensures TrendIndicator(b) != TrendIndicator(c)
    ensures RiskLevel(b) != RiskLevel(c)
  {
  }

  /** The three derived price levels. */
  datatype KeyLevels = KeyLevels(support: real, resistance: real, nextTarget: real)

  /** Support 5% below, resistance 5% above, and a next target 10% above the
      price below 50000 but 10% below it from 50000 on. */
  function Levels(p: real): (k: KeyLevels)
    ensures k.resistance - p == p - k.support == p / 20.0
    ensures p < 50000.0 ==> k.nextTarget - p == p / 10.0
    ensures p >= 50000.0 ==> p - k.nextTarget == p / 10.0
  {
    KeyLevels(p * 0.95, p * 1.05, if p < 50000.0 then p * 1.10 else p * 0.90)
  }

  /** For a positive price the price lies strictly between support and
      resistance. */
  lemma LevelsBracketPrice(p: real)
    requires p > 0.0
    ensures Levels(p).support < p < Levels(p).resistance
  {
  }

  /** For a positive price the next target lies above the price exactly when
      the price is below 50000. */
  lemma TargetDirection(p: real)
    requires p > 0.0
    ensures Levels(p).nextTarget > p <==> p < 50000.0
    ensures Levels(p).nextTarget < p <==> p >= 50000.0
  {
  }

  /** The band chain and the target rule split the prices at 50000 with
      opposite strictness: 50000 itself is in the DCA band yet its target
      already looks down. It is the only positive price in a band at or
      below DCA whose target looks down. */
  lemma TargetBreakpointAt50000(p: real)
    requires p > 0.0
    ensures Rank(Classify(p)) <= Rank(DcaZone) && Levels(p).nextTarget < p <==> p == 50000.0
  {
  }

  /** The apology shown in place of the analysis when the fetch fails. */
  const Apology: string := "❌" + " Sorry, I couldn't fetch the current Bitcoin price. Please try again later."

  /** What the advisory composer produces: the apology when no price was
      fetched, otherwise a report on the fetched price. */
  datatype Analysis =
    | Unavailable
    | Report(price: real, updatedAt: string, band: Band, levels: KeyLevels)

  /** `get_crypto_analysis` with the fetch result and the formatted clock
      reading passed in. */
  function Analyze(fetched: Option<real>, now: string): (a: Analysis)
    ensures a.Unavailable? <==> fetched.None?
    ensures a.Report? ==> a.price == fetched.value && a.updatedAt == now
    ensures a.Report? ==> a.band == Classify(a.price) && InBand(a.band, a.price)
    ensures a.Report? ==> a.levels == Levels(a.price)
    ensures a.Report? && a.price > 0.0 ==> a.levels.support < a.price < a.levels.resistance
  {
    match fetched
    case None => Unavailable
    case Some(p) => Report(p, now, Classify(p), Levels(p))
  }

  /** The label of the timestamp line that opens a report. */
  const UpdatedLabel: string := "⏰ **Last Updated:** "

  /** The title line of the assessment, and the labels of its two lines. */
  const AssessmentTitle: string := "📈 **Market Assessment:**"
  const RiskLabel: string := "• **Risk Level:** "
  const AdviceLabel: string := "• **Trading Advice:** "

  /** The text layout of a report: the timestamp line, the trend indicator,
      a blank line, the assessment title, the labelled risk level and the
      labelled advice. Each of these stands, whole, as a line at the position
      the lines before it leave, and the advice line ends the text. */
  function ReportLayout(now: string, trend: string, risk: string, advice: string): (r: string)
    ensures |r| > 0 && r[0] == '⏰'
    ensures var lines := [UpdatedLabel + now, trend, "", AssessmentTitle, RiskLabel + risk, AdviceLabel + advice];
      && (forall k :: 0 <= k < |lines| ==> LineAt(r, lines[k], LineStart(lines, k)))
      && |r| == LineStart(lines, 5) + |lines[5]|
  {
    var lines := [UpdatedLabel + now, trend, "", AssessmentTitle, RiskLabel + risk, AdviceLabel + advice];
    var r := JoinLines(lines);
    forall k | 0 <= k < |lines|
      ensures LineAt(r, lines[k], LineStart(lines, k))
    {
      LineOfJoin(lines, k);
    }
    assert OccursAt(r, lines[0], 0) && r[0] == lines[0][0] == UpdatedLabel[0];
    r
  }

  /** The timestamp follows its label, and the risk level and the advice
      follow theirs, so all three occur in the report. */
  lemma ReportLayoutContains(now: string, trend: string, risk: string, advice: string)
    ensures var r := ReportLayout(now, trend, risk, advice);
      OccursAt(r, now, |UpdatedLabel|) && Contains(r, risk) && Contains(r, advice)
  {
    var r := ReportLayout(now, trend, risk, advice);
    var lines := [UpdatedLabel + now, trend, "", AssessmentTitle, RiskLabel + risk, AdviceLabel + advice];
    assert LineAt(r, lines[0], LineStart(lines, 0));
    assert LineAt(r, lines[4], LineStart(lines, 4));
    assert LineAt(r, lines[5], LineStart(lines, 5));
    OccursSplit(r, UpdatedLabel, now, 0);
    OccursSplit(r, RiskLabel, risk, LineStart(lines, 4));
    ContainsAt(r, risk, LineStart(lines, 4) + |RiskLabel|);
    OccursSplit(r, AdviceLabel, advice, LineStart(lines, 5));
    ContainsAt(r, advice, LineStart(lines, 5) + |AdviceLabel|);
  }

  /** The analysis text: the apology, or the report laid out from its
      timestamp and its band's trend indicator, risk level and advice. The
      numeric lines (price and key levels) are not rendered. A report never
      reads as the apology. */
  function Render(a: Analysis): (r: string)
    ensures r == Apology <==> a.Unavailable?
  {
    match a
    case Unavailable => Apology
    case Report(_, now, b, _) =>
      var r := ReportLayout(now, TrendIndicator(b), RiskLevel(b), Advice(b));
      assert r != Apology by {
        assert r[0] == '⏰' && Apology[0] == '❌';
      }
      r
  }

  /** A report's text, line by line: its timestamp, its band's trend
      indicator, a blank line, the assessment title, its band's risk level
      and its band's advice, each behind its label and on its own line. */
  lemma RenderShowsReport(a: Analysis)
    requires a.Report?
    ensures OccursAt(Render(a), a.updatedAt, |UpdatedLabel|)
    ensures var lines := [UpdatedLabel + a.updatedAt, TrendIndicator(a.band), "", AssessmentTitle,
                          RiskLabel + RiskLevel(a.band), AdviceLabel + Advice(a.band)];
      && (forall k :: 0 <= k < |lines| ==> LineAt(Render(a), lines[k], LineStart(lines, k)))
      && |Render(a)| == LineStart(lines, 5) + |lines[5]|
    ensures Contains(Render(a), RiskLevel(a.band))
    ensures Contains(Render(a), Advice(a.band))
  {
    var b := a.band;
    var r := Render(a);
    assert r == ReportLayout(a.updatedAt, TrendIndicator(b), RiskLevel(b), Advice(b));
    ReportLayoutContains(a.updatedAt, TrendIndicator(b), RiskLevel(b), Advice(b));
  }

  /** The analysis text is the apology exactly when the fetch failed. */
  lemma TextIsApologyIffFailed(fetched: Option<real>, now: string)
    ensures Render(Analyze(fetched, now)) == Apology <==> fetched.None?
  {

  }

  /** Scenario: a price of 80000 is in the sell band with support 76000,
      resistance 84000 and a downward target of 72000. */
  lemma PriceOf80000()
    ensures Classify(80000.0) == SellZone && RiskLevel(SellZone) == "HIGH RISK to buy"
    ensures Levels(80000.0) == KeyLevels(76000.0, 84000.0, 72000.0)
  {
  }

  /** Scenario: a price of 20000 is a strong buy with support 19000,
      resistance 21000 and an upward target of 22000. */
  lemma PriceOf20000()
    ensures Classify(20000.0) == StrongBuy
    ensures Levels(20000.0) == KeyLevels(19000.0, 21000.0, 22000.0)
  {
  }
}
