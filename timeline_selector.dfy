/** The delivery timelines of the cost estimator and the price-impact label shown on each. */
module TimelineSelector {
  import opened Wrappers
  import opened JsText
  import opened JsMath

  datatype TimelineOption = TimelineOption(id: string, name: string, priceMultiplier: real)

  const Urgent := TimelineOption("urgent", "Urgent Delivery", 1.5)
  const Standard := TimelineOption("standard", "Standard Timeline", 1.0)
  const Flexible := TimelineOption("flexible", "Flexible Schedule", 0.85)

  /** The catalog, in the order the selector lists it. */
  const TimelineOptions: seq<TimelineOption> := [Urgent, Standard, Flexible]

  /** The catalog's ids are pairwise distinct and only the urgent option costs more than standard. */
  lemma TimelineCatalog()
    ensures forall i, j :: 0 <= i < j < |TimelineOptions| ==> TimelineOptions[i].id != TimelineOptions[j].id
    ensures forall i :: 0 <= i < |TimelineOptions| ==>
      (TimelineOptions[i].priceMultiplier > 1.0 <==> TimelineOptions[i] == Urgent)
  {
  }

  /**
   * `selectedTimeline?.priceMultiplier || 1`: the option's multiplier, or 1 when no option is
   * chosen (a multiplier of 0 is falsy and would also read as 1).
   */
  function MultiplierOrOne(t: Option<TimelineOption>): (m: real)
    ensures m != 0.0
    ensures t.Some? && t.value.priceMultiplier != 0.0 ==> m == t.value.priceMultiplier
    ensures t.None? ==> m == 1.0
    ensures t.Some? && t.value.priceMultiplier == 0.0 ==> m == 1.0
  {
    if t.Some? && t.value.priceMultiplier != 0.0 then t.value.priceMultiplier else 1.0
  }

  /** The price-impact label: a signed whole percentage for a multiplier off 1, otherwise "Standard pricing". */
  function PriceImpact(m: real): (r: string)
    ensures |r| > 0
    ensures r == "Standard pricing" <==> m == 1.0
    ensures m > 1.0 ==> r[0] == '+'
    ensures m < 1.0 ==> r[0] == '-'
  {
    if m > 1.0 then PercentLabel('+', Round((m - 1.0) * 100.0))
    else if m < 1.0 then PercentLabel('-', Round((1.0 - m) * 100.0))
    else "Standard pricing"
  }

  /** `${sign}${n}% cost` */
  function PercentLabel(sign: char, n: nat): (r: string)
    ensures |r| > 0 && r[0] == sign
    ensures r[1..] == NatToString(n) + "% cost"
  {
    [sign] + NatToString(n) + "% cost"
  }

  /** Reading the label back with `parseInt` gives the percentage change, rounded half up in magnitude. */
  lemma PriceImpactPercent(m: real)
    requires m != 1.0
    ensures ParseInt(PriceImpact(m)) == Some(if m > 1.0 then Round((m - 1.0) * 100.0) else -Round((1.0 - m) * 100.0))
  {
    var sign := if m > 1.0 then '+' else '-';
    var n: nat := if m > 1.0 then Round((m - 1.0) * 100.0) else Round((1.0 - m) * 100.0);
    var s := PercentLabel(sign, n);
    assert PriceImpact(m) == s;
    SignedNumeralParse(sign, n, "% cost");
  }

  /** The labels of the three catalog options. */
  lemma CatalogImpactLabels()
    ensures PriceImpact(Urgent.priceMultiplier) == "+50% cost"
    ensures PriceImpact(Flexible.priceMultiplier) == "-15% cost"
    ensures PriceImpact(Standard.priceMultiplier) == "Standard pricing"
  {
    assert Round((1.5 - 1.0) * 100.0) == 50;
    assert Round((1.0 - 0.85) * 100.0) == 15;
    assert NatToString(50) == "50";
    assert NatToString(15) == "15";
  }
}
