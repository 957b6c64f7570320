/** The per-game confidence bar (src/components/ConfidenceBar.tsx). */
module ConfidenceBar {
  import opened Types

  /** The text inside the bar: a dash placeholder, or the grade itself. */
  datatype BarLabel = Placeholder | GradeText(grade: int)

  /** The bar's fill, in percent; not clamped to 0..100. */
  function BarWidth(grade: Option<int>): int {
    if grade.None? || grade.value == 2 then 0 else grade.value
  }

  function Label(grade: Option<int>): BarLabel {
    if grade.None? || grade.value == 2 then Placeholder else GradeText(grade.value)
  }

  /** The fill colour: the colour of the grade's tier. */
  function BarColor(grade: Option<int>): string {
    TierColor(GetSettlementTier(grade))
  }

  /** Width and label follow the classifier: an empty placeholder bar exactly for NoData, the raw grade otherwise. */
  lemma BarAgreesWithTier(grade: Option<int>)
    ensures Label(grade) == Placeholder <==> grade == None || grade == Some(2)
    ensures GetSettlementTier(grade) == NoData <==> Label(grade) == Placeholder
    ensures GetSettlementTier(grade) == NoData ==> BarWidth(grade) == 0
    ensures GetSettlementTier(grade) != NoData ==>
              BarWidth(grade) == grade.value && Label(grade) == GradeText(grade.value)
  {
    TierCharacterization(grade);
  }

  /** The colour identifies the tier: two bars share a colour exactly when their grades share a tier. */
  lemma BarColorIdentifiesTier(g1: Option<int>, g2: Option<int>)
    ensures BarColor(g1) == BarColor(g2) <==> GetSettlementTier(g1) == GetSettlementTier(g2)
  {
    TierColorsDistinct(GetSettlementTier(g1), GetSettlementTier(g2));
  }

  /** A zero width does not mean NoData: grade 0 draws an empty red bar, and grades past 100 overflow. */
  lemma WidthUnclamped()
    ensures BarWidth(Some(0)) == 0 && GetSettlementTier(Some(0)) == Unverified && Label(Some(0)) == GradeText(0)
    ensures BarWidth(Some(150)) == 150 && BarWidth(Some(-5)) == -5
  {
  }
}
