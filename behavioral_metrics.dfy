/** The behavioural-metrics view: the risk gauge's colour and label, the sign
    indicator of the KPI cards, and the change column of the domain table. */
module BehavioralMetrics {

  import opened Options
  import opened Decimal
  import opened RiskBands

  // ---------------------------------------------------------------------------
  // The risk gauge

  /** The needle, score and badge colour. */
  function GetColor(score: int): string
  {
    if score < 30 then "#10b981" else if score < 60 then "#f59e0b" else "#ef4444"
  }

  /** The badge text. */
  function GetRisk(score: int): string
  {
    if score < 30 then "Low Risk" else if score < 60 then "Moderate Risk" else "High Risk"
  }

  /** Each label and each colour belongs to exactly one score range. */
  lemma GaugeThresholds(score: int)
    ensures GetRisk(score) == "Low Risk" <==> score < 30
    ensures GetRisk(score) == "Moderate Risk" <==> 30 <= score < 60
    ensures GetRisk(score) == "High Risk" <==> 60 <= score
    ensures GetColor(score) == "#10b981" <==> score < 30
    ensures GetColor(score) == "#f59e0b" <==> 30 <= score < 60
    ensures GetColor(score) == "#ef4444" <==> 60 <= score
  {
  }

  /** The colour and the label always name the same band: two scores share a
      colour exactly when they share a label, and exactly when they share a band. */
  lemma ColorAgreesWithRisk(s1: int, s2: int)
    ensures GetColor(s1) == GetColor(s2) <==> GetRisk(s1) == GetRisk(s2)
    ensures GetRisk(s1) == GetRisk(s2) <==> BandOf(s1) == BandOf(s2)
  {
  }

  /** The gauge on the page is drawn for a score of 42. */
  const GaugeScore: int := 42

  lemma PageGauge()
    ensures GetRisk(GaugeScore) == "Moderate Risk" && GetColor(GaugeScore) == "#f59e0b"
  {
  }

  // ---------------------------------------------------------------------------
  // The KPI cards

  datatype TrendIcon = TrendingUp | TrendingDown | Minus

  /** The card has a change, and it is above zero. */
  predicate IsPositive(change: Option<int>)
  {
    change.Some? && change.value > 0
  }

  /** The card has a change, and it is below zero. */
  predicate IsNegative(change: Option<int>)
  {
    change.Some? && change.value < 0
  }

  function CardIcon(change: Option<int>): TrendIcon
  {
    if IsPositive(change) then TrendingUp else if IsNegative(change) then TrendingDown else Minus
  }

  /** The colour class of the change figure. */
  function CardChangeColor(change: Option<int>): string
  {
    if IsPositive(change) then "text-emerald-600"
    else if IsNegative(change) then "text-red-600"
    else "text-muted-foreground"
  }

  /** The colour class of the trend icon, a lighter shade of the figure's. */
  function CardIconColor(change: Option<int>): string
  {
    if IsPositive(change) then "text-emerald-500"
    else if IsNegative(change) then "text-red-500"
    else "text-muted-foreground"
  }

  /** The icon's colour names the same sign as the figure's colour and as the icon itself. */
  lemma IconColorFollowsFigure(change: Option<int>)
    ensures CardIconColor(change) == "text-emerald-500" <==> CardChangeColor(change) == "text-emerald-600"
    ensures CardIconColor(change) == "text-red-500" <==> CardChangeColor(change) == "text-red-600"
    ensures CardIconColor(change) == "text-muted-foreground" <==> CardChangeColor(change) == "text-muted-foreground"
    ensures CardIconColor(change) == "text-muted-foreground" <==> CardIcon(change) == Minus
  {
  }

  /** The change figure, `+8%` or `-22%`; a card without a change shows no figure. */
  function CardChangeText(change: Option<int>): (r: Option<string>)
    ensures r.Some? <==> change.Some?
  {
    if change.None? then None
    else Some((if IsPositive(change) then "+" else "") + IntToString(change.value) + "%")
  }

  /** A card is never both rising and falling; without a change, or with a
      change of 0, it shows the neutral icon. */
  lemma CardSignsExclusive(change: Option<int>)
    ensures !(IsPositive(change) && IsNegative(change))
    ensures CardIcon(change) == Minus <==> change.None? || change == Some(0)
    ensures CardIcon(change) == TrendingUp <==> change.Some? && change.value > 0
    ensures CardIcon(change) == TrendingDown <==> change.Some? && change.value < 0
  {
  }

  /** The icon and the colour of the figure always agree. */
  lemma CardColorFollowsIcon(change: Option<int>)
    ensures CardChangeColor(change) == "text-emerald-600" <==> CardIcon(change) == TrendingUp
    ensures CardChangeColor(change) == "text-red-600" <==> CardIcon(change) == TrendingDown
  {
  }

  /** The figure starts with "+" exactly for a rise, with "-" exactly for a
      fall, ends in "%", and what precedes the "%" reads back as the change. */
  lemma CardChangeTextShape(c: int)
    ensures var t := CardChangeText(Some(c)).value;
      |t| >= 2 && t[|t| - 1] == '%'
      && (t[0] == '+' <==> c > 0)
      && (t[0] == '-' <==> c < 0)
      && ParseInteger(t[..|t| - 1]) == Some(c)
  {
    var t := CardChangeText(Some(c)).value;
    var digits := IntToString(c);
    if c > 0 {
      assert t == "+" + digits + "%";
      assert t[..|t| - 1] == "+" + IntToString(c);
      PlusSignedRoundTrip(c);
    } else {
      assert t == digits + "%";
      assert t[..|t| - 1] == digits;
      IntToStringRoundTrip(c);
      assert c == 0 ==> digits == "0";
    }
  }

  /** The changes of the four KPI cards, in page order. */
  const CardChanges: seq<int> := [8, 33, -22, 18]

  /** Only the "Repetitive Behaviors" card (the third) falls, and it reads "-22%". */
  lemma PageCards()
    ensures forall i :: 0 <= i < |CardChanges| ==>
      (CardIcon(Some(CardChanges[i])) == TrendingDown <==> i == 2)
    ensures CardChangeText(Some(CardChanges[2])) == Some("-22%")
  {
    assert DigitChar(2) == '2' && 22 / 10 == 2 && 22 % 10 == 2;
    assert NatToString(22) == "22";
    assert IntToString(-22) == "-22";
    assert "" + "-22" + "%" == "-22%";
  }

  // ---------------------------------------------------------------------------
  // The domain table's change column

  datatype DomainRow = DomainRow(domain: string, instrument: string, score: int, pct: int,
    classification: string,  // `class` in the table (a reserved word here)
    change: int)

  /** Rises get an up arrow; every other change, 0 included, a down arrow. */
  function RowArrow(change: int): TrendIcon
  {
    if change > 0 then TrendingUp else TrendingDown
  }

  function RowChangeColor(change: int): string
  {
    if change > 0 then "text-emerald-600" else "text-red-600"
  }

  /** The change figure, with "+" before rises and no unit. */
  function RowChangeText(change: int): string
  {
    (if change > 0 then "+" else "") + IntToString(change)
  }

  /** Up arrow, green and "+" exactly for a rise; a down arrow and red otherwise,
      so an unchanged domain is drawn as a fall. The figure reads back as the change. */
  lemma RowChangeShape(change: int)
    ensures RowArrow(change) == TrendingUp <==> change > 0
    ensures RowChangeColor(change) == "text-emerald-600" <==> change > 0
    ensures RowChangeText(change)[0] == '+' <==> change > 0
    ensures ParseInteger(RowChangeText(change)) == Some(change)
    ensures change == 0 ==> RowArrow(change) == TrendingDown && RowChangeText(change) == "0"
  {
    if change > 0 {
      PlusSignedRoundTrip(change);
    } else {
      assert RowChangeText(change) == IntToString(change);
      IntToStringRoundTrip(change);
    }
  }

  /** The table's rows, in page order. */
  const DomainRows: seq<DomainRow> := [
    DomainRow("Social Communication", "ADOS-2", 72, 38, "Moderate", 4),
    DomainRow("Restricted/Repetitive", "ADOS-2", 58, 22, "Moderate-Severe", -6),
    DomainRow("Adaptive Behavior", "Vineland III", 81, 52, "Adequate", 8),
    DomainRow("Daily Living Skills", "VABS", 76, 44, "Moderately Low", 3),
    DomainRow("Motor Development", "Bayley-4", 88, 68, "Average", 5)
  ]

  /** Only the "Restricted/Repetitive" row (the second) is drawn as a fall. */
  lemma PageRows()
    ensures forall i :: 0 <= i < |DomainRows| ==> (RowArrow(DomainRows[i].change) == TrendingDown <==> i == 1)
  {
  }

  /** The card and the table disagree on a change of 0: the card is neutral,
      the table shows a fall. On every other change they agree. */
  lemma CardAndRowOnZero(change: int)
    ensures change == 0 ==> CardIcon(Some(change)) == Minus && RowArrow(change) == TrendingDown
    ensures change != 0 ==> CardIcon(Some(change)) == RowArrow(change)
  {
  }
}
