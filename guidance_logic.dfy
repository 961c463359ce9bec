/** Classification of a reading against the baseline corridor, and the
    label and colour tables that present the three categories. */
module GuidanceLogic {
  import opened Basics

  /** The three shared theme colours (`Theme.guidanceBelow` and so on). */
  datatype ThemeColor = GuidanceBelowColor | GuidanceWithinColor | GuidanceAboveColor

  datatype GuidanceCategory = Below | Within | Above
  {
    /** Labels in the readings list. */
    function ListLabel(): string
    {
      match this
      case Below => "Below"
      case Within => "Baseline"
      case Above => "Above"
    }

    /** Labels of the training-guidance pill. */
    function GuidanceLabel(): string
    {
      match this
      case Below => "Take Rest"
      case Within => "Train Normally"
      case Above => "Go Hard"
    }

    /** Labels of the trend-guidance pill. */
    function TrendGuidanceLabel(): string
    {
      match this
      case Below => "Take deload"
      case Within => "Train Normally"
      case Above => "Fully recovered"
    }

    function ListColor(): ThemeColor
    {
      match this
      case Below => GuidanceBelowColor
      case Within => GuidanceWithinColor
      case Above => GuidanceAboveColor
    }

    function GuidanceColor(): ThemeColor
    {
      match this
      case Below => GuidanceBelowColor
      case Within => GuidanceWithinColor
      case Above => GuidanceAboveColor
    }

    /** Position in the order below < within < above. */
    function Rank(): nat
    {
      match this
      case Below => 0
      case Within => 1
      case Above => 2
    }
  }

  function Classify(value: real, baseline: Corridor): (cat: GuidanceCategory)
    ensures cat == Below <==> value < baseline.min
    ensures cat == Above <==> value >= baseline.min && value > baseline.max
    ensures cat == Within <==> baseline.min <= value <= baseline.max
  {
    if value < baseline.min then Below
    else if value > baseline.max then Above
    else Within
  }

  /** With an ordered corridor, a larger value never gets a lower category. */
  lemma ClassifyIsMonotone(v1: real, v2: real, baseline: Corridor)
    requires baseline.min <= baseline.max
    requires v1 <= v2
    ensures Classify(v1, baseline).Rank() <= Classify(v2, baseline).Rank()
  {
  }

  /** A label and a colour, as the three presentation helpers return them. */
  datatype Tag = Tag(text: string, color: ThemeColor)

  /** The tag of a reading in the list. */
  function ListTag(value: real, baseline: Corridor): (t: Tag)
    ensures value < baseline.min ==> t == Tag("Below", GuidanceBelowColor)
    ensures baseline.min <= value <= baseline.max ==> t == Tag("Baseline", GuidanceWithinColor)
    ensures value >= baseline.min && value > baseline.max ==> t == Tag("Above", GuidanceAboveColor)
  {
    var cat := Classify(value, baseline);
    Tag(cat.ListLabel(), cat.GuidanceColor())
  }

  /** The training-guidance pill for the latest reading. */
  function TrainingGuidance(value: real, baseline: Corridor): (t: Tag)
    ensures value < baseline.min ==> t == Tag("Take Rest", GuidanceBelowColor)
    ensures baseline.min <= value <= baseline.max ==> t == Tag("Train Normally", GuidanceWithinColor)
    ensures value >= baseline.min && value > baseline.max ==> t == Tag("Go Hard", GuidanceAboveColor)
  {
    var cat := Classify(value, baseline);
    Tag(cat.GuidanceLabel(), cat.GuidanceColor())
  }

  /** The trend-guidance pill for the moving average. */
  function TrendGuidance(value: real, baseline: Corridor): (t: Tag)
    ensures value < baseline.min ==> t == Tag("Take deload", GuidanceBelowColor)
    ensures baseline.min <= value <= baseline.max ==> t == Tag("Train Normally", GuidanceWithinColor)
    ensures value >= baseline.min && value > baseline.max ==> t == Tag("Fully recovered", GuidanceAboveColor)
  {
    var cat := Classify(value, baseline);
    Tag(cat.TrendGuidanceLabel(), cat.GuidanceColor())
  }

  /** The three helpers agree on the colour; only the label table differs. */
  lemma TagsShareColor(value: real, baseline: Corridor)
    ensures ListTag(value, baseline).color == TrainingGuidance(value, baseline).color
    ensures TrainingGuidance(value, baseline).color == TrendGuidance(value, baseline).color
  {
  }

  /** The list colour and the guidance colour are one table. */
  lemma ListColorIsGuidanceColor(cat: GuidanceCategory)
    ensures cat.ListColor() == cat.GuidanceColor()
  {
  }

  /** Each label table tells the three categories apart, and so does the colour. */
  lemma LabelTablesAreInjective(c1: GuidanceCategory, c2: GuidanceCategory)
    requires c1 != c2
    ensures c1.ListLabel() != c2.ListLabel()
    ensures c1.GuidanceLabel() != c2.GuidanceLabel()
    ensures c1.TrendGuidanceLabel() != c2.TrendGuidanceLabel()
    ensures c1.GuidanceColor() != c2.GuidanceColor()
  {
  }
}
