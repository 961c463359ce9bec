/** Feedback sentences for a category and a trend, and the action
    suggested for a category. */
module PerformanceFeedback {
  import opened GuidanceLogic
  import opened TrendAnalysis

  const ConsultProvider: string := "Consider consulting a healthcare provider about your grip strength."

  function Message(category: GuidanceCategory, trend: TrendDirection): (m: string)
    ensures m == ConsultProvider <==> category == Below && trend == Declining
  {
    match (category, trend)
    case (Above, Improving) => "Excellent! Your grip strength is above baseline and improving."
    case (Above, Stable) => "Great work! You're maintaining strength above your baseline."
    case (Above, Declining) => "Good strength level, but consider more consistent training."
    case (Within, Improving) => "Nice progress! You're moving toward stronger grip strength."
    case (Within, Stable) => "You're maintaining your baseline strength well."
    case (Within, Declining) => "Consider increasing training frequency to build strength."
    case (Below, Improving) => "Good progress! Keep up the consistent training."
    case (Below, Stable) => "Focus on consistent grip training to build strength."
    case (Below, Declining) => ConsultProvider
  }

  /** The action suggested for a category. */
  function ActionSuggestion(category: GuidanceCategory): (s: string)
    ensures category == Above ==> s == "Maintain your current routine"
    ensures category == Within ==> s == "Consider progressive overload"
    ensures category == Below ==> s == "Focus on consistent training"
  {
    match category
    case Above => "Maintain your current routine"
    case Within => "Consider progressive overload"
    case Below => "Focus on consistent training"
  }

  /** Every pair of category and trend gets its own message. */
  lemma MessagesAreDistinct(c1: GuidanceCategory, t1: TrendDirection, c2: GuidanceCategory, t2: TrendDirection)
    requires (c1, t1) != (c2, t2)
    ensures Message(c1, t1) != Message(c2, t2)
  {
    MessageLength(c1, t1);
    MessageLength(c2, t2);
    if Length(c1, t1) == Length(c2, t2) {
      // only two pairs of messages share a length
      SameLengthMessagesDiffer();
    }
  }

  lemma SameLengthMessagesDiffer()
    ensures Message(Above, Declining) != Message(Within, Improving)
    ensures Message(Within, Stable) != Message(Below, Improving)
  {
  }

  function Length(category: GuidanceCategory, trend: TrendDirection): nat
  {
    match (category, trend)
    case (Above, Improving) => 62
    case (Above, Stable) => 60
    case (Above, Declining) => 59
    case (Within, Improving) => 59
    case (Within, Stable) => 47
    case (Within, Declining) => 57
    case (Below, Improving) => 47
    case (Below, Stable) => 52
    case (Below, Declining) => 67
  }

  lemma MessageLength(category: GuidanceCategory, trend: TrendDirection)
    ensures |Message(category, trend)| == Length(category, trend)
  {
  }

  /** Every category gets its own suggestion. */
  lemma SuggestionsAreDistinct(c1: GuidanceCategory, c2: GuidanceCategory)
    requires c1 != c2
    ensures ActionSuggestion(c1) != ActionSuggestion(c2)
  {
  }
}
