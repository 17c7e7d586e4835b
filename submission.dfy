/** The recap page's label lookups: four rating tables read by index with
    an empty-string fallback, and the level names of the competency
    scale. */
module SubmissionPage {

  import opened Text
  import opened FormTypes

  /** The overall rating scale. */
  const RatingLabels: seq<String> := ["", "Insuffisant", "Passable", "Bien", "Très bien", "Excellent"]

  const InvolvementLabels: seq<String> :=
    ["", "Paresseux", "Le juste nécessaire", "Bonne", "Très forte", "Dépasse ses objectifs"]

  const OpennessLabels: seq<String> :=
    ["", "Isolé(e) ou en opposition", "Renfermé(e) ou obtus", "Bonne", "Très bonne", "Excellente"]

  const QualityLabels: seq<String> :=
    ["", "Médiocre", "Acceptable", "Bonne", "Très bonne", "Très professionnelle"]

  /** A rating table: six entries, the one at index 0 empty and the five
      others not. */
  predicate IsLabelTable(labels: seq<String>) {
    |labels| == 6 && labels[0] == "" && forall i :: 1 <= i < 6 ==> labels[i] != ""
  }

  lemma LabelTablesShape()
    ensures IsLabelTable(RatingLabels) && IsLabelTable(InvolvementLabels)
    ensures IsLabelTable(OpennessLabels) && IsLabelTable(QualityLabels)
  {
  }

  /** `labels[rating] || ""`: an index outside the array reads `undefined`,
      which falls back to "". */
  function LabelAt(labels: seq<String>, rating: int): (r: String)
    ensures 0 <= rating < |labels| ==> r == labels[rating]
    ensures !(0 <= rating < |labels|) ==> r == ""
  {
    if 0 <= rating < |labels| then labels[rating] else ""
  }

  /** On a rating table the label is present exactly for ratings 1 to 5. */
  lemma LabelAtTable(labels: seq<String>, rating: int)
    requires IsLabelTable(labels)
    ensures LabelAt(labels, rating) != "" <==> 1 <= rating <= 5
    ensures 1 <= rating <= 5 ==> LabelAt(labels, rating) == labels[rating]
  {
  }

  function GetRatingLabel(rating: int): (r: String)
    ensures r != "" <==> 1 <= rating <= 5
    ensures 1 <= rating <= 5 ==> r == RatingLabels[rating]
  {
    LabelAtTable(RatingLabels, rating);
    LabelAt(RatingLabels, rating)
  }

  function GetInvolvementLabel(rating: int): (r: String)
    ensures r != "" <==> 1 <= rating <= 5
    ensures 1 <= rating <= 5 ==> r == InvolvementLabels[rating]
  {
    LabelAtTable(InvolvementLabels, rating);
    LabelAt(InvolvementLabels, rating)
  }

  function GetOpennessLabel(rating: int): (r: String)
    ensures r != "" <==> 1 <= rating <= 5
    ensures 1 <= rating <= 5 ==> r == OpennessLabels[rating]
  {
    LabelAtTable(OpennessLabels, rating);
    LabelAt(OpennessLabels, rating)
  }

  function GetQualityLabel(rating: int): (r: String)
    ensures r != "" <==> 1 <= rating <= 5
    ensures 1 <= rating <= 5 ==> r == QualityLabels[rating]
  {
    LabelAtTable(QualityLabels, rating);
    LabelAt(QualityLabels, rating)
  }

  const NotEvaluated: String := "Non évalué"

  /** The name of a competency level; anything that is not one of the
      four levels, "" included, reads as not evaluated. */
  function GetCompetencyLevelLabel(level: String): (r: String)
    ensures r == NotEvaluated <==> !IsLevel(level)
    ensures level == "NA" ==> r == "Non applicable"
    ensures level == "DEBUTANT" ==> r == "Débutant"
    ensures level == "AUTONOME" ==> r == "Autonome"
    ensures level == "AUTONOME_PLUS" ==> r == "Autonome +"
  {
    if level == "NA" then "Non applicable"
    else if level == "DEBUTANT" then "Débutant"
    else if level == "AUTONOME" then "Autonome"
    else if level == "AUTONOME_PLUS" then "Autonome +"
    else NotEvaluated
  }

  /** The four levels get four different names. */
  lemma LevelLabelsDistinct(a: String, b: String)
    requires IsLevel(a) && IsLevel(b) && a != b
    ensures GetCompetencyLevelLabel(a) != GetCompetencyLevelLabel(b)
  {
  }
}
