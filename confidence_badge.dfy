/**
 * The confidence badge: a score in [0, 1] is shown as one of three bands,
 * each with its own colour classes.
 */
module ConfidenceBadge {

  datatype Label = High | Medium | Low

  datatype Color = Green | Amber | Red

  /** The CSS classes each colour stands for. */
  function ClassNames(c: Color): string
  {
    match c
    case Green => "bg-green-100 text-green-800 border-green-200"
    case Amber => "bg-amber-100 text-amber-800 border-amber-200"
    case Red => "bg-red-100 text-red-800 border-red-200"
  }

  function GetColor(score: real): Color
  {
    if score >= 0.8 then Green
    else if score >= 0.6 then Amber
    else Red
  }

  function GetLabel(score: real): Label
  {
    if score >= 0.8 then High
    else if score >= 0.6 then Medium
    else Low
  }

  /** The colour that belongs to a band. */
  function ColorOf(l: Label): Color
  {
    match l
    case High => Green
    case Medium => Amber
    case Low => Red
  }

  /** Bands ordered from Low to High. */
  function Rank(l: Label): nat
  {
    match l
    case Low => 0
    case Medium => 1
    case High => 2
  }

  /** The three bands partition the scores at 0.6 and 0.8. */
  lemma LabelBands(score: real)
    ensures GetLabel(score) == High <==> score >= 0.8
    ensures GetLabel(score) == Medium <==> 0.6 <= score < 0.8
    ensures GetLabel(score) == Low <==> score < 0.6
  {
  }

  /** The badge's colour always agrees with its label. */
  lemma ColorMatchesLabel(score: real)
    ensures GetColor(score) == ColorOf(GetLabel(score))
  {
  }

  /** Raising the confidence never lowers the band. */
  lemma LabelMonotone(a: real, b: real)
    requires a <= b
    ensures Rank(GetLabel(a)) <= Rank(GetLabel(b))
  {
  }
}
