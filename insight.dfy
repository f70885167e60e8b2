/** The growth-insight request, reduced to what it decides locally: the guard
    for an empty review list and the fallback strings. The prompt and the
    text-generation service are outside the model; the service's answer is a
    parameter. */
module Insight {
  import opened Types

  const NotEnoughData: string := "Not enough data for insights yet."
  const GenerationFailed: string := "Insight generation failed."
  const Foggy: string := "The mirror is currently foggy. Try again later."

  /** What the generation service did: answered (possibly without text), or
      failed with an error. */
  datatype ServiceOutcome = Answered(text: Option<string>) | Failed

  /** The string shown for a growth-insight request: the fixed message for an
      empty review list (the service is not consulted), the service's text
      when it returned a non-empty one, otherwise a fixed fallback. It is
      never empty, so the page always has something to show. */
  function MirrorInsight(reviews: seq<Review>, outcome: ServiceOutcome): (s: string)
    ensures s != []
    ensures reviews == [] ==> s == NotEnoughData
    ensures reviews != [] && outcome.Failed? ==> s == Foggy
    ensures reviews != [] && outcome.Answered? && outcome.text.Some? && outcome.text.value != [] ==>
      s == outcome.text.value
    ensures reviews != [] && outcome.Answered? && (outcome.text.None? || outcome.text.value == []) ==>
      s == GenerationFailed
    ensures s in {NotEnoughData, GenerationFailed, Foggy} || outcome == Answered(Some(s))
  {
    if reviews == [] then NotEnoughData
    else
      match outcome
      case Failed => Foggy
      case Answered(text) =>
        if text.Some? && text.value != [] then text.value else GenerationFailed
  }

  /** An empty review list never depends on the service. */
  lemma EmptyIgnoresService(o1: ServiceOutcome, o2: ServiceOutcome)
    ensures MirrorInsight([], o1) == MirrorInsight([], o2)
  {
  }
}
