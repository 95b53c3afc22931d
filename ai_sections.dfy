/**
 * How the backend cuts a generated answer into two sections: at the first
 * occurrence of a separator line, with both halves stripped, or a fixed
 * fallback when the separator is missing (identify_pest and
 * detailed_recommendation). The text itself comes from the language model
 * and is an input here.
 */
module AiSections {
  import opened Basics
  import opened Text

  const TreatmentSeparator: string := "---TREATMENT---"
  const AnalysisSeparator: string := "---ANALYSIS---"

  const MissingTreatment: string := "AI did not provide a separate treatment section. The full response is above."
  const MissingCrops: string := "Could not determine specific crops."
  const UnformattedPrefix: string := "AI response was not in the expected format, but here is the full text:\n\n"

  /** `text.split(sep, 1)`, or `None` when `sep in text` is false. */
  function SplitOnce(text: string, sep: string): (r: Option<(string, string)>)
    ensures r.Some? <==> Contains(text, sep)
    ensures r.Some? ==> r.value.0 + sep + r.value.1 == text
    ensures r.Some? ==> forall j: nat :: j < |r.value.0| ==> !OccursAt(text, sep, j)
  {
    match IndexOf(text, sep)
    case None => None
    case Some(i) =>
      assert text == text[..i] + text[i..i + |sep|] + text[i + |sep|..];
      Some((text[..i], text[i + |sep|..]))
  }

  datatype PestReport = PestReport(identification: string, treatment: string)

  /** The two sections of identify_pest's answer. */
  function PestSections(fullText: string): PestReport {
    match SplitOnce(fullText, TreatmentSeparator)
    case Some((before, after)) => PestReport(Strip(before, Python), Strip(after, Python))
    case None => PestReport(fullText, MissingTreatment)
  }

  datatype CropAdvice = CropAdvice(crops: string, analysis: string)

  /** The two sections of detailed_recommendation's answer. */
  function RecommendationSections(fullText: string): CropAdvice {
    match SplitOnce(fullText, AnalysisSeparator)
    case Some((before, after)) => CropAdvice(Strip(before, Python), Strip(after, Python))
    case None => CropAdvice(MissingCrops, UnformattedPrefix + fullText)
  }

  /** `i` is where `sep` first occurs in `text`. */
  predicate FirstOccurrence(text: string, sep: string, i: nat) {
    OccursAt(text, sep, i) && forall j: nat :: j < i ==> !OccursAt(text, sep, j)
  }

  /** The split happens at the first occurrence, whose position is unique. */
  lemma SplitOnceAtFirst(text: string, sep: string, i: nat)
    requires FirstOccurrence(text, sep, i)
    ensures SplitOnce(text, sep) == Some((text[..i], text[i + |sep|..]))
  {
  }

  /**
   * identify_pest: with the separator, both halves around its first occurrence
   * stripped; without it, the whole text and the fixed treatment notice.
   */
  lemma PestSectionsSpec(text: string)
    ensures forall i: nat :: FirstOccurrence(text, TreatmentSeparator, i) ==>
      PestSections(text) == PestReport(Strip(text[..i], Python), Strip(text[i + |TreatmentSeparator|..], Python))
    ensures (forall i: nat :: !OccursAt(text, TreatmentSeparator, i)) ==>
      PestSections(text) == PestReport(text, MissingTreatment)
  {
    forall i: nat | FirstOccurrence(text, TreatmentSeparator, i)
      ensures PestSections(text) == PestReport(Strip(text[..i], Python), Strip(text[i + |TreatmentSeparator|..], Python))
    {
      SplitOnceAtFirst(text, TreatmentSeparator, i);
    }
  }

  /**
   * Python's `strip` also removes the ASCII separators U+001C to U+001F, so a
   * leading file separator is not part of the identification.
   */
  lemma PestSectionsStripsSeparators()
    ensures PestSections([28 as char] + "A" + TreatmentSeparator + "B") == PestReport("A", "B")
  {
    var text := [28 as char] + "A" + TreatmentSeparator + "B";
    assert OccursAt(text, TreatmentSeparator, 2) by { assert text[2..2 + |TreatmentSeparator|] == TreatmentSeparator; }
    assert text[0..|TreatmentSeparator|][0] != TreatmentSeparator[0];
    assert text[1..1 + |TreatmentSeparator|][0] != TreatmentSeparator[0];
    SplitOnceAtFirst(text, TreatmentSeparator, 2);
    assert text[..2] == [28 as char] + "A" && text[2 + |TreatmentSeparator|..] == "B";
    StripSeparatorControl();
    StripLetter('B', Python);
  }

  /** Python's `strip` removes a leading U+001C (the ASCII file separator). */
  lemma StripSeparatorControl()
    ensures Strip([28 as char] + "A", Python) == "A"
  {
    var s := [28 as char] + "A";
    assert IsSpace(s[0], Python) && s[1..] == "A";
    assert StripStart(s, Python) == StripStart("A", Python);
    StripLetter('A', Python);
  }

  /** A single non-whitespace character is its own strip. */
  lemma StripLetter(c: char, rt: Runtime)
    requires !IsSpace(c, rt)
    ensures Strip([c], rt) == [c]
  {
  }

  /**
   * detailed_recommendation: with the separator, both halves around its first
   * occurrence stripped; without it, the fixed crops notice and the whole text
   * behind the fixed prefix.
   */
  lemma RecommendationSectionsSpec(text: string)
    ensures forall i: nat :: FirstOccurrence(text, AnalysisSeparator, i) ==>
      RecommendationSections(text) == CropAdvice(Strip(text[..i], Python), Strip(text[i + |AnalysisSeparator|..], Python))
    ensures (forall i: nat :: !OccursAt(text, AnalysisSeparator, i)) ==>
      RecommendationSections(text) == CropAdvice(MissingCrops, UnformattedPrefix + text)
  {
    forall i: nat | FirstOccurrence(text, AnalysisSeparator, i)
      ensures RecommendationSections(text) == CropAdvice(Strip(text[..i], Python), Strip(text[i + |AnalysisSeparator|..], Python))
    {
      SplitOnceAtFirst(text, AnalysisSeparator, i);
    }
  }
}
