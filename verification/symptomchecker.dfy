/**
 * The symptom checker page (src/pages/SymptomChecker.tsx): a non-blank
 * description is analysed after a delay by a keyword classifier that
 * ignores letter case. Pain or ache wins over gum or bleeding; every answer
 * ends with the same disclaimer. The 2-second timer is modelled as a queue of
 * pending analyses, each holding the text it was started with.
 */
module SymptomChecker {

  import opened Wrappers
  import opened Strings
  import Validation

  const Disclaimer := "Note: This is a preliminary assessment. Please consult with a dentist for proper diagnosis."

  const SensitivityAdvice := "Based on your symptoms, you may be experiencing dental sensitivity or early signs of a cavity. We recommend:\n\n"
    + "\U{2022} Schedule a dental examination within the next week\n"
    + "\U{2022} Avoid very hot or cold foods temporarily\n"
    + "\U{2022} Use a toothpaste designed for sensitive teeth\n"
    + "\U{2022} Maintain regular brushing and flossing\n\n"

  const GumAdvice := "Your symptoms suggest possible gum inflammation (gingivitis). We recommend:\n\n"
    + "\U{2022} Schedule a dental cleaning and checkup\n"
    + "\U{2022} Use an antiseptic mouthwash\n"
    + "\U{2022} Brush gently but thoroughly twice daily\n"
    + "\U{2022} Floss carefully once per day\n"
    + "\U{2022} Consider a softer toothbrush\n\n"

  const GeneralAdvice := "Based on your description, we recommend:\n\n"
    + "\U{2022} Schedule a comprehensive dental examination\n"
    + "\U{2022} Continue with regular oral hygiene practices\n"
    + "\U{2022} Monitor your symptoms and note any changes\n"
    + "\U{2022} Avoid self-medication\n\n"
    + "A professional evaluation will help determine the exact cause and appropriate treatment.\n\n"

  /** Which of the three answers a description gets. */
  datatype Finding = Sensitivity | Gingivitis | General

  /** The keyword rules, checked in order on the lower-cased text. */
  function Classify(text: string): (f: Finding) {
    var lower := Lower(text);
    if Contains(lower, "pain") || Contains(lower, "ache") then Sensitivity
    else if Contains(lower, "bleed") || Contains(lower, "gum") then Gingivitis
    else General
  }

  /** The advice text of each finding, before the disclaimer. */
  function Advice(f: Finding): string {
    match f
    case Sensitivity => SensitivityAdvice
    case Gingivitis => GumAdvice
    case General => GeneralAdvice
  }

  /** `generateMockRecommendation`: the answer for the finding, closed by the disclaimer. */
  function Recommendation(text: string): (r: string)
    ensures r == Advice(Classify(text)) + Disclaimer
    ensures |r| > |Disclaimer| && r[|r| - |Disclaimer|..] == Disclaimer
  {
    var advice := Advice(Classify(text));
    assert (advice + Disclaimer)[|advice|..] == Disclaimer;
    advice + Disclaimer
  }

  /** Letter case never changes the answer. */
  lemma CaseIgnored(text: string)
    ensures Classify(Lower(text)) == Classify(text)
  {
    LowerIdempotent(text);
  }

  /**
   * A description that contains "pain" in any letter case gets the
   * sensitivity answer, whatever else it mentions (gums or bleeding included).
   */
  lemma PainWins(before: string, word: string, after: string)
    requires Lower(word) == "pain"
    ensures Classify(before + word + after) == Sensitivity
  {
    LowerConcat(before + word, after);
    LowerConcat(before, word);
    InfixOfConcat(Lower(before), "pain", Lower(after));
  }

  /** A description that contains "ache" in any letter case gets the sensitivity answer, whatever else it mentions. */
  lemma AcheWins(before: string, word: string, after: string)
    requires Lower(word) == "ache"
    ensures Classify(before + word + after) == Sensitivity
  {
    LowerConcat(before + word, after);
    LowerConcat(before, word);
    InfixOfConcat(Lower(before), "ache", Lower(after));
  }

  /** Without "pain" or "ache", a mention of gums gets the gingivitis answer. */
  lemma GumsWithoutPain(before: string, word: string, after: string)
    requires Lower(word) == "gum"
    requires !Contains(Lower(before + word + after), "pain") && !Contains(Lower(before + word + after), "ache")
    ensures Classify(before + word + after) == Gingivitis
  {
    LowerConcat(before + word, after);
    LowerConcat(before, word);
    InfixOfConcat(Lower(before), "gum", Lower(after));
  }

  /** Without "pain" or "ache", a mention of bleeding gets the gingivitis answer. */
  lemma BleedWithoutPain(before: string, word: string, after: string)
    requires Lower(word) == "bleed"
    requires !Contains(Lower(before + word + after), "pain") && !Contains(Lower(before + word + after), "ache")
    ensures Classify(before + word + after) == Gingivitis
  {
    LowerConcat(before + word, after);
    LowerConcat(before, word);
    InfixOfConcat(Lower(before), "bleed", Lower(after));
  }

  /** The general answer comes exactly when none of the four keywords occurs, in any letter case. */
  lemma NoKeywordIsGeneral(text: string)
    ensures Classify(text) == General
            <==> !Contains(Lower(text), "pain") && !Contains(Lower(text), "ache")
                 && !Contains(Lower(text), "bleed") && !Contains(Lower(text), "gum")
  {
  }

  /** `symptoms.trim()` is truthy: the description is not blank. */
  function Analyzable(symptoms: string): (b: bool)
    ensures b <==> !AllSpace(symptoms)
  {
    TrimEmptyIffBlank(symptoms);
    Trim(symptoms) != ""
  }

  /**
   * The page checks only for a blank description: a short one such as
   * "ache", which the symptom schema's 10-character minimum rejects, is
   * analysed.
   */
  lemma ShortDescriptionAnalyzed()
    ensures Analyzable("ache") && Validation.ParseSymptoms("ache").None?
    ensures Classify("ache") == Sensitivity
  {
    AcheIsTrimmed();
    AcheIsSensitivity();
  }

  lemma AcheIsTrimmed()
    ensures Trim("ache") == "ache" && !AllSpace("ache")
  {
    assert !IsSpace("ache"[0]) && !IsSpace("ache"[3]);
    TrimOfTrimmed("ache");
  }

  lemma AcheIsSensitivity()
    ensures Classify("ache") == Sensitivity
  {
    assert Lower("ache") == "ache";
    AcheWins("", "ache", "");
    assert "" + "ache" + "" == "ache";
  }

  class Page {
    var symptoms: string
    var recommendation: Option<string>
    var analyzing: bool
    /** The texts of the analyses started and not yet finished, oldest first. */
    var pending: seq<string>

    constructor ()
      ensures symptoms == "" && recommendation == None && !analyzing && pending == []
    {
      symptoms := "";
      recommendation := None;
      analyzing := false;
      pending := [];
    }

    method SetSymptoms(text: string)
      modifies this`symptoms
      ensures symptoms == text
    {
      symptoms := text;
    }

    /** `handleAnalyze`: a blank description starts nothing. */
    method HandleAnalyze()
      modifies this`analyzing, this`pending
      ensures Analyzable(symptoms) ==> analyzing && pending == old(pending) + [symptoms]
      ensures !Analyzable(symptoms) ==> analyzing == old(analyzing) && pending == old(pending)
    {
      if Analyzable(symptoms) {
        analyzing := true;
        pending := pending + [symptoms];
      }
    }

    /** The oldest timer fires: its text's recommendation is shown and analysing ends. */
    method TimerFires()
      modifies this`recommendation, this`analyzing, this`pending
      ensures old(pending) == [] ==> recommendation == old(recommendation) && analyzing == old(analyzing) && pending == []
      ensures old(pending) != [] ==> recommendation == Some(Recommendation(old(pending)[0])) && !analyzing
                                     && pending == old(pending)[1..]
    {
      if pending != [] {
        recommendation := Some(Recommendation(pending[0]));
        analyzing := false;
        pending := pending[1..];
      }
    }
  }
}
