/**
 * `analyzeResume`: runs the twelve checks on the extracted resume text and
 * the uploaded file's metadata, and scores them.
 */
module Analysis {
  import opened Chars
  import opened TextSearch
  import opened Tokenizer
  import opened Patterns
  import opened Report
  import opened ContentChecks
  import opened SectionChecks
  import opened EssentialsChecks
  import opened Scoring

  /**
   * The lexicons the analyser is built against: the action-verb set, the
   * section-header table in key order, and the keys of the misspelling table.
   */
  datatype Lexicon = Lexicon(
    actionVerbs: set<string>,
    sectionHeaders: seq<SectionEntry>,
    misspellings: set<string>)

  /** The parse-rate check wants more than this many UTF-16 code units of text. */
  const ParseRateMinLength: nat := 100

  // ----- The twelve check records -----

  /** "ATS Parse Rate": more than 100 UTF-16 code units of text. */
  function ParseRateCheck(text: string): Check {
    Check(ParseRate, (Utf16Length(text) > ParseRateMinLength), false, [])
  }

  /** "Quantifying Impact", a premium check. */
  function ImpactCheck(tokens: seq<string>): Check {
    Check(QuantifyingImpact, CheckQuantifiedImpact(tokens), true, [])
  }

  /** "Action Verbs" */
  function ActionVerbsCheck(tokens: seq<string>, lexicon: Lexicon): Check {
    Check(ActionVerbs, CheckActionVerbs(tokens, lexicon.actionVerbs), false, [])
  }

  /** "Word Repetition" */
  function RepetitionCheck(tokens: seq<string>): Check {
    Check(WordRepetition, CheckRepetition(tokens), false, [])
  }

  /** "Spelling & Grammar", a premium check. */
  function SpellingCheck(tokens: seq<string>, lexicon: Lexicon): Check {
    Check(Spelling, CheckSpelling(tokens, lexicon.misspellings), true, [])
  }

  /**
   * "Essential Sections", a premium check: a failing check names the required
   * sections that were not found, in the order they are required.
   */
  function EssentialSectionsCheck(text: string, lexicon: Lexicon): (c: Check)
    ensures c.name == EssentialSections && c.premium
    ensures c.pass == CheckSections(text, lexicon.sectionHeaders).pass
    ensures c.pass ==> c.missing == []
    ensures !c.pass ==> c.missing == MissingSections(RequiredSections, CheckSections(text, lexicon.sectionHeaders).found)
    ensures c.missing == [] <==> c.pass
  {
    var sections := CheckSections(text, lexicon.sectionHeaders);
    NothingMissingIffPass(text, lexicon.sectionHeaders);
    Check(EssentialSections, sections.pass, true,
      if sections.pass then [] else MissingSections(RequiredSections, sections.found))
  }

  /** "Contact Information" */
  function ContactCheck(text: string): Check {
    Check(ContactInformation, CheckContactInfo(text), false, [])
  }

  /** "File Format & Size" */
  function FileCheck(file: UploadedFile): Check {
    Check(FileFormatAndSize, CheckFileFormatAndSize(file), false, [])
  }

  /** "Simple Design" */
  function LayoutCheck(text: string): Check {
    Check(SimpleDesign, CheckSimpleLayout(text), false, [])
  }

  /** "Email Address" */
  function EmailCheck(text: string): Check {
    Check(EmailAddress, CheckEmailPresent(text), false, [])
  }

  /** "Phone Number" */
  function PhoneCheck(text: string): Check {
    Check(PhoneNumber, CheckPhoneNumberPresent(text), false, [])
  }

  /** "Hyperlinks", a premium check. */
  function LinksCheck(text: string): Check {
    Check(Hyperlinks, CheckHyperlinks(text), true, [])
  }

  /**
   * A failing "Essential Sections" check names, in its explanation, every
   * required section the resume does not mention.
   */
  lemma MissingSectionsNamed(text: string, lexicon: Lexicon, section: string)
    requires section in RequiredSections
    requires section !in CheckSections(text, lexicon.sectionHeaders).found
    ensures !EssentialSectionsCheck(text, lexicon).pass
    ensures Contains(Details(EssentialSectionsCheck(text, lexicon)), section)
  {
  }

  // ----- The three categories, in the order the page lists them -----

  function ContentChecksOf(text: string, tokens: seq<string>, lexicon: Lexicon): seq<Check> {
    [ParseRateCheck(text), ImpactCheck(tokens), ActionVerbsCheck(tokens, lexicon),
     RepetitionCheck(tokens), SpellingCheck(tokens, lexicon)]
  }

  function SectionChecksOf(text: string, lexicon: Lexicon): seq<Check> {
    [EssentialSectionsCheck(text, lexicon), ContactCheck(text)]
  }

  function EssentialsChecksOf(text: string, file: UploadedFile): seq<Check> {
    [FileCheck(file), LayoutCheck(text), EmailCheck(text), PhoneCheck(text), LinksCheck(text)]
  }

  /** A check record carries the given identity and premium flag. */
  predicate Labelled(c: Check, name: CheckName, premium: bool) {
    c.name == name && c.premium == premium
  }

  /**
   * What the five Content checks are and decide, in terms of the resume text, its
   * tokens and the lexicons.
   */
  ghost predicate ContentMeaning(checks: seq<Check>, text: string, tokens: seq<string>, lexicon: Lexicon) {
    && |checks| == 5
    && Labelled(checks[0], ParseRate, false)
    && Labelled(checks[1], QuantifyingImpact, true)
    && Labelled(checks[2], ActionVerbs, false)
    && Labelled(checks[3], WordRepetition, false)
    && Labelled(checks[4], Spelling, true)
    && (checks[0].pass <==> Utf16Length(text) > ParseRateMinLength)
    && (checks[1].pass <==> HasDigit(text))
    && (checks[2].pass <==> ManyActionVerbs(tokens, lexicon.actionVerbs))
    && (checks[3].pass <==> |tokens| < RepetitionMinTokens || NoOverusedToken(tokens))
    && (checks[4].pass <==> FewMisspellings(tokens, lexicon.misspellings))
  }

  /**
   * What the two Sections checks are and decide: every required section has a
   * table entry one of whose spellings occurs in the lower-cased text, and the
   * raw text holds both an email address and a phone number.
   */
  ghost predicate SectionsMeaning(checks: seq<Check>, text: string, headers: seq<SectionEntry>) {
    && |checks| == 2
    && Labelled(checks[0], EssentialSections, true)
    && Labelled(checks[1], ContactInformation, false)
    && (checks[0].pass <==> forall s :: s in RequiredSections ==>
          exists i :: 0 <= i < |headers| && headers[i].name == s
            && (exists j, p :: (0 <= j < |headers[i].alternatives|
                 && OccursAt(LowerText(text), headers[i].alternatives[j], p))))
    && (checks[1].pass <==> EmailMatch(text) && PhoneMatch(text))
  }

  /** What the five ATS-essentials checks are and decide, in terms of the resume text and the file. */
  ghost predicate EssentialsMeaning(checks: seq<Check>, text: string, file: UploadedFile) {
    && |checks| == 5
    && Labelled(checks[0], FileFormatAndSize, false)
    && Labelled(checks[1], SimpleDesign, false)
    && Labelled(checks[2], EmailAddress, false)
    && Labelled(checks[3], PhoneNumber, false)
    && Labelled(checks[4], Hyperlinks, true)
    && (checks[0].pass <==> file.mediaType in {PdfType, DocxType} && file.size < MaxFileSize)
    && (checks[1].pass <==> forall k, i :: 0 <= k < |ComplexKeywords| ==>
          !OccursAt(LowerText(text), ComplexKeywords[k], i))
    && (checks[2].pass <==> EmailMatch(text))
    && (checks[3].pass <==> PhoneMatch(text))
    && (checks[4].pass <==>
          || (exists i :: OccursAt(LowerText(text), "http://", i))
          || (exists i :: OccursAt(LowerText(text), "https://", i)))
  }

  /** The four Content checks other than "Quantifying Impact", on any token list. */
  lemma ContentVerdicts(text: string, tokens: seq<string>, lexicon: Lexicon)
    ensures var checks := ContentChecksOf(text, tokens, lexicon);
      && (checks[0].pass <==> Utf16Length(text) > ParseRateMinLength)
      && (checks[2].pass <==> ManyActionVerbs(tokens, lexicon.actionVerbs))
      && (checks[3].pass <==> |tokens| < RepetitionMinTokens || NoOverusedToken(tokens))
      && (checks[4].pass <==> FewMisspellings(tokens, lexicon.misspellings))
  {
  }

  /** "Quantifying Impact" on the tokenizer's output is a digit test on the raw text. */
  lemma ImpactVerdict(text: string, tokens: seq<string>, lexicon: Lexicon)
    requires tokens == Tokenize(text)
    ensures ContentChecksOf(text, tokens, lexicon)[1].pass <==> HasDigit(text)
  {
    assert ContentChecksOf(text, tokens, lexicon)[1].pass == CheckQuantifiedImpact(tokens);
    QuantifiedImpactIsDigit(text);
  }

  lemma ContentChecksMean(text: string, tokens: seq<string>, lexicon: Lexicon)
    requires tokens == Tokenize(text)
    ensures ContentMeaning(ContentChecksOf(text, tokens, lexicon), text, tokens, lexicon)
  {
    ContentVerdicts(text, tokens, lexicon);
    ImpactVerdict(text, tokens, lexicon);
  }

  lemma SectionChecksMean(text: string, lexicon: Lexicon)
    ensures SectionsMeaning(SectionChecksOf(text, lexicon), text, lexicon.sectionHeaders)
  {
  }

  lemma EssentialsChecksMean(text: string, file: UploadedFile)
    ensures EssentialsMeaning(EssentialsChecksOf(text, file), text, file)
  {
  }

  /**
   * `analyzeResume(resumeText, file)`: the twelve checks in page order, each
   * deciding what its meaning says, scored as `ScoredAsPromised` states.
   */
  function AnalyzeResume(text: string, file: UploadedFile, lexicon: Lexicon): (result: AnalysisResult)
    ensures ContentMeaning(result.content.checks, text, Tokenize(text), lexicon)
    ensures SectionsMeaning(result.sections.checks, text, lexicon.sectionHeaders)
    ensures EssentialsMeaning(result.atsEssentials.checks, text, file)
    ensures ScoredAsPromised(result)
  {
    var tokens := Tokenize(text);
    ContentChecksMean(text, tokens, lexicon);
    SectionChecksMean(text, lexicon);
    EssentialsChecksMean(text, file);
    Summarize(
      ContentChecksOf(text, tokens, lexicon),
      SectionChecksOf(text, lexicon),
      EssentialsChecksOf(text, file))
  }

  /** The contact check passes exactly when both the email and the phone checks pass. */
  lemma ContactIsEmailAndPhone(text: string, file: UploadedFile, lexicon: Lexicon)
    ensures var r := AnalyzeResume(text, file, lexicon);
      r.sections.checks[1].pass <==> r.atsEssentials.checks[2].pass && r.atsEssentials.checks[3].pass
  {
  }

  /** The premium flags are cosmetic: two results with the same verdicts have the same scores. */
  lemma PremiumDoesNotScore(checks: seq<Check>, flags: seq<bool>)
    requires |flags| == |checks|
    ensures CategoryScore(checks) == CategoryScore(
      seq(|checks|, i requires 0 <= i < |checks| => checks[i].(premium := flags[i])))
  {
    var other := seq(|checks|, i requires 0 <= i < |checks| => checks[i].(premium := flags[i]));
    assert PassingPositions(other) == PassingPositions(checks);
  }
}
