/** The result structure the analyser hands back to the page. */
module Report {
  import opened TextSearch

  /** The twelve checks, in the order the page lists them. */
  datatype CheckName =
    | ParseRate | QuantifyingImpact | ActionVerbs | WordRepetition | Spelling
    | EssentialSections | ContactInformation
    | FileFormatAndSize | SimpleDesign | EmailAddress | PhoneNumber | Hyperlinks

  /**
   * One pass/fail rule. `premium` only marks a paid-tier check and never affects
   * a score; `missing` holds the required sections a failing "Essential Sections"
   * check names, and is empty for every other check.
   */
  datatype Check = Check(name: CheckName, pass: bool, premium: bool, missing: seq<string>)

  /** A group of checks with the score derived from them. */
  datatype Category = Category(score: int, checks: seq<Check>)

  datatype AnalysisResult = AnalysisResult(
    score: int,
    issueCount: int,
    content: Category,
    sections: Category,
    atsEssentials: Category)

  /** The `name` the page shows for a check: never blank. */
  function Title(name: CheckName): (r: string)
    ensures |r| > 0
  {
    match name
    case ParseRate => "ATS Parse Rate"
    case QuantifyingImpact => "Quantifying Impact"
    case ActionVerbs => "Action Verbs"
    case WordRepetition => "Word Repetition"
    case Spelling => "Spelling & Grammar"
    case EssentialSections => "Essential Sections"
    case ContactInformation => "Contact Information"
    case FileFormatAndSize => "File Format & Size"
    case SimpleDesign => "Simple Design"
    case EmailAddress => "Email Address"
    case PhoneNumber => "Phone Number"
    case Hyperlinks => "Hyperlinks"
  }

  /** The twelve checks carry twelve different names, so a name identifies its check. */
  lemma TitlesDistinct(a: CheckName, b: CheckName)
    requires a != b
    ensures Title(a) != Title(b)
  {
  }

  /** The explanation the page shows when a check passes. */
  function PassText(name: CheckName): string {
    match name
    case ParseRate => "Resume text was successfully parsed."
    case QuantifyingImpact => "Achievements are quantified with numbers."
    case ActionVerbs => "Strong action verbs are used."
    case WordRepetition => "Word usage is varied and effective."
    case Spelling => "No major spelling errors found."
    case EssentialSections => "All key sections like Experience and Skills are present."
    case ContactInformation => "Contact info (email & phone) is present."
    case FileFormatAndSize => "File is a compatible format (PDF/DOCX) and size (<2MB)."
    case SimpleDesign => "Resume has a clean, single-column layout."
    case EmailAddress => "A professional email address was found."
    case PhoneNumber => "A phone number was found."
    case Hyperlinks => "Includes links to portfolios or LinkedIn."
  }

  /** The explanation the page shows when a check fails; only the sections check names anything. */
  function FailText(name: CheckName, missing: seq<string>): string {
    match name
    case ParseRate => "Could not read enough text from the resume."
    case QuantifyingImpact => "Add numbers, percentages, or dollar amounts to show impact."
    case ActionVerbs => "Replace weak phrases with stronger action verbs."
    case WordRepetition => "Some words are overused. Try to diversify your language."
    case Spelling => "Potential spelling or grammar issues detected."
    case EssentialSections => "Missing sections: " + JoinWith(missing, ", ")
    case ContactInformation => "Missing a valid email or phone number."
    case FileFormatAndSize => "File is a compatible format (PDF/DOCX) and size (<2MB)."
    case SimpleDesign => "Complex layouts with tables or columns can confuse ATS."
    case EmailAddress => "An email address could not be found."
    case PhoneNumber => "A phone number could not be found."
    case Hyperlinks => "Consider adding a link to your LinkedIn or portfolio."
  }

  /**
   * The `details` the page shows for a check. The file check shows the same
   * text either way; for the ten simple checks the text tells a pass from a
   * fail; a failing sections check names every section it found missing.
   */
  function Details(c: Check): (r: string)
    ensures c.pass ==> r == PassText(c.name)
    ensures c.name == FileFormatAndSize ==> r == PassText(FileFormatAndSize)
    ensures c.name != FileFormatAndSize && c.name != EssentialSections ==> (r == PassText(c.name) <==> c.pass)
    ensures c.name == EssentialSections && !c.pass ==>
      forall k :: 0 <= k < |c.missing| ==> Contains(r, c.missing[k])
  {
    if c.pass then PassText(c.name)
    else
      var r := FailText(c.name, c.missing);
      assert c.name == EssentialSections ==> forall k :: 0 <= k < |c.missing| ==> Contains(r, c.missing[k]) by {
        if c.name == EssentialSections {
          forall k | 0 <= k < |c.missing| ensures Contains(r, c.missing[k]) {
            JoinWithMentions(c.missing, ", ", k);
            ContainsExtended("Missing sections: ", JoinWith(c.missing, ", "), [], c.missing[k]);
            assert "Missing sections: " + JoinWith(c.missing, ", ") + [] == r;
          }
        }
      }
      r
  }
}
