/**
 * The ATS-essentials checks: file format and size, simple layout, email,
 * phone number and hyperlinks.
 */
module EssentialsChecks {
  import opened Chars
  import opened TextSearch
  import opened Patterns

  /** What the analyser reads of the uploaded `File`: its MIME type and byte size. */
  datatype UploadedFile = UploadedFile(mediaType: string, size: nat)

  const PdfType: string := "application/pdf"
  const DocxType: string := "application/vnd.openxmlformats-officedocument.wordprocessingml.document"

  /** `2 * 1024 * 1024`: files must be strictly smaller than 2 MiB. */
  const MaxFileSize: nat := 2 * 1024 * 1024

  /** `checkFileCompatibility`: exactly the PDF or the DOCX media type. */
  function CheckFileCompatibility(fileType: string): (pass: bool)
    ensures pass <==> fileType in {PdfType, DocxType}
  {
    fileType == PdfType || fileType == DocxType
  }

  /** The "File Format & Size" check: a compatible type and fewer than 2 MiB. */
  function CheckFileFormatAndSize(file: UploadedFile): (pass: bool)
    ensures pass ==> file.size <= 2097151
    ensures pass <==> (file.mediaType == PdfType || file.mediaType == DocxType) && file.size < MaxFileSize
  {
    CheckFileCompatibility(file.mediaType) && file.size < MaxFileSize
  }

  /** The legacy binary Word type is not accepted, whatever the size. */
  lemma LegacyWordRejected(size: nat)
    ensures !CheckFileFormatAndSize(UploadedFile("application/msword", size))
  {
    assert "application/msword"[12] != PdfType[12];
  }

  /** Words whose presence anywhere in the text suggests a complex layout. */
  const ComplexKeywords: seq<string> := ["table", "column", "graphic", "chart"]

  /** `checkSimpleLayout`: none of the keywords occurs in the lower-cased text. */
  function CheckSimpleLayout(text: string): (pass: bool)
    ensures pass <==> forall k, i :: 0 <= k < |ComplexKeywords| ==> !OccursAt(LowerText(text), ComplexKeywords[k], i)
  {
    var textLower := LowerText(text);
    !(exists k | 0 <= k < |ComplexKeywords| :: Contains(textLower, ComplexKeywords[k]))
  }

  /** Adding text before or after a resume never makes a failed layout check pass. */
  lemma LayoutFailureSurvivesExtension(u: string, text: string, v: string)
    requires !CheckSimpleLayout(text)
    ensures !CheckSimpleLayout(u + text + v)
  {
    var k :| 0 <= k < |ComplexKeywords| && Contains(LowerText(text), ComplexKeywords[k]);
    LowerTextAppend(u, text);
    LowerTextAppend(u + text, v);
    ContainsExtended(LowerText(u), LowerText(text), LowerText(v), ComplexKeywords[k]);
  }

  /** The keyword test is a substring test: "stable" contains "table" and fails the check. */
  lemma StableFailsLayout()
    ensures !CheckSimpleLayout("Stable")
  {
    assert LowerText("Stable") == "stable";
    assert OccursAt("stable", "table", 1);
    assert ComplexKeywords[0] == "table";
    assert Contains(LowerText("Stable"), ComplexKeywords[0]);
  }

  /** `checkEmailPresent` */
  function CheckEmailPresent(text: string): (pass: bool)
    ensures pass <==> EmailMatch(text)
  {
    EmailPresent(text)
  }

  /** `checkPhoneNumberPresent` */
  function CheckPhoneNumberPresent(text: string): (pass: bool)
    ensures pass <==> PhoneMatch(text)
  {
    PhonePresent(text)
  }

  /** `checkHyperlinks`: "http://" or "https://" occurs in the lower-cased text. */
  function CheckHyperlinks(text: string): (pass: bool)
    ensures pass <==> (exists i :: OccursAt(LowerText(text), "http://", i)) || (exists i :: OccursAt(LowerText(text), "https://", i))
  {
    LinkPresent(LowerText(text))
  }

  /** The hyperlink check ignores ASCII case. */
  lemma HyperlinksIgnoreCase(text: string)
    ensures CheckHyperlinks(LowerText(text)) == CheckHyperlinks(text)
  {
    LowerTextIdempotent(text);
  }
}
