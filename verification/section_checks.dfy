/**
 * The two checks of the Sections category: which canonical sections the
 * resume mentions, and whether it carries both an email and a phone number.
 */
module SectionChecks {
  import opened Chars
  import opened TextSearch
  import opened Patterns

  /** One entry of the section-header table: a canonical name and its header spellings. */
  datatype SectionEntry = SectionEntry(name: string, alternatives: seq<string>)

  /** Outcome of `checkSections`: the sections found, in table order, and the verdict. */
  datatype SectionsResult = SectionsResult(found: seq<string>, pass: bool)

  /** The sections every resume must mention for the check to pass. */
  const RequiredSections: seq<string> := ["contact", "summary", "experience", "skills", "education"]

  predicate NoDuplicates<T(==)>(xs: seq<T>) {
    forall i, j :: 0 <= i < j < |xs| ==> xs[i] != xs[j]
  }

  /** `alternatives.some(alt => textLower.includes(alt))` */
  predicate SectionMentioned(entry: SectionEntry, textLower: string) {
    exists j :: 0 <= j < |entry.alternatives| && Contains(textLower, entry.alternatives[j])
  }

  /** The `for (const sectionName in SECTION_HEADERS)` loop: names of the mentioned entries, in table order. */
  function MentionedSections(headers: seq<SectionEntry>, textLower: string): (found: seq<string>)
    ensures forall k :: k in found <==>
      exists i :: 0 <= i < |headers| && headers[i].name == k && SectionMentioned(headers[i], textLower)
    decreases |headers|
  {
    if |headers| == 0 then
      []
    else
      var last := |headers| - 1;
      var prefix := headers[..last];
      var found := MentionedSections(prefix, textLower);
      assert forall i :: 0 <= i < last ==> prefix[i] == headers[i];
      if SectionMentioned(headers[last], textLower) then found + [headers[last].name] else found
  }

  /** `[...new Set(xs)]`: the first occurrence of each element, in order. */
  function Dedup(xs: seq<string>): (r: seq<string>)
    ensures NoDuplicates(r)
    ensures forall x :: x in r <==> x in xs
    decreases |xs|
  {
    if |xs| == 0 then
      []
    else
      var last := |xs| - 1;
      var r := Dedup(xs[..last]);
      assert xs == xs[..last] + [xs[last]];
      if xs[last] in r then r else r + [xs[last]]
  }

  /** Removing duplicates from a list that has none gives the list back. */
  lemma {:induction false} DedupOfDistinct(xs: seq<string>)
    requires NoDuplicates(xs)
    ensures Dedup(xs) == xs
    decreases |xs|
  {
    if |xs| > 0 {
      var last := |xs| - 1;
      DedupOfDistinct(xs[..last]);
      assert xs[last] !in xs[..last];
      assert xs == xs[..last] + [xs[last]];
    }
  }

  /** The table's names are distinct, as the keys of an object are. */
  predicate DistinctNames(headers: seq<SectionEntry>) {
    forall i, j :: 0 <= i < j < |headers| ==> headers[i].name != headers[j].name
  }

  /** With distinct names the loop never pushes a name twice, so the `Set` removes nothing. */
  lemma {:induction false} MentionedSectionsDistinct(headers: seq<SectionEntry>, textLower: string)
    requires DistinctNames(headers)
    ensures NoDuplicates(MentionedSections(headers, textLower))
    ensures Dedup(MentionedSections(headers, textLower)) == MentionedSections(headers, textLower)
    decreases |headers|
  {
    if |headers| > 0 {
      var last := |headers| - 1;
      var prefix := headers[..last];
      MentionedSectionsDistinct(prefix, textLower);
      var found := MentionedSections(prefix, textLower);
      assert forall i :: 0 <= i < |prefix| ==> prefix[i].name != headers[last].name by {
        forall i | 0 <= i < |prefix| ensures prefix[i].name != headers[last].name {
          assert prefix[i] == headers[i];
        }
      }
      var name := headers[last].name;
      if SectionMentioned(headers[last], textLower) {
        var all := found + [name];
        forall i, j | 0 <= i < j < |all| ensures all[i] != all[j] {
          if j == |found| {
            assert all[i] == found[i] && found[i] in found;
          }
        }
      }
    }
    DedupOfDistinct(MentionedSections(headers, textLower));
  }

  /** `checkSections`: matches header spellings anywhere in the lower-cased text. */
  function CheckSections(text: string, headers: seq<SectionEntry>): (result: SectionsResult)
    ensures NoDuplicates(result.found)
    ensures forall k :: k in result.found <==>
      exists i :: 0 <= i < |headers| && headers[i].name == k
        && exists j, p :: 0 <= j < |headers[i].alternatives| && OccursAt(LowerText(text), headers[i].alternatives[j], p)
    ensures result.pass <==> forall r :: r in RequiredSections ==> r in result.found
  {
    var textLower := LowerText(text);
    var found := Dedup(MentionedSections(headers, textLower));
    SectionsResult(found, forall r | r in RequiredSections :: r in found)
  }

  /**
   * Matching is plain containment, not anchored at a line start: a section name
   * used in the middle of a sentence counts as that section's header.
   */
  lemma MidSentenceMentionCounts(headers: seq<SectionEntry>, i: int)
    requires 0 <= i < |headers| && headers[i].name == "experience"
    requires "experience" in headers[i].alternatives
    ensures "experience" in CheckSections("I have experience", headers).found
  {
    var t := "I have experience";
    var j :| 0 <= j < |headers[i].alternatives| && headers[i].alternatives[j] == "experience";
    assert t[7..] == "experience";
    assert forall k :: 7 <= k < |t| ==> !IsAsciiUpper(t[k]);
    assert LowerText(t)[7..] == t[7..];
    assert OccursAt(LowerText(t), headers[i].alternatives[j], 7);
  }

  /** `required.filter(s => !found.includes(s))`: the required sections not found, in order. */
  function MissingSections(required: seq<string>, found: seq<string>): (missing: seq<string>)
    ensures forall r :: r in missing <==> r in required && r !in found
    ensures |missing| <= |required|
    decreases |required|
  {
    if |required| == 0 then
      []
    else
      var rest := MissingSections(required[1..], found);
      assert forall r :: r in required <==> r == required[0] || r in required[1..];
      (if required[0] in found then [] else [required[0]]) + rest
  }

  /** Nothing is missing exactly when the check passes. */
  lemma NothingMissingIffPass(text: string, headers: seq<SectionEntry>)
    ensures MissingSections(RequiredSections, CheckSections(text, headers).found) == []
      <==> CheckSections(text, headers).pass
  {
    var result := CheckSections(text, headers);
    var missing := MissingSections(RequiredSections, result.found);
    if missing != [] {
      assert missing[0] in missing;
    }
  }

  /** `checkContactInfo`: the email pattern and the phone pattern both match the raw text. */
  function CheckContactInfo(text: string): (pass: bool)
    ensures pass <==> EmailMatch(text) && PhoneMatch(text)
  {
    EmailPresent(text) && PhonePresent(text)
  }
}
