# ATS resume checker: the scoring engine in Dafny

A model of the resume-scoring engine of the ATS resume checker (`src/lib/ats.ts`).
`analyzeResume` takes the text extracted from an uploaded resume and the file's
media type and size. It runs twelve pass/fail checks in three categories:

- **Content**: parse rate, quantified impact, action verbs, word repetition, spelling.
- **Sections**: essential sections, contact information.
- **ATS essentials**: file format and size, simple design, email, phone, hyperlinks.

It scores each category by its share of passing checks and weights the categories
0.30 / 0.30 / 0.40 into an overall score. It also counts the failing checks.

The model is pure functions over immutable datatypes, one module per part of the engine:

| file | module | what it holds |
|---|---|---|
| `chars.dfy` | `Chars` | the regex classes `\d`, `\w`, `\s`; ASCII `toLowerCase`; UTF-16 `length` |
| `text_search.dfy` | `TextSearch` | `String.prototype.includes` as a scanner proved against "occurs at some index"; `Array.prototype.join` |
| `tokenizer.dfy` | `Tokenizer` | `tokenize`, with a reference join/concat and round-trip lemmas |
| `patterns.dfy` | `Patterns` | the email, phone and hyperlink expressions: a declarative match predicate, a left-to-right scanner proved equal to it, worked examples |
| `content_checks.dfy` | `ContentChecks` | quantified impact, action verbs, repetition, spelling (as written and corrected) |
| `section_checks.dfy` | `SectionChecks` | section detection, `[...new Set(..)]`, the missing list, contact info |
| `essentials_checks.dfy` | `EssentialsChecks` | file type and size, layout blocklist, email, phone, hyperlinks |
| `report.dfy` | `Report` | the result records and the titles and explanations the page shows |
| `scoring.dfy` | `Scoring` | `Math.round`, category scores, the weighted score, `issueCount` |
| `analysis.dfy` | `Analysis` | `analyzeResume` and what each of its twelve checks decides |

Modelling choices:

- **Lexicons.** `ACTION_VERBS`, `SECTION_HEADERS` and `COMMON_MISSPELLINGS` live in
  `src/lib/constants.ts`, which is not part of this model. They are a `Lexicon` parameter:
  - the action-verb set;
  - the header table as a sequence of (name, alternatives) entries, in the object's key order, which is the order `for ... in` visits;
  - the set of keys of the misspelling table.
- **Text.** Characters are code points.
  - `toLowerCase` is restricted to ASCII.
  - `\w` is ASCII only, as it is without the `u` flag.
  - `\s` is the exact ECMAScript set of white-space and line-terminator code points.
  - `resumeText.length` counts UTF-16 code units, so a character outside the Basic Multilingual Plane counts twice.
- **Numbers.** Floating point is replaced by exact rationals.
  - `Math.round(x)` is the integer `r` with `r - 1/2 <= x < r + 1/2`.
  - `mostFrequent / tokens.length <= 0.03` is `100 * mostFrequent <= 3 * tokens.length`.
  - With five, two and five checks, every category score is a multiple of 20, 50 and 20. So `30c + 30s + 40a` is a multiple of 100, and the overall score is exactly `6·pc + 15·ps + 8·pa`, where pc, ps and pa are the passing checks per category.
- **Check records.** A check record carries an identity (`CheckName`) instead of its title string, plus `missing`, the missing-section list of a failing sections check. `Report.Title` and `Report.Details` render the exact strings of `src/lib/ats.ts:114-132`.
- **Section headers** match by plain substring containment anywhere in the lower-cased text, not anchored at a line start (`SectionChecks.MidSentenceMentionCounts`).
- **Legacy Word files.** A `.doc` file fails the file check with the same explanation as any other failure (`EssentialsChecks.LegacyWordRejected`).

## Model

| member | source | states |
|---|---|---|
| Chars.LowerText | src/lib/ats.ts:27 | `toLowerCase` keeps the length and lowers each character on its own, ASCII capitals to their lower-case letters and everything else unchanged |
| Chars.Utf16LengthBefore | src/lib/ats.ts:114 | the first `n` characters take `n` code units plus one for each of them outside the Basic Multilingual Plane, at most `2n` |
| Chars.Utf16Length | src/lib/ats.ts:114 | `resumeText.length` is the number of code points plus the number of characters outside the Basic Multilingual Plane; so it lies between the code-point count and twice that, and equals it when every character is in the plane |
| Chars.LowerTextIdempotent | src/lib/ats.ts:60 | lower-casing an already lower-cased text changes nothing |
| Chars.LowerTextAppend | src/lib/ats.ts:88 | lower-casing distributes over concatenation |
| TextSearch.Contains | src/lib/ats.ts:65 | `s.includes(p)` holds exactly when `p` occurs in `s` at some index |
| TextSearch.ContainsExtended | src/lib/ats.ts:89 | text added before or after keeps every occurrence |
| Tokenizer.Normalize | src/lib/ats.ts:27 | `.replace(/[^\w\s-]/g, ' ')` keeps the length and replaces character by character |
| Tokenizer.NormalizeChar | src/lib/ats.ts:27 | after `toLowerCase().replace(/[^\w\s-]/g, ' ')` a character is a token character or white space; token characters and white space are kept; upper-case letters are lowered; everything else becomes a space; digits are exactly preserved |
| Tokenizer.Split | src/lib/ats.ts:27 | `split(/\s+/).filter(Boolean)` yields non-empty, white-space-free pieces; pieces of a text made only of token characters and white space hold token characters only |
| Tokenizer.Tokenize | src/lib/ats.ts:25-28 | the empty text has no tokens; every token is non-empty and made only of `a-z`, `0-9`, `_` and `-`, so never holds `%` or `$` |
| Tokenizer.SplitConcat | src/lib/ats.ts:27 | the tokens, written one after another, are exactly the non-white-space characters of the text |
| Tokenizer.LeadingWordOfAppend | src/lib/ats.ts:27 | the first run of a white-space-free prefix extends into what follows |
| Tokenizer.SplitAtSpace | src/lib/ats.ts:27 | a white-space character separates: splitting `a + c + b` around it is splitting `a`, then splitting `b` |
| Tokenizer.SplitJoin | src/lib/ats.ts:27 | splitting undoes joining words with single spaces |
| Tokenizer.JoinChars | src/lib/ats.ts:25-28 | joined tokens hold only token characters and spaces |
| Tokenizer.TokenizeJoin | src/lib/ats.ts:25-28 | tokenizing the space-joined list of valid tokens gives the list back |
| Tokenizer.TokenizeIdempotent | src/lib/ats.ts:25-28 | re-tokenizing the written-out tokens changes nothing |
| Tokenizer.TokenizeWithoutWordChars | src/lib/ats.ts:25-28 | a text with no `\w` character and no `-` has no tokens |
| Tokenizer.TokensKeepDigits | src/lib/ats.ts:25-28 | some token holds a digit exactly when the raw text does |
| Tokenizer.HasDigitConcat | src/lib/ats.ts:27 | a concatenation holds a digit exactly when one of its parts does |
| ContentChecks.ImpactBefore | src/lib/ats.ts:35 | scanning the first `n` tokens finds an impact character exactly when one of them holds a digit, `%` or `$` |
| ContentChecks.CheckQuantifiedImpact | src/lib/ats.ts:33-36 | passes exactly when some character of some token is a digit, `%` or `$` |
| ContentChecks.QuantifiedImpactIsDigit | src/lib/ats.ts:25-36 | on the tokenizer's output the check passes exactly when the raw text holds an ASCII digit |
| ContentChecks.CountBefore | src/lib/ats.ts:39 | the count over the first `n` tokens is the number of those positions holding a lexicon word, at most `n` |
| ContentChecks.CountIn | src/lib/ats.ts:39 | the filter's length is the number of positions holding a lexicon word, repeats included |
| ContentChecks.CheckActionVerbs | src/lib/ats.ts:38-41 | passes exactly when more than five positions hold an action verb |
| ContentChecks.OccurrencesIsMultiplicity | src/lib/ats.ts:46 | counting the positions that hold a token gives its multiplicity in the multiset of tokens |
| ContentChecks.Frequencies | src/lib/ats.ts:45-46 | after `n` rounds of the `forEach` every token seen is a key, and every key is a seen token whose value is the number of times it was seen |
| ContentChecks.MaxCount | src/lib/ats.ts:47 | the first value of the descending sort is the value of one of the keys and no key's value exceeds it |
| ContentChecks.HighestFrequency | src/lib/ats.ts:45-47 | `mostFrequent` is the occurrence count of some token and at least that of every token |
| ContentChecks.CheckRepetition | src/lib/ats.ts:43-50 | passes exactly when there are fewer than 50 tokens or no token makes up more than 3% of them |
| ContentChecks.ShortTextsPassRepetition | src/lib/ats.ts:44 | fewer than 50 tokens always pass |
| ContentChecks.RepetitionIgnoresOrder | src/lib/ats.ts:43-50 | two token lists with the same multiset get the same verdict |
| ContentChecks.CheckSpellingAsWritten | src/lib/ats.ts:52-55 | as written: fewer than three positions hold a table key or an inherited object property (`constructor`, `__proto__`) |
| ContentChecks.SpellingAsWrittenCountsConstructor | src/lib/ats.ts:53 | three uses of the word "constructor" fail the as-written check with an empty table, but pass the corrected one |
| ContentChecks.CheckSpelling | src/lib/ats.ts:52-55 | passes exactly when fewer than three positions hold a key of the misspelling table |
| ContentChecks.CountInIgnoresAbsentWords | src/lib/ats.ts:53 | adding words no token uses to the lexicon does not change the count |
| ContentChecks.SpellingAgreesWithoutInheritedKeys | src/lib/ats.ts:52-55 | the as-written and corrected checks agree on every text that never uses an inherited property name as a word |
| ContentChecks.SpellingMonotone | src/lib/ats.ts:52-55 | appending tokens never turns a failing spelling check into a passing one |
| SectionChecks.MentionedSections | src/lib/ats.ts:63-68 | a name is pushed exactly when some entry with that name has an alternative contained in the text |
| SectionChecks.Dedup | src/lib/ats.ts:69 | `[...new Set(xs)]` has no duplicates and the same members as `xs` |
| SectionChecks.DedupOfDistinct | src/lib/ats.ts:69 | on a list without duplicates the `Set` round trip is the identity |
| SectionChecks.MentionedSectionsDistinct | src/lib/ats.ts:63-69 | with distinct table names the loop pushes no name twice, so the `Set` removes nothing |
| SectionChecks.CheckSections | src/lib/ats.ts:58-72 | `found` is duplicate-free; a name is in it exactly when one of its alternatives occurs in the lower-cased text; `pass` exactly when all five required sections are found |
| SectionChecks.MidSentenceMentionCounts | src/lib/ats.ts:65 | "I have experience" registers the experience section: containment is not anchored to a header line |
| SectionChecks.MissingSections | src/lib/ats.ts:123 | the filter keeps exactly the required sections not found |
| SectionChecks.NothingMissingIffPass | src/lib/ats.ts:123 | the missing list is empty exactly when the sections check passes |
| SectionChecks.CheckContactInfo | src/lib/ats.ts:74-78 | passes exactly when both the email and the phone expression match the raw text |
| Patterns.EmailMatchShortest | src/lib/ats.ts:75 | the email expression matches exactly when a shortest match (one character either side of `@` and `.`) exists |
| Patterns.DomainFrom | src/lib/ats.ts:75 | the domain scan after an `@` finds a `.` completing a match exactly when one exists |
| Patterns.EmailFrom | src/lib/ats.ts:75 | the scan from an index finds a match exactly when one has its `@` at or after that index |
| Patterns.EmailPresent | src/lib/ats.ts:93-94 | `/[\w.-]+@[\w.-]+\.\w+/.test(t)` holds exactly when some span of `t` matches the expression |
| Patterns.DigitRun | src/lib/ats.ts:76 | `\d{n}` matches at `i` exactly when the next `n` characters are digits |
| Patterns.GroupEnd | src/lib/ats.ts:76 | the group `\d{3}[-.\s]?` matches at `i`, with or without its separator, and ends where stated |
| Patterns.PhoneWith | src/lib/ats.ts:76 | the whole phone expression matches at `i` for a given choice of separators |
| Patterns.PhoneStartsAt | src/lib/ats.ts:76 | some choice of separators gives a match at `i` |
| Patterns.PhoneFrom | src/lib/ats.ts:76 | the scan from an index finds a match exactly when one starts at or after it |
| Patterns.PhonePresent | src/lib/ats.ts:98-99 | `/(\d{3}[-.\s]?){2}\d{4}/.test(t)` holds exactly when the expression matches somewhere in `t` |
| Patterns.LinkPresent | src/lib/ats.ts:103-104 | `/https?:\/\//` matches exactly when `http://` or `https://` occurs |
| Patterns.PhoneSpellingsMatch | src/lib/ats.ts:98 | dashes, dots, spaces or no separators: each ten-digit spelling matches |
| Patterns.ParenthesisedAreaCodeMissed | src/lib/ats.ts:98 | "(555) 123-4567" does not match the phone expression |
| Patterns.DottedDomainMatches | src/lib/ats.ts:93 | "jane.doe@example.com" matches the email expression |
| Patterns.BareHostDoesNotMatch | src/lib/ats.ts:93 | "jane@localhost" does not match: the domain needs a `.` |
| EssentialsChecks.CheckFileCompatibility | src/lib/ats.ts:82-84 | passes exactly for the PDF and the DOCX media type |
| EssentialsChecks.CheckFileFormatAndSize | src/lib/ats.ts:128 | passes exactly for a compatible type strictly under 2 MiB, so never for 2 097 152 bytes or more |
| EssentialsChecks.LegacyWordRejected | src/lib/ats.ts:82-84 | `application/msword` fails whatever the size |
| EssentialsChecks.CheckSimpleLayout | src/lib/ats.ts:86-90 | passes exactly when none of "table", "column", "graphic", "chart" occurs in the lower-cased text |
| EssentialsChecks.LayoutFailureSurvivesExtension | src/lib/ats.ts:86-90 | adding text around a failing resume never makes it pass |
| EssentialsChecks.StableFailsLayout | src/lib/ats.ts:86-90 | "Stable" fails the layout check: the keyword test is a substring test |
| EssentialsChecks.CheckEmailPresent | src/lib/ats.ts:92-95 | passes exactly when the email expression matches |
| EssentialsChecks.CheckPhoneNumberPresent | src/lib/ats.ts:97-100 | passes exactly when the phone expression matches |
| EssentialsChecks.CheckHyperlinks | src/lib/ats.ts:102-105 | passes exactly when `http://` or `https://` occurs in the lower-cased text |
| EssentialsChecks.HyperlinksIgnoreCase | src/lib/ats.ts:104 | the hyperlink verdict does not depend on ASCII case |
| TextSearch.JoinWith | src/lib/ats.ts:123 | `xs.join(sep)`: a one-element list joins to its element, the empty list to the empty text |
| TextSearch.JoinWithMentions | src/lib/ats.ts:123 | every element of a list occurs in its `join` |
| Report.Title | src/lib/ats.ts:114-132 | the `name` shown for a check is never blank |
| Report.TitlesDistinct | src/lib/ats.ts:114-132 | the twelve checks carry twelve different names |
| Report.Details | src/lib/ats.ts:114-132 | a passing check shows its pass text; the file check shows the same text whatever its verdict; for the other ten simple checks the text shown is the pass text exactly when the check passes; a failing sections check's text contains every section in its missing list |
| Scoring.RoundDiv | src/lib/ats.ts:139 | `Math.round(num / den)` is the integer within a half of `num / den`, halves rounded up |
| Scoring.RoundDivUnique | src/lib/ats.ts:139 | no other integer is within a half of `num / den` |
| Scoring.RoundDivMonotone | src/lib/ats.ts:139 | a larger numerator never rounds lower |
| Scoring.PassedCount | src/lib/ats.ts:138 | the filter's length is the number of passing positions |
| Scoring.FailedCount | src/lib/ats.ts:154 | the number of failing positions; passing and failing add up to the list's length |
| Scoring.PassedOfAppend | src/lib/ats.ts:153-154 | passing checks of a concatenation add up |
| Scoring.CategoryScore | src/lib/ats.ts:136-140 | 100 for no checks, else the rounding of `100·passed/n`; always in [0, 100]; 100 when all pass, 0 when none do |
| Scoring.CategoryOfFive | src/lib/ats.ts:142-144 | five checks score exactly 20 points per passing check |
| Scoring.CategoryOfTwo | src/lib/ats.ts:143 | two checks score exactly 50 points per passing check |
| Scoring.OverallScore | src/lib/ats.ts:147-151 | the rounding of `0.3c + 0.3s + 0.4a`, in [0, 100], exact when the weighted sum is a multiple of 100 |
| Scoring.OverallMonotone | src/lib/ats.ts:147-151 | raising any category score never lowers the overall score |
| Scoring.Summarize | src/lib/ats.ts:136-162 | keeps the three check lists; category scores 20·pc, 50·ps, 20·pa; overall score exactly 6·pc + 15·ps + 8·pa = (30c + 30s + 40a)/100 in [0, 100]; `issueCount` = 12 − pc − ps − pa in [0, 12]; score 100 exactly when there are no issues, 0 exactly when all twelve fail |
| Analysis.EssentialSectionsCheck | src/lib/ats.ts:121-123 | the sections check record: passes as `checkSections` does, and when failing lists exactly the missing required sections, so its list is empty exactly when it passes |
| Analysis.MissingSectionsNamed | src/lib/ats.ts:123 | a required section the resume does not mention makes the check fail, and is named in its explanation |
| Analysis.ImpactVerdict | src/lib/ats.ts:110-115 | "Quantifying Impact" on the resume's tokens passes exactly when the raw text holds a digit |
| Analysis.ContentChecksMean | src/lib/ats.ts:113-119 | the Content checks in order, and what each decides: more than 100 UTF-16 units; a digit in the text; more than five action-verb positions; under 50 tokens or none over 3%; fewer than three misspelling positions |
| Analysis.SectionChecksMean | src/lib/ats.ts:121-125 | the Sections checks in order, and what each decides: every required section has an alternative in the lower-cased text; email and phone both match |
| Analysis.EssentialsChecksMean | src/lib/ats.ts:127-133 | the ATS-essentials checks in order, and what each decides: PDF/DOCX under 2 MiB; no layout keyword; email; phone; `http(s)://` |
| Analysis.AnalyzeResume | src/lib/ats.ts:109-163 | the result holds the twelve checks in page order with their premium flags; each passes exactly as listed in the three rows above; scores and issue count as `Scoring.Summarize` states |
| Analysis.ContactIsEmailAndPhone | src/lib/ats.ts:124-131 | the contact check passes exactly when both the email and the phone checks pass |
| Analysis.PremiumDoesNotScore | src/lib/ats.ts:136-140 | the `premium` flags never change a category score |

## Left out

- `src/lib/constants.ts` is not part of this model: the lexicon contents are a parameter.
- Non-ASCII case mapping: `toLowerCase` of letters such as `İ`, `Σ` or the Kelvin sign is left out, as is Unicode case folding generally. The model lower-cases ASCII only.
- Floating point: `Math.round`, the 0.30/0.40 weights and the 3% ratio are exact rationals. Binary rounding of `0.3·c` and the like is not modelled; with the 5/2/5 check counts the weighted sums are whole numbers of points.
- Full JavaScript regex engine: the three expressions are modelled individually, each as a match predicate with a scanner proved equal to it. No general backtracking engine is modelled.
- ContentChecks.CheckRepetition: `freq` is a plain object, and two token spellings hit inherited properties. The model (`ContentChecks.Frequencies`) counts every token from zero, as the code evidently intends.
  - For `constructor`, `freq[t]` starts from the inherited `Object` function, so `(freq[t] || 0) + 1` produces a string, and the NaN-producing sort can change the verdict.
  - For `__proto__`, the assignment goes to the inherited `__proto__` setter, which ignores a string, so that token is never counted. A resume of 50 or more tokens in which `__proto__` makes up more than 3% can pass in the source and fails in the model. It passes in the source when some other token occurs, none of the others makes up more than 3%, and `constructor` does not occur. If every token is `__proto__`, `freq` stays empty and `mostFrequent` is `undefined`, so the ratio is NaN and the source fails too.
- ContentChecks.CheckSpelling: a table entry whose correction is the empty string would be falsy and not counted by the source; the model counts every key (a misspelling table maps to non-empty corrections).
- Analysis.AnalyzeResume: its "Spelling & Grammar" verdict is the corrected check `ContentChecks.CheckSpelling`, which counts the misspelling table's own keys only. The source as written also counts `constructor` and `__proto__` (see Findings; `ContentChecks.CheckSpellingAsWritten`), so three uses of "constructor" fail there and pass here.
- Analysis.ContentChecksMean: states the corrected spelling verdict for the same reason as `Analysis.AnalyzeResume`.
- `File` is reduced to its `type` and `size`; reading the file, text extraction through pdf.js and mammoth, and the upload component's own type and size validation (`src/components/resume-ace/resume-upload.tsx`) are I/O outside the engine.
- The bullet-point rewriter (`src/ai/flows/improve-resume-bullet-points.ts`, `src/app/actions.ts`) calls an external text-generation service.
- Pages, layout, animation and blog content (the remaining `.tsx` files and `src/lib/blog-posts.ts`) are presentation only.

## Findings

| source | as written | input that shows it | evidently intended | confidence | as-written member | corrected member |
|---|---|---|---|---|---|---|
| src/lib/ats.ts:53 | `COMMON_MISSPELLINGS[token]` looks the token up on a plain object, so inherited properties answer too: `constructor` and `__proto__` (the only inherited names a lower-cased token can spell) are truthy | a resume using the word "constructor" three times, with no such key in the table: the spelling check fails | count only the table's own keys (`Object.hasOwn` or a `Map`) | medium, not executed (depends on the table being an object literal, which this model does not include) | ContentChecks.CheckSpellingAsWritten, ContentChecks.SpellingAsWrittenCountsConstructor | ContentChecks.CheckSpelling |
