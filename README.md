# GOST 2.105 document checks — a Dafny model of the rule engine

The repository checks a text document against rules of the Russian standard
GOST 2.105 (layout of technical documents). It holds a set of checks, each of
which scans the document's raw text, or its caller-supplied list of sections,
and returns a `CheckResult`: the check's id and name, a status
(PASSED, FAILED or ERROR) and an ordered list of `ValidationError`s. A
`Validator` runs the registered checks in order, `get_all_checks` builds the
fixed registry, and `Reporter.generate_report` summarises the results.

This project models that engine in Dafny and proves what each rule reports.

- `models.dfy` (`Models`): the record types and their defaults.
- `config.dfy` (`Config`): the configuration tree as a YAML loader hands it
  over, Python truthiness, and the dotted-path lookup used by
  `_safe_get_rule`.
- `text.dfy` (`Text`), `scan.dfy` (`Scan`): the string operations the checks
  use (`lower`, `upper`, `strip`, `split`, `find`, `count`, `int`, `str`) and
  greedy scanners for `\d*`, `\s*` and `\d+(\.\d+)*`. Every regular expression
  of the checks is a hand-written scanner over a restricted alphabet: ASCII
  digits, Latin letters, Cyrillic А–Я/а–я (Ё/ё only for case mapping) and
  Python's whitespace characters.
- `base_check.dfy` (`Base`): the state every check shares and its helpers.
  The repository has two base classes, `src/checks/base_checker.py` and
  `src/checks/base_check.py`. Their constructor, `set_rules` and
  `_create_result` behave the same (`src/checks/base_check.py:9-33`), so one
  `BaseCheck` models both. Only the first has `_safe_get_rule`.
- One module per check:
  - `section_check.dfy` (`SectionPresence`);
  - `section_numbering_check.dfy` (`SectionNumbering`);
  - `page_numbering_check.dfy` (`PageNumbering`);
  - `legacy_numbering_check.dfy` (`LegacyNumbering`);
  - `table_check.dfy` (`Tables`);
  - `figure_check.dfy` (`Figures`);
  - `formula_check.dfy` (`Formulas`);
  - `appendix_check.dfy` (`Appendices`).
- `registry.dfy` (`Registry`): `ALL_CHECKS` and `get_all_checks`.
- `validator.dfy` (`Validation`): the validator.
- `reporter.dfy` (`Reporting`): the report.

Each check is a class that holds a `BaseCheck` (Python's inheritance becomes
composition) and whose `set_rules` updates its fields. Its `run` is a method
`Run` proved equal to a function `Outcome`. The diagnostics are specification
functions over the text. The loops of `run` are methods proved equal to those
functions. The properties of the rules are lemmas about the functions.

## Model

| member | source | states |
|---|---|---|
| Models.CheckStatus.Value | src/models.py:5-8 | The value of a status is one of "PASSED", "FAILED", "ERROR" |
| Models.StatusValuesDistinct | src/models.py:5-8 | Two statuses have the same value exactly when they are the same status: there are three distinct values |
| Models.RecordDefaults | src/models.py:10-36 | A ValidationError from name and description has no page or element and empty recommendation and reference; a CheckResult without errors has none; a Document from its path alone has empty pages, sections, tables, figures and raw text |
| Config.Get | src/checks/appendix_checker.py:32-48 | `d.get(key, default)` yields the stored value when the key is present and the default otherwise |
| Config.Walk | src/checks/base_checker.py:44-53 | Walking a key path: the configuration itself for no keys; the default as soon as a step meets a non-mapping or a mapping without the key; otherwise the value reached (characterised by the Walk lemmas below) |
| Config.RuleAt | src/checks/base_checker.py:36-53 | `_safe_get_rule`: the default when the rules are falsy, otherwise the walk of the path split at every '.' |
| Config.WalkNest | src/checks/base_checker.py:47-53 | Walking a path through a configuration that stores a leaf under it returns the leaf itself, even None or another falsy value |
| Config.RuleAtNest | src/checks/base_checker.py:41-53 | The rule lookup returns whatever is stored under the dotted path; the default is not substituted for a falsy stored value |
| Config.WalkStoredOrDefault | src/checks/base_checker.py:44-53 | The lookup is total: it yields the default, the configuration itself, or a value stored inside it |
| Config.WalkMissing | src/checks/base_checker.py:47-51 | When some step of the path meets a non-mapping or a mapping without the key, the lookup yields the default |
| Text.FindFrom | src/checks/appendix_checker.py:172 | `find` from an index yields the first occurrence at or after it, or none when there is no such occurrence |
| Text.Find | src/checks/appendix_checker.py:170-172 | `find` yields nothing exactly when the text does not contain the pattern, and otherwise the lowest index where it occurs |
| Text.TrimStart | src/checks/table_checker.py:59 | `lstrip` removes exactly the leading run of whitespace |
| Text.TrimEnd | src/checks/table_checker.py:59 | `rstrip` removes exactly the trailing run of whitespace |
| Text.StripIdempotent | src/checks/table_checker.py:59-61 | A stripped line has no whitespace at either end, so stripping it again changes nothing |
| Text.Split | src/checks/base_checker.py:44 | `split` yields at least one piece |
| Text.JoinSplit | src/checks/base_checker.py:44 | Joining the pieces of a split with the separator gives the text back |
| Text.SplitPiecesLackSeparator | src/checks/base_checker.py:44 | No piece of a split contains the separator |
| Text.CountAbsent | src/checks/section_numbering_checker.py:63 | A character that does not occur is counted zero times |
| Text.CountAppend | src/checks/section_numbering_checker.py:63 | Counting a character in a concatenation adds the counts of the parts |
| Text.NatToString | src/checks/page_numbering_checker.py:47 | The decimal form of a number is a non-empty run of digits |
| Text.DigitsOfNatToString | src/checks/page_numbering_checker.py:34 | Reading the decimal form of a number back gives the number |
| Scan.DigitRunFacts | src/checks/page_numbering_checker.py:25-27 | The greedy digit run holds only digits and is not followed by a digit |
| Scan.SpaceRunFacts | src/checks/page_numbering_checker.py:25-27 | The greedy whitespace run holds only whitespace and is not followed by whitespace |
| Scan.NumberEnd | src/checks/figure_checker.py:18 | A number `\d+(\.\d+)*` starts at a position exactly when a digit stands there |
| Scan.NumberEndFacts | src/checks/figure_checker.py:18 | The scanned number is a match of `\d+(\.\d+)*` that no further digit or `.digits` group extends |
| Scan.NumberEndUnique | src/checks/figure_checker.py:18 | Any match of `\d+(\.\d+)*` at a position that cannot be extended ends where the scanner stops |
| Base.BaseCheck.constructor | src/checks/base_checker.py:10-13 | A new check has the given id and name and no rules |
| Base.BaseCheck.SetRules | src/checks/base_checker.py:15-20 | The rules are stored as given; id and name are constants and stay as they are |
| Base.BaseCheck.CreateResult | src/checks/base_checker.py:27-34 | The result carries the check's id and name and the given status; a missing or empty error list becomes the empty list, any other is kept in order |
| Base.BaseCheck.SafeGetRule | src/checks/base_checker.py:36-53 | The key-by-key loop returns the default when the rules are falsy and otherwise the walk of the dot-split path, which the Config lemmas characterise |
| SectionPresence.SectionCheck.constructor | src/checks/section_checker.py:8-14 | Id "required_sections", its name, no rules, required list "Введение", "Назначение", "Технические характеристики" |
| SectionPresence.SectionCheck.SetRules | src/checks/section_checker.py:16-23 | Stores the rules; the required list becomes the value under `gost_2_105.required_sections`, or stays as it was when the path is missing |
| SectionPresence.SectionCheck.Outcome | src/checks/section_checker.py:25-67 | The errors are the missing-section errors followed by the ordering error; status is never ERROR, and PASSED exactly when there is no error |
| SectionPresence.SectionCheck.Run | src/checks/section_checker.py:25-67 | The method's result is the one `Outcome` specifies |
| SectionPresence.FirstLineFrom | src/checks/section_checker.py:36-39 | The line found is the first one whose lower-cased form contains the lower-cased title |
| SectionPresence.FirstLine | src/checks/section_checker.py:36-39 | The line loop with `break` finds that first line |
| SectionPresence.Position | src/checks/section_checker.py:33-39 | The line recorded for a title: none unless the lower-cased text contains the lower-cased title, otherwise the first line whose lower-cased form contains it (none when no single line does) |
| SectionPresence.Put | src/checks/section_checker.py:38 | Assigning in the mapping keeps a present key in its place and appends a new key last |
| SectionPresence.FindSections | src/checks/section_checker.py:32-39 | The nested loop builds exactly the found-sections mapping |
| SectionPresence.FoundFacts | src/checks/section_checker.py:32-39 | The mapping's keys are exactly the required titles that are found, each recorded with its first line |
| SectionPresence.FoundSize | src/checks/section_checker.py:52 | The mapping never has more entries than the required list, and has as many exactly when every title is found and no title is repeated |
| SectionPresence.FoundCanonical | src/checks/section_checker.py:52-54 | With every title found once, the mapping lists them in required order with their lines |
| SectionPresence.InsertSorted | src/checks/section_checker.py:53 | Inserting an entry into a list ordered by line keeps it ordered |
| SectionPresence.SortByLine | src/checks/section_checker.py:53 | The sorted entries are ordered by line and are a permutation of the entries |
| SectionPresence.SortOfSorted | src/checks/section_checker.py:53 | Entries already ordered by line come back unchanged |
| SectionPresence.ReportMissing | src/checks/section_checker.py:42-49 | The loop appends the missing-section errors of the specification |
| SectionPresence.MissingReported | src/checks/section_checker.py:42-49 | Exactly one error per required title that is not found, naming it, in required-list order |
| SectionPresence.MissingTitlesOne | src/checks/section_checker.py:42-49 | When only one required title is absent, it is the only one reported missing |
| SectionPresence.NoneMissing | src/checks/section_checker.py:42-49 | With every title found, nothing is reported missing |
| SectionPresence.FirstMismatch | src/checks/section_checker.py:56-57 | The index found is the first where line order and required order name different titles; before it they agree |
| SectionPresence.ReportOrder | src/checks/section_checker.py:52-64 | The comparison loop with `break` appends the ordering errors of the specification |
| SectionPresence.OrderErrorOnlyWhenAllFound | src/checks/section_checker.py:52-64 | At most one ordering error, and only when every title was found and no title repeats |
| SectionPresence.PermutedOrderError | src/checks/section_checker.py:53-64 | Distinct titles found out of order give exactly one ordering error, recommending the configured order |
| SectionPresence.PermutedFailsOnce | src/checks/section_checker.py:42-66 | All distinct titles present but out of order: exactly one error, the ordering error |
| SectionPresence.CanonicalSortedInOrder | src/checks/section_checker.py:53-57 | Titles whose required order is already ordered by line are in order |
| SectionPresence.Errors | src/checks/section_checker.py:41-64 | The errors of a text start with exactly one missing-section error per title not found, in list order, followed by at most one more error, which only arises when every title is found and no title repeats |
| SectionPresence.InOrderPasses | tests/test_section_checker.py:14-38 | Every required title present on non-decreasing lines: no error, so PASSED |
| SectionPresence.OneMissingOneError | tests/test_section_checker.py:41-60 | Exactly one required title absent: exactly one error, the missing-section error naming it |
| SectionNumbering.SectionNumberingCheck.constructor | src/checks/section_numbering_checker.py:10-17 | Id "section_numbering", its name, no rules, pattern `^\d+(\.\d+)*\s+.+$` and maximum level 3 |
| SectionNumbering.SectionNumberingCheck.SetRules | src/checks/section_numbering_checker.py:19-30 | Stores the rules; pattern and maximum level take the values under their paths and keep the previous ones when a path is missing |
| SectionNumbering.SectionNumberingCheck.Outcome | src/checks/section_numbering_checker.py:32-73 | A non-string pattern gives ERROR with exactly the one pattern diagnostic; otherwise the errors are those of the sections in order, status is not ERROR and is PASSED exactly when there is no error |
| SectionNumbering.SectionNumberingCheck.CheckTitle | src/checks/section_numbering_checker.py:47-70 | The body of the section loop yields the diagnostics of one title |
| SectionNumbering.SectionNumberingCheck.Run | src/checks/section_numbering_checker.py:32-73 | The method's result is the one `Outcome` specifies |
| SectionNumbering.MatchesDefaultIff | src/checks/section_numbering_checker.py:16 | The scanner accepts a title exactly when `re.match` of the default pattern finds a match, the match stated by the pattern's parts |
| SectionNumbering.Level | src/checks/section_numbering_checker.py:63 | The level is the number of '.' anywhere in the title plus one |
| SectionNumbering.SectionErrors | src/checks/section_numbering_checker.py:47-70 | A title not starting with a digit gets nothing; otherwise a pattern error exactly when it does not match and a depth error exactly when its level exceeds the maximum, the pattern error first |
| SectionNumbering.Errors | src/checks/section_numbering_checker.py:46-70 | The diagnostics of the sections in order, each section's after the previous ones; at most two per section |
| SectionNumbering.ErrorsEmptyIff | src/checks/section_numbering_checker.py:72 | No diagnostic exactly when every section is skipped or passes both rules |
| SectionNumbering.SubsectionAccepted | src/checks/section_numbering_checker.py:16 | Under the defaults a title "X.Y Title" gets no error |
| SectionNumbering.RecommendedFormRejected | src/checks/section_numbering_checker.py:16 | Under the defaults a title "X. Title" gets exactly the pattern error: whitespace must follow the last digit group |
| PageNumbering.PageNumberingCheck.constructor | src/checks/page_numbering_checker.py:9-13 | Id "page_numbering", its name, no rules |
| PageNumbering.PageNumberingCheck.Outcome | src/checks/page_numbering_checker.py:15-65 | The errors are the first-pages and sequence errors of the collected numbers; status is not ERROR and is PASSED exactly when there is none |
| PageNumbering.PageNumberingCheck.Run | src/checks/page_numbering_checker.py:15-65 | The method's result is the one `Outcome` specifies |
| PageNumbering.ScanPattern | src/checks/page_numbering_checker.py:31-40 | The loop over one pattern's matches collects the numbers of the specification's scan |
| PageNumbering.Collect | src/checks/page_numbering_checker.py:24-40 | `page_numbers`: the numbers of all matches of "страниц[ауе] N", then of "стр. N", then of "— N —", each pattern scanned left to right |
| PageNumbering.FindAllEmptyIff | src/checks/page_numbering_checker.py:32 | A pattern yields no number exactly when it matches nowhere |
| PageNumbering.FindAllSound | src/checks/page_numbering_checker.py:32-34 | Every collected number is the number of a match of the pattern in the text |
| PageNumbering.PageOneCollected | src/checks/page_numbering_checker.py:25-27 | Collecting over all three patterns on "странице 1" yields exactly the number 1 |
| PageNumbering.Sorted | src/checks/page_numbering_checker.py:54 | The sorted numbers are ascending and a permutation of the collected ones |
| PageNumbering.InsertNatAscending | src/checks/page_numbering_checker.py:54 | Inserting into an ascending list keeps it ascending |
| PageNumbering.ReportFirstPages | src/checks/page_numbering_checker.py:43-50 | The loop appends the first-pages errors of the specification |
| PageNumbering.FirstPageErrorsAreSmall | src/checks/page_numbering_checker.py:43-50 | One first-pages error per collected number of at most 2, in collection order |
| PageNumbering.SmallCounts | src/checks/page_numbering_checker.py:43-50 | A small number is reported as many times as it was collected: duplicates are not merged |
| PageNumbering.FirstPageErrorsEmptyIff | src/checks/page_numbering_checker.py:43-50 | No first-pages error exactly when every number exceeds 2 |
| PageNumbering.ReportBreaks | src/checks/page_numbering_checker.py:55-62 | The index loop over the sorted numbers appends the sequence errors of the specification |
| PageNumbering.BreakErrorsBound | src/checks/page_numbering_checker.py:54-62 | At most n−1 sequence errors for n numbers |
| PageNumbering.BreakErrorsEmptyIff | src/checks/page_numbering_checker.py:55-56 | No sequence error exactly when each sorted number is its predecessor plus one |
| PageNumbering.RepeatIsBreak | src/checks/page_numbering_checker.py:56 | A number collected twice always gives a sequence error |
| PageNumbering.LoneSmallReference | src/checks/page_numbering_checker.py:43-53 | A single number of at most 2 gives exactly one error, the first-pages error |
| PageNumbering.PageOneOneError | src/checks/page_numbering_checker.py:25-53 | The text "странице 1" gives exactly one error, for page 1 |
| PageNumbering.NoErrorIff | src/checks/page_numbering_checker.py:43-64 | No error exactly when every number exceeds 2 and, with two or more, the sorted numbers step by one |
| PageNumbering.Errors | src/checks/page_numbering_checker.py:43-62 | The errors of a text: none exactly when every collected number exceeds 2 and, with two or more, the sorted numbers step by one |
| LegacyNumbering.PageNumberingCheck.constructor | src/checks/numbering_checker.py:7-8 | Id "page_numbering", name "Проверка нумерации страниц", no rules |
| LegacyNumbering.PageNumberingCheck.Run | src/checks/numbering_checker.py:10-30 | At most one error; there is one exactly when the lower-cased text contains "страница 1"; status is FAILED exactly then, PASSED otherwise |
| LegacyNumbering.MarkerPrefixReported | src/checks/numbering_checker.py:21 | Any text starting with "страница 1", such as "страница 10", triggers the error |
| LegacyNumbering.UpperCaseReported | src/checks/numbering_checker.py:21 | "СТРАНИЦА 1" triggers it too, since the text is lower-cased |
| LegacyNumbering.OtherCaseFormNotReported | src/checks/numbering_checker.py:21 | "странице 1" does not trigger it |
| Tables.TableCheck.constructor | src/checks/table_checker.py:10-17 | Id "table_format", its name, no rules, empty caption prefix, references required |
| Tables.TableCheck.SetRules | src/checks/table_checker.py:19-26 | Stores the rules; the caption settings change only when the rules hold `gost_2_105`, then to the `tables` values or their defaults |
| Tables.TableCheck.Outcome | src/checks/table_checker.py:28-72 | No mention: PASSED without errors; otherwise format errors in match order, then caption errors in line order, PASSED exactly when there is none; the caption settings are never read |
| Tables.TableCheck.Run | src/checks/table_checker.py:28-72 | The method's result is the one `Outcome` specifies |
| Tables.ScanMentions | src/checks/table_checker.py:33 | The scan loop yields the spans of the specification's `finditer` |
| Tables.NumberCharRun | src/checks/table_checker.py:15 | The greedy run of `[\.\d+]` holds only dots, digits and plus signs and is not followed by one |
| Tables.MatchShape | src/checks/table_checker.py:15 | A mention is "Таблица", whitespace, a digit, then the longest run of dots, digits and plus signs |
| Tables.FindAllSound | src/checks/table_checker.py:33 | Every span found is a match starting at its own start |
| Tables.FindAllEmptyIff | src/checks/table_checker.py:33-37 | No span exactly when the pattern matches nowhere |
| Tables.PlainOrDottedIff | src/checks/table_checker.py:46 | The designation scanner accepts exactly "N" and "N.M" |
| Tables.FormatOkIff | src/checks/table_checker.py:46 | A mention passes the format rule exactly when what follows the whitespace is "N" or "N.M" |
| Tables.ExamplesRejected | src/checks/table_checker.py:46 | "Таблица 1.2.3", "Таблица 1." and "Таблица 1+2" break the format |
| Tables.ReportFormats | src/checks/table_checker.py:42-54 | The loop over matches appends the format errors of the specification |
| Tables.FormatErrorsEmptyIff | src/checks/table_checker.py:42-54 | No format error exactly when every mention has the format |
| Tables.FormatErrorsElements | src/checks/table_checker.py:42-54 | At most one format error per mention, each carrying as element the text of a mention that breaks the format |
| Tables.ReportCaptions | src/checks/table_checker.py:57-69 | The loop over lines appends the caption errors of the specification |
| Tables.CaptionErrorsEmptyIff | src/checks/table_checker.py:57-69 | No caption error exactly when no stripped line starts with "Таблица" and is shorter than 14 |
| Tables.CaptionErrorsElements | src/checks/table_checker.py:57-69 | At most one caption error per line, each naming a stripped line that starts with "Таблица" and is shorter than 14 |
| Tables.Errors | src/checks/table_checker.py:33-69 | The errors of a text: none without a mention; otherwise none exactly when every mention has the "N" or "N.M" form and no stripped line is a "Таблица" line shorter than 14 |
| Figures.FigureCheck.constructor | src/checks/figure_checker.py:7-10 | Id "figure_format", its name, no rules |
| Figures.FigureCheck.Outcome | src/checks/figure_checker.py:12-35 | The errors are those of the uncaptioned figure mentions in match order; PASSED exactly when there is none |
| Figures.FigureCheck.Run | src/checks/figure_checker.py:12-35 | The method's result is the one `Outcome` specifies |
| Figures.ScanMentions | src/checks/figure_checker.py:18-19 | The scan loop yields the spans of the specification's `finditer` |
| Figures.MatchShape | src/checks/figure_checker.py:18 | A mention is "рисунок" in any case, whitespace, then a complete `\d+(\.\d+)*` |
| Figures.FindAllSound | src/checks/figure_checker.py:19 | Every span found is a match starting at its own start |
| Figures.After | src/checks/figure_checker.py:26 | The window after a mention has 20 characters, or fewer at the end of the text |
| Figures.UncaptionedIff | src/checks/figure_checker.py:26 | A mention is flagged exactly when it does not end the text and the next up to 20 characters are all whitespace |
| Figures.VisibleCharSuppresses | src/checks/figure_checker.py:26 | Any non-whitespace character within the window suppresses the error |
| Figures.EndOfTextNotFlagged | src/checks/figure_checker.py:26 | A mention that ends the text adds no error |
| Figures.ReportUncaptioned | src/checks/figure_checker.py:22-32 | The loop over matches appends the errors of the specification |
| Figures.FigureErrorsBound | src/checks/figure_checker.py:22-32 | At most one error per mention |
| Figures.FigureErrorsEmptyIff | src/checks/figure_checker.py:22-35 | No error exactly when no mention is flagged |
| Figures.Errors | src/checks/figure_checker.py:18-32 | The errors of a text: at most one per mention, none exactly when no mention is followed by up to 20 characters of whitespace alone |
| Formulas.FormulaCheck.constructor | src/checks/formula_checker.py:9-16 | Id "formulas", its name, no rules, the default numbering pattern, references required |
| Formulas.FormulaCheck.SetRules | src/checks/formula_checker.py:18-29 | Stores the rules; the two settings take the values under their paths or keep their previous ones |
| Formulas.FormulaCheck.Outcome | src/checks/formula_checker.py:31-132 | The errors are the bracket errors then the reference errors; neither setting is read; PASSED exactly when there is no error |
| Formulas.FormulaCheck.Run | src/checks/formula_checker.py:31-132 | The method's result is the one `Outcome` specifies |
| Formulas.MatchShape | src/checks/formula_checker.py:37 | A token is an opening bracket, a complete `\d+(\.\d+)*` and the matching closing bracket |
| Formulas.ScanTokens | src/checks/formula_checker.py:37-38 | The scan loop yields the tokens of the specification's `finditer` |
| Formulas.FindAllSound | src/checks/formula_checker.py:38 | Every token found is a match starting at its own start |
| Formulas.FindAllEmptyIff | src/checks/formula_checker.py:38 | No token exactly when the pattern matches nowhere |
| Formulas.Genuine | src/checks/formula_checker.py:47-66 | A bracketed number at a position is a formula when the lower-cased text from 30 before to 30 after that position holds "формул" or one of = + - * / ^, and none of "год", "рис", "стр", "пункт", "см." |
| Formulas.SelectFormulas | src/checks/formula_checker.py:41-72 | The filter loop keeps the formulas of the specification |
| Formulas.RealFormulasIff | src/checks/formula_checker.py:47-66 | A token is kept exactly when it was found and its lower-cased ±30 window has "формул" or a math sign and none of "год", "рис", "стр", "пункт", "см." |
| Formulas.RealFormulasBound | src/checks/formula_checker.py:41-72 | No more formulas than tokens |
| Formulas.YearIsNoFormula | src/checks/formula_checker.py:62-66 | "(5)" in "в 2023 году (5)" is not a formula |
| Formulas.ReportBrackets | src/checks/formula_checker.py:83-96 | The loop over one bracket style appends the bracket errors of the specification |
| Formulas.NearEquation | src/checks/formula_checker.py:86-90 | A square- or curly-bracketed number is reported when the lower-cased text from 20 before it to 20 after it holds "формул" or "уравнен" |
| Formulas.BracketErrorsBound | src/checks/formula_checker.py:83-96 | At most one bracket error per token |
| Formulas.BracketErrorsEmptyIff | src/checks/formula_checker.py:86-90 | No bracket error exactly when no token has "формул" or "уравнен" in its lower-cased ±20 window |
| Formulas.SearchIff | src/checks/formula_checker.py:111 | The search for a phrasing succeeds exactly when the phrasing matches at some position |
| Formulas.PhraseAt | src/checks/formula_checker.py:101-107 | The five reference forms at a position: "формул" and one of а, е, у, ы, "по формуле", "ф-ла" or "ф." (all ignoring case), each followed by optional whitespace and "(N)"; or "((N))" |
| Formulas.HasReference | src/checks/formula_checker.py:109-113 | The loop with `break` finds a reference exactly when one of the five phrasings matches |
| Formulas.FirstParen | src/checks/formula_checker.py:117 | The bare "(N)" found is the first in the text |
| Formulas.TokenMatchesItself | src/checks/formula_checker.py:117-118 | A formula's own token is a bare "(N)" occurrence, so the bare search always finds something |
| Formulas.UnreferencedIff | src/checks/formula_checker.py:115-127 | A formula is reported exactly when no phrasing matches and no bare "(N)" stands before its own |
| Formulas.ByFormulaRefersToItself | src/checks/formula_checker.py:101-113 | "по формуле (N)" refers to itself, so that formula is never reported |
| Formulas.DotIsWildcard | src/checks/formula_checker.py:102-106 | The number is spliced in unescaped, so "(1x2)" counts as a bare "(1.2)" |
| Formulas.ReportReferences | src/checks/formula_checker.py:99-127 | The loop over formulas appends the reference errors of the specification |
| Formulas.ReferenceErrorsBound | src/checks/formula_checker.py:99-127 | At most one reference error per formula |
| Formulas.ReferenceErrorsEmptyIff | src/checks/formula_checker.py:115-127 | No reference error exactly when no formula is unreferenced |
| Formulas.NoTokensNoErrors | src/checks/formula_checker.py:31-132 | A text without bracketed numbers passes |
| Formulas.Errors | src/checks/formula_checker.py:77-127 | The errors of a text: none exactly when no square- or curly-bracketed number is near "формул" or "уравнен" and no formula is unreferenced |
| Appendices.AppendixCheck.constructor | src/checks/appendix_checker.py:9-22 | Id "appendices", its name, no rules, the strict pattern, types and maximum length None, the four strictness flags and references required |
| Appendices.AppendixCheck.SetRules | src/checks/appendix_checker.py:24-48 | Stores the rules; each of the eight settings is the value under its key of the appendix section or its group, or the stated default |
| Appendices.MissingSectionDefaults | src/checks/appendix_checker.py:29-48 | Without an appendix section the defaults apply: types cyrillic, latin, numeric, length 2, the three flags true, and they let the check run |
| Appendices.AppendixCheck.Outcome | src/checks/appendix_checker.py:53-142 | The errors are the heading errors in line order, then the reference errors; PASSED exactly when there is none |
| Appendices.AppendixCheck.Run | src/checks/appendix_checker.py:53-142 | The method's result is the one `Outcome` specifies |
| Appendices.DesignationRun | src/checks/appendix_checker.py:177 | The greedy run of `[А-ЯA-Z\d]` holds only such characters and is not followed by one |
| Appendices.DesignationShape | src/checks/appendix_checker.py:177-183 | A designation exists exactly when the text starts with `[А-ЯA-Z\d]`; it is a prefix of the text, the longest such run, possibly followed by '-', with a trailing '.' dropped |
| Appendices.DesignationOfWord | src/checks/appendix_checker.py:177-183 | A designation followed by an optional '.' is extracted as itself |
| Appendices.ExtractHeading | src/checks/appendix_checker.py:163-185 | "ПРИЛОЖЕНИЕ " followed by a designation and an optional '.' yields that designation |
| Appendices.ExtractIgnoresCase | src/checks/appendix_checker.py:167 | Extraction gives the same on a line and on its upper-cased form |
| Appendices.Extract | src/checks/appendix_checker.py:163-185 | The designation read after the first "ПРИЛОЖЕНИЕ" of the upper-cased line: empty, or a run of `[А-ЯA-Z\d]` that may end in '-' |
| Appendices.KindOf | src/checks/appendix_checker.py:187-206 | The type of a designation: unknown when empty, numeric when all digits, otherwise cyrillic when it has a Cyrillic capital, latin when it has a Latin capital, and mixed else |
| Appendices.KindExamples | src/checks/appendix_checker.py:187-206 | "1А" is cyrillic, "AB" latin, "12" numeric |
| Appendices.MixedIsDigitsAndDash | src/checks/appendix_checker.py:187-206 | An extracted designation is "mixed" exactly when it is digits followed by '-' |
| Appendices.HeadingOf | src/checks/appendix_checker.py:63-72 | A heading found on a line records that line and a non-empty designation |
| Appendices.ExamineLine | src/checks/appendix_checker.py:63-72 | The body of the line loop yields the heading of that line, if it is one |
| Appendices.HeadingsIff | src/checks/appendix_checker.py:63-93 | Every heading found comes from its own line, the headings are in line order, and every heading line is found |
| Appendices.CollectHeadings | src/checks/appendix_checker.py:63-98 | The line loop collects the headings of the specification |
| Appendices.PageOf | src/checks/appendix_checker.py:237-241 | The page of a line is (line index div 50) + 1 |
| Appendices.AppendixCheck.ValidateFormat | src/checks/appendix_checker.py:208-235 | The space issue holds exactly when a space is required and no whitespace follows the keyword; the case issue exactly when capitals are required and the line does not start with "ПРИЛОЖЕНИЕ" |
| Appendices.AppendixCheck.DescribeIssues | src/checks/appendix_checker.py:103-122 | The messages for one heading are those of the specification, in type, length, space, case order |
| Appendices.Issues | src/checks/appendix_checker.py:103-122 | The messages for one heading, in type, length, space, case order: at most four, and none exactly when its type is allowed, it is short enough, and neither spelling issue applies |
| Appendices.DefaultHeadingExamples | src/checks/appendix_checker.py:103-133 | Under the defaults "ПРИЛОЖЕНИЕ А" passes and "Приложение А" gets only the case message |
| Appendices.AppendixCheck.ReportHeadings | src/checks/appendix_checker.py:103-135 | The loop over headings appends the heading errors of the specification |
| Appendices.HeadingErrorsBound | src/checks/appendix_checker.py:103-133 | At most one error per heading, none exactly when every heading passes |
| Appendices.FindExplicit | src/checks/appendix_checker.py:254-269 | The loop with `break` finds an explicit reference exactly when one of the six forms occurs |
| Appendices.Explicit | src/checks/appendix_checker.py:254-269 | An explicit reference: one of the six forms "приложени[еия] X", "приложени[еия].X", "приложение X", "приложении X", "прилож. X", "прил. X" occurs in the lower-cased text |
| Appendices.InWords | src/checks/appendix_checker.py:277-280 | The lower-cased designation is one of the words `\b\w+\b` of the lower-cased text |
| Appendices.BoundedIn | src/checks/appendix_checker.py:283-284 | The lower-cased designation occurs between two word boundaries somewhere in the lower-cased text |
| Appendices.Unreferenced | src/checks/appendix_checker.py:243-293 | A designation is reported when it has no explicit reference, is not a word of the text and occurs nowhere between word boundaries |
| Appendices.WordIsBounded | src/checks/appendix_checker.py:277-284 | A whole-word occurrence is also a match between word boundaries |
| Appendices.UnreferencedIff | src/checks/appendix_checker.py:271-293 | A designation is reported exactly when no explicit form occurs and it stands nowhere between word boundaries |
| Appendices.HeadingRefersToItself | src/checks/appendix_checker.py:257-269 | A heading written "ПРИЛОЖЕНИЕ X" with one space refers to itself, so it is never reported unreferenced |
| Appendices.CheckReferences | src/checks/appendix_checker.py:243-297 | The loop over headings appends the reference errors of the specification |
| Appendices.ReferenceErrorsBound | src/checks/appendix_checker.py:286-293 | At most one reference error per heading, none exactly when every designation is referred to, and none carries a page |
| Appendices.Errors | src/checks/appendix_checker.py:103-142 | The errors of a text: at most two per heading, none without headings whatever the settings, and none exactly when every heading passes and, when references are required, every designation is referred to |
| Registry.IdsDistinct | src/checks/__init__.py:11-20 | No two registered classes share an id |
| Registry.RegistryDistinct | src/checks/__init__.py:11-20 | The registry lists eight classes, each once |
| Registry.PristineRunnable | src/checks/__init__.py:27-28 | Left at their constructor defaults, all checks except the appendix check run on any document |
| Registry.PristineAppendixNeedsNoHeadings | src/checks/appendix_checker.py:17-80 | An unconfigured appendix check runs exactly on texts without appendix headings |
| Registry.ConfiguredAppendixRunnable | src/checks/appendix_checker.py:35-39 | A configuration without designation settings gives the appendix check defaults under which it runs on any document |
| Registry.RunnableIsClassPrecondition | src/core/validator.py:23-24 | An instance in the registry can run exactly when its own class's `run` can |
| Registry.Instantiate | src/checks/__init__.py:26-28 | One iteration: a fresh instance of the class with its id and name, configured when the configuration is truthy, at its defaults otherwise |
| Registry.MakeSection | src/checks/__init__.py:26-28 | A fresh section check, configured exactly when the configuration is truthy |
| Registry.MakeSectionNumbering | src/checks/__init__.py:26-28 | A fresh section-numbering check, configured exactly when the configuration is truthy |
| Registry.MakePageNumbering | src/checks/__init__.py:26-28 | A fresh page-numbering check, configured exactly when the configuration is truthy |
| Registry.MakeTable | src/checks/__init__.py:26-28 | A fresh table check, configured exactly when the configuration is truthy |
| Registry.MakeFigure | src/checks/__init__.py:26-28 | A fresh figure check, configured exactly when the configuration is truthy |
| Registry.MakeFormula | src/checks/__init__.py:26-28 | A fresh formula check, configured exactly when the configuration is truthy |
| Registry.MakeAppendix | src/checks/__init__.py:26-28 | A fresh appendix check, configured exactly when the configuration is truthy |
| Registry.GetAllChecks | src/checks/__init__.py:23-31 | One fresh instance per registered class in registry order, sharing no object with another; `set_rules` applied exactly when the configuration is truthy |
| Validation.Validator.constructor | src/core/validator.py:10-11 | A new validator has no checks |
| Validation.Validator.RegisterCheck | src/core/validator.py:13-15 | The check is appended at the end; earlier registrations are unchanged |
| Validation.Validator.Validate | src/core/validator.py:18-29 | One result per registered check, in order, each that check's `run`; the registered list is unchanged |
| Validation.Outcomes | src/core/validator.py:21-29 | There are exactly as many results as checks |
| Validation.OutcomesPointwise | src/core/validator.py:23-25 | Result i is the result of running check i |
| Validation.RegisteringAppendsResult | src/core/validator.py:13-25 | Registering one more check appends its result and keeps the earlier results |
| Reporting.PassedCount | src/core/reporter.py:17 | `passed` never exceeds the number of results |
| Reporting.PassedCountIsPassed | src/core/reporter.py:17 | Comparing the status value with "PASSED" counts exactly the PASSED results |
| Reporting.FailedIncludesErrors | src/core/reporter.py:16-25 | `failed` = total − passed counts the FAILED and the ERROR results together |
| Reporting.AllPassedIff | src/core/reporter.py:16-25 | `passed` equals the total exactly when every result is PASSED |
| Reporting.ProjectErrors | src/core/reporter.py:41-46 | One entry per error, in order, holding its description, recommendation and reference |
| Reporting.GenerateReport | src/core/reporter.py:12-50 | Document path; total; passed = PASSED count; failed = FAILED + ERROR counts; "0%" without results; one entry per result in order with id, name, status value, `errors_count` = number of errors and the projected errors |

## Left out

- FormatCheck (`src/checks/format_checker.py`) is not part of this model: it reads the size and existence of the real file. `Registry.CheckKind` keeps its place in `ALL_CHECKS`, and `Registry.GetAllChecks` builds the other seven instances in order.
- The call of `run` on a registered check is not a member. The validator only calls it, so `Validation.Validator` is generic over the check type and takes `run` as a function. Each class's `Run` is proved equal to its `Outcome`, and `Registry.RunnableIsClassPrecondition` ties the registry's precondition to the class preconditions.
- A check that raises is outside the model, because `run` may raise on an ill-typed configuration and the validator does not catch it. Each class states the configurations it models as a precondition. Those preconditions exclude every configuration on which `run` raises. They also exclude some on which Python runs without raising; the lines below name both kinds.
- SectionPresence.SectionCheck.Outcome: requires the required list to be a list of strings. Python raises on a number, on None, and on a list holding a non-string (`section.lower()`, `src/checks/section_checker.py:34`). Python only iterates the value (`:33`, `:42`) and joins it (`:61`), so it also runs on any iterable of strings. A string is then checked character by character and a mapping by its keys. Neither of those is modelled.
- SectionNumbering.SectionNumberingCheck.Outcome: a non-string pattern gives the ERROR result, as in Python. A string pattern must be exactly the default pattern, since an arbitrary user regular expression is not modelled. The maximum level must then be a number, even for a document whose titles do not start with a digit. Python compares the level with it (`src/checks/section_numbering_checker.py:64`) only after the digit filter at `:50`. So with no numbered title any value runs, and the check passes. With a numbered title, None, a string or a list raises. A float is not representable in `Config.Value`.
- Appendices.AppendixCheck.Outcome: requires either a text without headings or configured designation settings: the types a list of strings and the maximum length a number. The constructor leaves both None. On the first heading Python then raises, from `in` on None (`src/checks/appendix_checker.py:77`) and from the length comparison (`:80`). Python's `in` at `:77` also accepts a string (a substring test), a mapping (a key test) or a list holding non-strings. The join at `:108` runs only for a type that is not allowed, so a list holding non-strings raises only there. Such type settings can run in Python but are not modelled.
- Tables.TableCheck.SetRules: requires rules on which `in` and the nested `get` calls do not raise.
- Appendices.AppendixCheck.SetRules: requires mapping values for the appendix section and its two groups.
- Registry.GetAllChecks: requires a configuration accepted by both `set_rules` methods above.
- Registry.GetAllChecks: builds seven instances, not eight, because FormatCheck is left out.
- Reporting.GenerateReport: `success_rate` for a non-empty result list is the pair (passed, total). The float percentage text is not modelled.
- The report's `validation_date` (the clock) and `save_report` (a file write) are not modelled.
- The `print` narration is not modelled, in the checks and in the validator.
- Reading files, the parser, the YAML loader and the command line are not modelled. The configuration is a `Config.Value` tree, and a document is a `Models.Document` value.
- Only the concrete patterns of the checks are modelled, each over the restricted alphabet. Full Python `re` and Unicode semantics (`\d`, `\w`, `\s`, `upper`, `lower`) are not.
- Dead code is not modelled: `_check_formula_references`, `_is_strict_gost_format` and the never-reported `has_format_issue`.
- The legacy `PageNumberingCheck` of `src/checks/numbering_checker.py` has the same id as the current page-numbering check. It is modelled on its own and is not in the registry.
- Two reference searches are modelled literally:
  - The formula number is spliced into the reference patterns unescaped, so each '.' in it matches any character but a line break (`Formulas.DotIsWildcard`).
  - The first two explicit appendix forms contain `[еия]`, but they are searched as plain substrings, so the brackets are literal text.
- Python's `sorted` is stable. `SectionPresence.SortByLine` is a stable insertion sort, but only its order and permutation properties are stated.
