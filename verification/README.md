# validator_tool: a Dafny model of the formula and dependency core

validator_tool compares two data sources (CSV files or Excel workbooks)
column by column, using formulas written in a spreadsheet to know which
columns are computed from which. This project models its symbolic core in
Dafny and proves properties about it:

- **Reference scanning and translation** (`patterns.dfy`, `splice.dfy`,
  `formula_extractor.dfy`): each regular expression the code uses is a
  hand-written matcher anchored at one position, under one scan with the
  semantics of `finditer`/`findall`/`sub`. `_translate_formula` and
  `_translate_formula_multi_sheet` keep their right-to-left splice loop,
  and it is proved equal to a left-to-right rebuild of the original. The
  external-reference, untranslated-column and dependency scans, the
  automatic translation map and `_extract_auto_discovery` are modelled too.
- **Automatic discovery** (`formula_auto_discovery.dfy`): `_generalize_formula`,
  both analysers (`_analyze_formula` with the workbook's header rows as
  maps, `_analyze_formula_lightweight` with its header cache), the column
  loop of `discover_formulas`, the merge of `discover_all_sheets` and
  `generate_config_section`.
- **Cross-sheet analysis** (`cross_sheet_refs.dfy`, `cross_sheet_workbook.dfy`,
  `cross_sheet_graph.dfy`, `cross_sheet_order.dfy`, `cross_sheet_cycles.dfy`):
  `_parse_cell_ref`, `_extract_cross_references`, the workbook pass,
  `generate_dependency_graph`, `_calculate_processing_order`,
  `_detect_circular_dependencies` (a class holding `visited`, `rec_stack`
  and `path`), `validate_cross_references` and `suggest_optimizations`.
- **Impact analysis** (`impact.dfy`, `validate_main.dfy`): the three methods
  of the impact analyser and the aggregation in `validate.py`'s `main`
  (reverse dependencies, statistics, most referenced, alerts, the cascade
  split).
- **Decision rules** (`report.dfy`, `data_loader.dfy`, `config_loader.dfy`,
  `auto_config.dfy`): report counts, levels, alert order and formula lookup;
  column letters to positions; configuration checks and defaults; the
  column typing, shared columns, key, validation, tolerance and
  relationship suggestions and `generate_config`.
- Shared helpers: `wrappers.dfy` (Option, Result), `text.dfy` (ASCII
  character classes and string functions), `assoc.dfy` (Python dicts as
  insertion-ordered association lists), `columns.dfy` (openpyxl's
  bijective base-26 column letters) and `sorting.dfy` (Python's stable
  `sorted`).

Loops in the source are methods with loop invariants, each proved against a
specification function. Objects whose fields the source updates are
classes: the cycle search and the configuration generator's analysis. The
properties are proved as lemmas about those specification functions.

Where the code and its design description disagree, the model follows the
code:

- The design calls for every circular dependency to be reported. As
  written, `_detect_circular_dependencies` returns a cycle only when it
  closes at the root of a search. A cycle found deeper comes back as
  `True` and is dropped, and a stale recursion-stack mark can make
  `path.index` raise. The model has a flag that selects either this
  behaviour or one where the cycle is handed up; both are proved about
  (see Findings).
- `_calculate_processing_order` receives the target-to-referencing-sheets
  map built at `cross_sheet_analyzer.py:68`, as in the code.

## Model

| member | source | states |
|---|---|---|
| FormulaExtractor.ExtractorFor | validator_tool/src/formula_extractor.py:23-36 | the configuration's "tipo" selects auto-discovery or multi-sheet extraction exactly for those two values; anything else, or none, is the single-sheet extractor |
| FormulaExtractor.TranslateFormula | validator_tool/src/formula_extractor.py:277-308 | the loop over the reference matches, last to first, yields the text in which every mapped `COLROW` reference is replaced by its header name |
| FormulaExtractor.TranslateUnmappedIdentity | validator_tool/src/formula_extractor.py:291-306 | references whose column has no entry, and all text between references, come out unchanged |
| FormulaExtractor.UnmappedKeepsText | validator_tool/src/formula_extractor.py:300-306 | an unmapped reference is rewritten to its own text |
| FormulaExtractor.TranslateEmptyMap | validator_tool/src/formula_extractor.py:277-308 | with an empty map the formula is returned unchanged |
| FormulaExtractor.ExampleScan | validator_tool/src/formula_extractor.py:21 | the cell-reference pattern matches "A2" at 1 and "B2" at 4 in "=A2+B2", capturing column and row, and nowhere else in between |
| FormulaExtractor.TranslateExample | validator_tool/src/formula_extractor.py:277-308 | "=A2+B2" with A and B mapped to SALARIO and BONUS becomes "=SALARIO+BONUS" (the row is dropped) |
| FormulaExtractor.SpliceMatches | validator_tool/src/formula_extractor.py:291-306 | the in-place splice loop, run from the last match to the first, equals the rebuild of the original from its edits |
| FormulaExtractor.TranslateFormulaMultiSheet | validator_tool/src/formula_extractor.py:193-230 | sheet references whose "Sheet!COL" is mapped are replaced first, then local references not preceded by '!' |
| FormulaExtractor.MultiSheetWithoutBang | validator_tool/src/formula_extractor.py:193-230 | on a formula without '!' the multi-sheet translation equals the single-sheet one |
| FormulaExtractor.ExternalReferences | validator_tool/src/formula_extractor.py:232-238 | the sheet names written before '!', each once |
| FormulaExtractor.ExternalReferencesSound | validator_tool/src/formula_extractor.py:232-238 | every listed name is a non-empty word run that the formula writes followed by '!' |
| FormulaExtractor.ExternalReferencesComplete | validator_tool/src/formula_extractor.py:232-238 | every maximal word run followed by '!' is listed |
| FormulaExtractor.DependsOnFor | validator_tool/src/formula_extractor.py:247-254 | the other keys whose short name occurs in the text, in key order |
| FormulaExtractor.DependenciesOf | validator_tool/src/formula_extractor.py:247-254 | the inner loop computes exactly those keys |
| FormulaExtractor.AnalyzeFormulaDependencies | validator_tool/src/formula_extractor.py:240-256 | every formula's `depends_on` becomes the other formulas its translation mentions; nothing else changes |
| FormulaExtractor.DependsOnForNoDup | validator_tool/src/formula_extractor.py:240-256 | distinct formula keys give a dependency list without repeats |
| FormulaExtractor.FindColumnByHeader | validator_tool/src/formula_extractor.py:258-275 | the result is the first column from 1 to max_column whose header is the name, and None exactly when no such column exists |
| FormulaExtractor.UntranslatedColumns | validator_tool/src/formula_extractor.py:357-377 | the distinct referenced columns without a map entry; empty exactly when every referenced column is mapped |
| FormulaExtractor.UntranslatedEmptyMeansAllMapped | validator_tool/src/formula_extractor.py:357-377 | when nothing is reported untranslated, every reference is replaced by its mapped name |
| FormulaExtractor.LocalColumnLettersNoBang | validator_tool/src/formula_extractor.py:465 | the local column letters contain no '!', so a local key can never be read as "Sheet!COL" |
| FormulaExtractor.LocalLettersUpper | validator_tool/src/formula_extractor.py:465 | the captured local column letters are upper-case letters |
| FormulaExtractor.PutSheetColumnsGet | validator_tool/src/formula_extractor.py:454-461 | a "Sheet!Name" dependency maps each referenced "Sheet!COL" to Name, overwriting, and keeps every other entry |
| FormulaExtractor.PutLocalColumnsGet | validator_tool/src/formula_extractor.py:462-469 | a local dependency maps each referenced local column that had no entry to itself and keeps every other entry |
| FormulaExtractor.AutoMappingGet | validator_tool/src/formula_extractor.py:445-471 | the automatic map has distinct keys and holds exactly the entries the dependencies describe |
| FormulaExtractor.PutSheetColumns | validator_tool/src/formula_extractor.py:456-461 | the inner loop for a sheet dependency computes its specification |
| FormulaExtractor.PutLocalColumns | validator_tool/src/formula_extractor.py:464-469 | the inner loop for a local dependency computes its specification |
| FormulaExtractor.CreateAutoMapping | validator_tool/src/formula_extractor.py:445-471 | the map has distinct keys and each key's entry is the one the dependencies, taken in order, give it |
| FormulaExtractor.LongestFirst | validator_tool/src/formula_extractor.py:481 | the keys are a permutation of the map's keys, sorted by decreasing length |
| FormulaExtractor.TranslateFormulaAuto | validator_tool/src/formula_extractor.py:473-496 | the loop visits the keys longest first, and each key replaces every `<key><row>` reference in the current text by its value |
| FormulaExtractor.SubstituteKeyStep | validator_tool/src/formula_extractor.py:486-494 | one `re.sub` rebuilds the text with each match of the left-to-right scan replaced by the value, and each such match is the key followed by a run of digits |
| FormulaExtractor.SubstituteKeyComplete | validator_tool/src/formula_extractor.py:486-494 | every `<key><digits>` reference that no match of the scan overlaps is replaced |
| FormulaExtractor.KeyReference | validator_tool/src/formula_extractor.py:486-491 | a reference of a key without digits is the key's characters, then a digit, then digits to the end of the match |
| FormulaExtractor.KeysOverlapSuffix | validator_tool/src/formula_extractor.py:480-481 | for two non-empty keys without digits (every column-letter key, and a sheet key whose sheet name has no digit): when their references overlap, the later one's key is a suffix of the earlier one's and both end at the same place, so only a shorter key can take part of a longer key's reference |
| FormulaExtractor.DigitKeysOverlap | validator_tool/src/formula_extractor.py:458-491 | keys with digits break that rule: on "=DADOS1!A5" the local key "DADOS" and the sheet key "DADOS1!A" both match at offset 1, one ending at 7 and the other at 10 |
| FormulaExtractor.LocalKeysDisjoint | validator_tool/src/formula_extractor.py:490-491 | with the `(?<![A-Z!])` guard two column-letter keys never overlap unless they are the same reference |
| FormulaExtractor.DigitFreeNoReference | validator_tool/src/formula_extractor.py:486-491 | a text without digits holds no reference of any key, so a value without digits is never rewritten by a later key |
| FormulaExtractor.ShortKeyReplacesTail | validator_tool/src/formula_extractor.py:486-494 | in `<outer><inner>!<col><row>` the key `<inner>!<col>` replaces the tail of the reference and leaves `<outer>` |
| FormulaExtractor.WholeKeyReplaced | validator_tool/src/formula_extractor.py:486-494 | a sheet key followed by digits to the end of the text becomes its value as a whole |
| FormulaExtractor.LongestFirstTwo | validator_tool/src/formula_extractor.py:481 | of two keys of different lengths the longer is visited first |
| FormulaExtractor.DictOrderLeavesOuter | validator_tool/src/formula_extractor.py:480-494 | visiting the shorter sheet key first turns `<outer><inner>!<col><row>` into `<outer>` and the shorter key's value |
| FormulaExtractor.LongestFirstWhole | validator_tool/src/formula_extractor.py:480-494 | visiting the longer key first turns the same reference into the longer key's value alone |
| FormulaExtractor.LongestFirstAvoidsPartial | validator_tool/src/formula_extractor.py:480-494 | for such a map, dict order gives the partial replacement and the sorted order of the code the whole one |
| FormulaExtractor.SubstituteAbsentKey | validator_tool/src/formula_extractor.py:483-494 | a key that occurs nowhere followed by a row leaves the text as it is |
| FormulaExtractor.DependenciesFromTranslated | validator_tool/src/formula_extractor.py:498-509 | the distinct header-like names of the translation, Excel functions excluded (both directions) |
| FormulaExtractor.DependenciesAreNames | validator_tool/src/formula_extractor.py:503-508 | every listed dependency is a header-like name and not a function |
| FormulaExtractor.TranslateDiscovered | validator_tool/src/formula_extractor.py:412-436 | the loop body for one discovered formula computes its entry, or the error of an unknown column |
| FormulaExtractor.TranslateAllDiscovered | validator_tool/src/formula_extractor.py:412-436 | the loop over the discovered formulas computes their entries in order, stopping at the first error |
| FormulaExtractor.ExtractAutoDiscovery | validator_tool/src/formula_extractor.py:379-443 | discover, translate each formula, then analyse the dependencies between them |
| FormulaExtractor.DiscoveredInfoMeaning | validator_tool/src/formula_extractor.py:412-436 | a discovered formula fails exactly when its column letters name no column; otherwise it is translated with its own map or, when that is empty, with the automatic one |
| FormulaExtractor.ExtractAutoEntry | validator_tool/src/formula_extractor.py:379-443 | each extracted entry is its formula's translated entry whose `depends_on` lists, once each, the other formula keys its translation mentions |
| FormulaExtractor.AutoDiscoveryNeverFails | validator_tool/src/formula_extractor.py:431 | on what discovery finds the extraction never raises: every discovered column is among the first 300 |
| Patterns.RunEnd | validator_tool/src/formula_extractor.py:21 | the end of the longest run from `i` whose characters satisfy the class; the next character, if any, does not |
| Patterns.CellRefAt | validator_tool/src/formula_extractor.py:21 | a match of `\b([A-Z]+)(\d+)\b` is upper-case letters then digits, with no word character on either side |
| Patterns.SheetRefAt | validator_tool/src/formula_extractor.py:201 | a match of `(\w+)!([A-Z]+)(\d+)` is a non-empty sheet name, '!', letters and digits |
| Patterns.SheetRefChars | validator_tool/src/formula_auto_discovery.py:314 | the sheet name of such a match holds no '!' and the match holds no space |
| Patterns.SheetPrefixAt | validator_tool/src/formula_extractor.py:236 | a match of `(\w+)!` is a non-empty word run followed by '!' |
| Patterns.LocalRefAt | validator_tool/src/formula_auto_discovery.py:209 | a match of the local-reference pattern is letters then digits, not preceded by a letter or '!' |
| Patterns.MixedRefAt | validator_tool/src/formula_auto_discovery.py:254 | a match of the mixed-reference pattern captures letters and digits |
| Patterns.SheetRangeAt | validator_tool/src/formula_auto_discovery.py:250 | a match of the sheet-range pattern captures a non-empty sheet name and two letter runs |
| Patterns.SheetColumnsAt | validator_tool/src/formula_auto_discovery.py:251 | a match of the sheet-columns pattern captures a non-empty sheet name and two letter runs |
| Patterns.LocalColumnsAt | validator_tool/src/formula_auto_discovery.py:253 | a match of the local-columns pattern captures two letter runs |
| Patterns.UpperNameAt | validator_tool/src/formula_extractor.py:503 | a match of the name pattern is at least two characters of upper-case letters and '_', beginning and ending with a letter |
| Patterns.UpperDigitsAt | validator_tool/src/formula_auto_discovery.py:400 | a match of `([A-Z]+)(\d+)` is letters then a maximal run of digits |
| Patterns.LocalLettersAt | validator_tool/src/formula_extractor.py:465 | a match of the local-letters pattern captures letters not preceded by a letter or '!' |
| Patterns.LiteralSheetRefAt | validator_tool/src/formula_extractor.py:458 | a match of the escaped-sheet pattern begins with the sheet name and '!' and captures letters |
| Patterns.KeyRowAt | validator_tool/src/formula_extractor.py:486-491 | a match of the key pattern is the key followed by captured digits |
| Patterns.LazySheetAt | validator_tool/src/cross_sheet_analyzer.py:25-29 | the lazy sheet part of the cross-sheet patterns is non-empty, starts with a letter or '_' and holds no '!' |
| Patterns.QuotedSheetCellAt | validator_tool/src/cross_sheet_analyzer.py:31 | a quoted sheet name is non-empty and holds no quote |
| Patterns.VlookupCrossAt | validator_tool/src/cross_sheet_analyzer.py:33 | the VLOOKUP pattern captures a sheet name as above and a non-empty reference |
| Patterns.Scan | validator_tool/src/formula_extractor.py:291 | the matches a left-to-right scan finds lie in range and do not overlap, in order |
| Patterns.ScanComplete | validator_tool/src/formula_extractor.py:291 | a match that no match of the scan overlaps is among the matches found |
| Patterns.Groups | validator_tool/src/formula_extractor.py:236-237 | `findall` lists one group of each match, in order |
| Patterns.FindAll | validator_tool/src/formula_extractor.py:291 | `finditer` yields matches that start where the pattern matches, ordered and non-overlapping |
| Patterns.FoundAt | validator_tool/src/formula_extractor.py:291 | every match of the scan is the pattern's match at its own start |
| Patterns.SubFromRebuild | validator_tool/src/formula_auto_discovery.py:401 | `sub` is the rebuild of the text with each match of the scan replaced |
| Patterns.FindAllComplete | validator_tool/src/formula_extractor.py:291 | a match that no earlier match of the scan overlaps is found by the scan |
| Columns.ColumnLetters | validator_tool/src/formula_auto_discovery.py:68 | `get_column_letter` gives upper-case letters |
| Columns.ColumnIndex | validator_tool/src/formula_auto_discovery.py:228 | `column_index_from_string` accepts exactly one to three letters and gives a column from 1 to 18278 |
| Columns.ValueOfLetters | validator_tool/src/formula_auto_discovery.py:68 | the letters of column `n` read back as `n` |
| Columns.LettersOfValue | validator_tool/src/formula_auto_discovery.py:228 | a letter run is the letters of the column it names |
| Columns.ColumnValueInjective | validator_tool/src/formula_auto_discovery.py:228 | distinct letter runs name distinct columns |
| Columns.LettersLength | validator_tool/src/formula_auto_discovery.py:68 | column letters have at most three letters for the columns openpyxl knows |
| Columns.IndexOfLetters | validator_tool/src/formula_extractor.py:431 | `column_index_from_string(get_column_letter(n)) == n` for every column openpyxl knows |
| Splice.SpliceStep | validator_tool/src/formula_extractor.py:304 | one right-to-left splice keeps the text equal to the original up to the edit, then the rebuild after it |
| Splice.RebuildIdentity | validator_tool/src/formula_extractor.py:300-306 | edits that rewrite each span to itself rebuild the original text |
| Sorting.SortBy | validator_tool/src/report_generator.py:448 | `sorted` returns a permutation of its input |
| Sorting.SortBySorted | validator_tool/src/report_generator.py:448 | the result of `sorted` is in key order |
| Sorting.SortByStable | validator_tool/src/report_generator.py:448 | `sorted` is stable: elements sharing a key keep their relative order |
| Sorting.Take | validator_tool/src/auto_config_generator.py:459 | `xs[:n]` has `min(n, len(xs))` elements, the first ones of `xs` |
| Sorting.TakeSortedSmallest | validator_tool/src/formula_extractor.py:481 | the first elements of a sorted sequence carry the smallest keys |
| FormulaAutoDiscovery.PlaceholderHasNoRow | validator_tool/src/formula_auto_discovery.py:400-401 | the replacement `LETTERS{row}` has no upper-case letter before a digit |
| FormulaAutoDiscovery.GeneralizedHasNoRow | validator_tool/src/formula_auto_discovery.py:392-403 | the output of the generalisation never has an upper-case letter directly before a digit |
| FormulaAutoDiscovery.MatchHasRow | validator_tool/src/formula_auto_discovery.py:400 | inside every match of `([A-Z]+)(\d+)` a letter is directly followed by a digit |
| FormulaAutoDiscovery.NoRowNoMatch | validator_tool/src/formula_auto_discovery.py:400 | a text with no letter before a digit holds no reference to generalise |
| FormulaAutoDiscovery.GeneralizeIdempotent | validator_tool/src/formula_auto_discovery.py:392-403 | generalising twice is generalising once |
| FormulaAutoDiscovery.UpperDigitsHit | validator_tool/src/formula_auto_discovery.py:400 | a letter run followed by a maximal digit run is one match, capturing both runs |
| FormulaAutoDiscovery.GeneralizeLastCell | validator_tool/src/formula_auto_discovery.py:392-403 | a reference "<y><b>" ending the text becomes "<y>{row}" |
| FormulaAutoDiscovery.GeneralizeCellThenChar | validator_tool/src/formula_auto_discovery.py:392-403 | a reference followed by a character that neither continues nor starts one becomes "<x>{row}" followed by that character |
| FormulaAutoDiscovery.GeneralizeTwoCells | validator_tool/src/formula_auto_discovery.py:392-403 | "=<x><a>+<y><b>" becomes "=<x>{row}+<y>{row}" (the source's own example "=A2+B2") |
| FormulaAutoDiscovery.GeneralizeRowsAgree | validator_tool/src/formula_auto_discovery.py:392-403 | two rows of the same two-cell column formula give the same pattern |
| FormulaAutoDiscovery.HeaderAt | validator_tool/src/formula_auto_discovery.py:58-60 | a header is found exactly when the row-1 cell is present and non-empty, and it is that cell |
| FormulaAutoDiscovery.ColumnHeader | validator_tool/src/formula_auto_discovery.py:267-270 | the header of a column's letters is found only when the letters name a column, and then it is the header at that index |
| FormulaAutoDiscovery.SheetColumnsHit | validator_tool/src/formula_auto_discovery.py:262-279 | one pass of the "Sheet!A:B" loop appends that match's dependencies and references and assigns its entries |
| FormulaAutoDiscovery.SheetRangeHit | validator_tool/src/formula_auto_discovery.py:282-305 | one pass of the "Sheet!A1:B10" loop appends that match's dependencies and references |
| FormulaAutoDiscovery.SheetRefHit | validator_tool/src/formula_auto_discovery.py:308-335 | one pass of the "Sheet!A1" loop appends that match's dependencies and references and assigns its entries |
| FormulaAutoDiscovery.LocalColumnsHit | validator_tool/src/formula_auto_discovery.py:338-350 | one pass of the "A:B" loop appends that match's dependency and assigns its entry |
| FormulaAutoDiscovery.MixedHit | validator_tool/src/formula_auto_discovery.py:359-384 | one pass of the cell-reference loop over the cleaned formula appends that match's dependency and assigns its entries |
| FormulaAutoDiscovery.ApplyHit | validator_tool/src/formula_auto_discovery.py:262-384 | one pass of any scan loop of the analysis appends that match's contribution |
| FormulaAutoDiscovery.RunPhase | validator_tool/src/formula_auto_discovery.py:262-384 | a whole scan loop appends the contributions of all its matches, in order |
| FormulaAutoDiscovery.AnalyzeFormula | validator_tool/src/formula_auto_discovery.py:240-390 | the five scans run in order on the formula (the last on the formula with its sheet references erased), then dependencies and sheet references are deduplicated |
| FormulaAutoDiscovery.StepIncluded | validator_tool/src/formula_auto_discovery.py:262-384 | whatever one match contributes is part of its scan's result |
| FormulaAutoDiscovery.ColumnKeyForms | validator_tool/src/formula_auto_discovery.py:376-379 | the four spellings `COL`, `$COL`, `COL$`, `$COL$` all name column COL |
| FormulaAutoDiscovery.MixedStepEntries | validator_tool/src/formula_auto_discovery.py:359-384 | a cell-reference match assigns only its column, or the $-forms of that column, to its header or letters |
| FormulaAutoDiscovery.SheetRefStepEntries | validator_tool/src/formula_auto_discovery.py:308-335 | a "Sheet!A1" match assigns only "Sheet!COL" to the header or to itself |
| FormulaAutoDiscovery.LocalColumnsStepEntries | validator_tool/src/formula_auto_discovery.py:338-350 | an "A:B" match assigns no key holding '!' |
| FormulaAutoDiscovery.MixedEntries | validator_tool/src/formula_auto_discovery.py:359-384 | every assignment of the cell-reference scan is of that form |
| FormulaAutoDiscovery.SheetRefEntries | validator_tool/src/formula_auto_discovery.py:308-335 | every assignment of the "Sheet!A1" scan is of that form |
| FormulaAutoDiscovery.LocalColumnsEntries | validator_tool/src/formula_auto_discovery.py:338-350 | no key assigned by the "A:B" scan holds '!' |
| FormulaAutoDiscovery.SheetRangeAssignsNothing | validator_tool/src/formula_auto_discovery.py:282-305 | the "Sheet!A1:B10" scan assigns no translation |
| FormulaAutoDiscovery.SheetRefAlwaysRecorded | validator_tool/src/formula_auto_discovery.py:314 | the "already part of a range" guard never skips a match: the match holds no space, so it always occurs in the formula with spaces removed |
| FormulaAutoDiscovery.AnalysisMappingGet | validator_tool/src/formula_auto_discovery.py:255-384 | the map has distinct keys; the last scan assigning a key decides its entry, and within that scan the last assignment |
| FormulaAutoDiscovery.AnalysisGathers | validator_tool/src/formula_auto_discovery.py:386-390 | the analysis lists every dependency and referenced sheet of every scan |
| FormulaAutoDiscovery.BangKeyNotMixed | validator_tool/src/formula_auto_discovery.py:359-384 | the cell-reference scan never assigns a key holding '!' |
| FormulaAutoDiscovery.SheetRefMapping | validator_tool/src/formula_auto_discovery.py:308-335 | a "Sheet!A1" assignment survives in the final map |
| FormulaAutoDiscovery.SheetRefCollected | validator_tool/src/formula_auto_discovery.py:308-335 | a "Sheet!A1" contributes its sheet, "Sheet!<header>" or else "Sheet!COL" as dependency, and assigns "Sheet!COL" |
| FormulaAutoDiscovery.SheetRefTranslation | validator_tool/src/formula_auto_discovery.py:240-390 | for every "Sheet!A1" of the formula the analysis references the sheet, lists the dependency, and maps "Sheet!COL" to the header or to itself |
| FormulaAutoDiscovery.MixedMapping | validator_tool/src/formula_auto_discovery.py:359-384 | a cell-reference assignment is what the final map holds |
| FormulaAutoDiscovery.MixedCollected | validator_tool/src/formula_auto_discovery.py:359-384 | a reference not preceded by a letter contributes its column's header or letters, and assigns it to the column and, with a header, to its $-forms |
| FormulaAutoDiscovery.MixedTranslation | validator_tool/src/formula_auto_discovery.py:240-390 | for every such reference the analysis lists the dependency and maps the column (and its $-forms when it has a header) to it |
| FormulaAutoDiscovery.InvalidColumn | validator_tool/src/formula_auto_discovery.py:224-228 | the first local reference whose letters name no column; None exactly when every one names a column |
| FormulaAutoDiscovery.LightSheetScan | validator_tool/src/formula_auto_discovery.py:215-220 | the "Sheet!A1" loop collects each match's sheet, "Sheet!COL" and self-mapping |
| FormulaAutoDiscovery.LightLocalHit | validator_tool/src/formula_auto_discovery.py:224-232 | one pass of the local loop raises exactly when the letters name no column, and otherwise appends the dependency and maps it |
| FormulaAutoDiscovery.LightLocalScan | validator_tool/src/formula_auto_discovery.py:223-232 | the local loop stops at the first invalid column, and otherwise collects every match |
| FormulaAutoDiscovery.AnalyzeFormulaLightweight | validator_tool/src/formula_auto_discovery.py:195-238 | the lightweight analysis computes its specification, raising on the first invalid column |
| FormulaAutoDiscovery.LettersIndex | validator_tool/src/formula_auto_discovery.py:228 | a letter run names a column exactly when it has at most three letters |
| FormulaAutoDiscovery.LightweightFails | validator_tool/src/formula_auto_discovery.py:195-238 | the lightweight analysis raises exactly when a local reference has more than three letters |
| FormulaAutoDiscovery.LightSheetEntries | validator_tool/src/formula_auto_discovery.py:215-220 | every "Sheet!A1" assignment maps a key holding '!' to itself |
| FormulaAutoDiscovery.LightLocalEntries | validator_tool/src/formula_auto_discovery.py:224-232 | every local assignment maps column letters to the cached header at their index, or to themselves |
| FormulaAutoDiscovery.LightSheetRecorded | validator_tool/src/formula_auto_discovery.py:195-238 | every "Sheet!A1" is recorded: sheet referenced, "Sheet!COL" a dependency mapped to itself; both lists free of duplicates |
| FormulaAutoDiscovery.LightLocalMapped | validator_tool/src/formula_auto_discovery.py:195-238 | every local reference of the cleaned formula is a dependency mapped to its cached header or to itself |
| FormulaAutoDiscovery.LightDepsSources | validator_tool/src/formula_auto_discovery.py:195-238 | each dependency is a "Sheet!COL" of a sheet reference or the letters of a local reference, and nothing else |
| FormulaAutoDiscovery.BookOf | validator_tool/src/formula_auto_discovery.py:265-266 | the workbook's header rows are indexed by exactly the sheet names |
| FormulaAutoDiscovery.FormulaKeyHeader | validator_tool/src/formula_auto_discovery.py:74 | the text after the last '.' of a formula key is its header, when the header has no '.' |
| FormulaAutoDiscovery.SheetNamed | validator_tool/src/formula_auto_discovery.py:45-47 | a sheet is found exactly when the workbook has one by that name |
| FormulaAutoDiscovery.SelectSheet | validator_tool/src/formula_auto_discovery.py:45-52 | the named sheet, or the active one when no name is given; None exactly for a name the workbook lacks |
| FormulaAutoDiscovery.DiscoverFormulas | validator_tool/src/formula_auto_discovery.py:20-91 | a missing sheet name raises ValueError; otherwise the columns of the selected sheet are scanned |
| FormulaAutoDiscovery.DiscoverSheet | validator_tool/src/formula_auto_discovery.py:57-89 | the column loop computes its specification |
| FormulaAutoDiscovery.DiscoverColumn | validator_tool/src/formula_auto_discovery.py:57-89 | one column either adds nothing or stores its formula under its key |
| FormulaAutoDiscovery.DiscoverySound | validator_tool/src/formula_auto_discovery.py:57-89 | a discovered entry comes from a scanned column with a header and a sample formula starting with '=', stored under "Sheet.Header" with its generalised pattern |
| FormulaAutoDiscovery.FormulaKeyInjective | validator_tool/src/formula_auto_discovery.py:74 | on one sheet, distinct headers give distinct keys |
| FormulaAutoDiscovery.DiscoveredKey | validator_tool/src/formula_auto_discovery.py:57-74 | a column is discovered exactly when it has a header and a sample formula starting with '=', under the key of that header |
| FormulaAutoDiscovery.DiscoveryComplete | validator_tool/src/formula_auto_discovery.py:57-89 | every such column is discovered, and it is the one kept when no later column with the same header has a formula |
| FormulaAutoDiscovery.MergeLastWins | validator_tool/src/formula_auto_discovery.py:426 | merging keeps keys distinct and a key takes its value from the last sheet that has it |
| FormulaAutoDiscovery.DiscoveryDistinct | validator_tool/src/formula_auto_discovery.py:20-91 | each sheet's discovery has distinct keys |
| FormulaAutoDiscovery.DiscoverAllSheets | validator_tool/src/formula_auto_discovery.py:405-431 | the loop over the sheets merges each sheet's discovery, skipping the ones that raise |
| FormulaAutoDiscovery.AllSheetsLastWins | validator_tool/src/formula_auto_discovery.py:405-431 | a key of the merged dict carries what the last sheet that discovered it found |
| FormulaAutoDiscovery.DiscoveryColumn | validator_tool/src/formula_auto_discovery.py:57-68 | every discovered formula carries the letters of a scanned column |
| FormulaAutoDiscovery.AllSheetsColumns | validator_tool/src/formula_auto_discovery.py:23 | every formula found on all sheets carries the letters of one of the first 300 columns |
| FormulaAutoDiscovery.AllSheetsFound | validator_tool/src/formula_auto_discovery.py:416-427 | each sheet is looked up by a name the workbook has, so no sheet is skipped |
| FormulaAutoDiscovery.GroupBySheetGet | validator_tool/src/formula_auto_discovery.py:496-517 | each sheet with a discovered formula has one group, named after it, holding exactly its formulas' entries in dict order; other sheets have none |
| FormulaAutoDiscovery.GroupBySheetOrder | validator_tool/src/formula_auto_discovery.py:496-517 | the groups appear in the order their sheets first appear |
| FormulaAutoDiscovery.GenerateConfigSection | validator_tool/src/formula_auto_discovery.py:485-521 | the section holds the path, the kind "auto_discovery", an empty discovered-formulas dict and the groups by sheet |
| CrossSheetRefs.ParseCellRef | validator_tool/src/cross_sheet_analyzer.py:173-186 | the loop computes the cell's coordinates: letters as bijective base 26, digits as the row, (0, 0) without a match |
| CrossSheetRefs.MatchStartsWithCell | validator_tool/src/cross_sheet_analyzer.py:175-185 | when `([A-Z]+)(\d+)` matches, the text starts like a cell and the column is at least 1 |
| CrossSheetRefs.StartsWithCellMatches | validator_tool/src/cross_sheet_analyzer.py:175 | a text starting with letters then digits matches |
| CrossSheetRefs.CellCoordinatesZero | validator_tool/src/cross_sheet_analyzer.py:175-186 | (0, 0) exactly when the text does not start with upper-case letters followed by a digit; otherwise column >= 1 |
| CrossSheetRefs.CellCoordinatesOfCell | validator_tool/src/cross_sheet_analyzer.py:175-185 | the letters of column n, row r's digits and any non-digit rest decode to (n, r) |
| CrossSheetRefs.ExtractCrossReferences | validator_tool/src/cross_sheet_analyzer.py:143-171 | the loops collect, pattern by pattern, the record of each match not naming the current sheet |
| CrossSheetRefs.AppendRecords | validator_tool/src/cross_sheet_analyzer.py:148-169 | the inner loop appends one pattern's records in match order |
| CrossSheetRefs.RefsOfSound | validator_tool/src/cross_sheet_analyzer.py:149-169 | each record comes from a match naming another sheet |
| CrossSheetRefs.RefsOfComplete | validator_tool/src/cross_sheet_analyzer.py:149-169 | each match naming another sheet gives its record |
| CrossSheetRefs.CrossReferencesSound | validator_tool/src/cross_sheet_analyzer.py:143-171 | every reference has the current sheet as source, a different target, the formula, and comes from a match of one pattern |
| CrossSheetRefs.CrossReferencesComplete | validator_tool/src/cross_sheet_analyzer.py:147-169 | every match of every pattern naming another sheet is reported under the pattern's name |
| CrossSheetRefs.RangeIsAlsoCell | validator_tool/src/cross_sheet_analyzer.py:25-27 | where the range pattern matches, the cell pattern matches too, for the same sheet |
| CrossSheetRefs.DadosMatches | validator_tool/src/cross_sheet_analyzer.py:25-27 | "Dados!A1:B10" matches the cell pattern as Dados!A1 and the range pattern as Dados!A1:B10 |
| CrossSheetRefs.DadosSuffixes | validator_tool/src/cross_sheet_analyzer.py:25-27 | the lazy sheet name ends before '!', then the cell and range suffixes end at 8 and 12 |
| CrossSheetRefs.RangeReportedTwice | validator_tool/src/cross_sheet_analyzer.py:147-169 | a range in another sheet's formula is reported twice, as a cell and as a range |
| CrossSheetGraph.NodesOf | validator_tool/src/cross_sheet_analyzer.py:196-202 | one node per sheet, in order, with its number of formulas |
| CrossSheetGraph.TargetSheets | validator_tool/src/cross_sheet_analyzer.py:207-208 | the target sheet of each reference, in order |
| CrossSheetGraph.EdgesFor | validator_tool/src/cross_sheet_analyzer.py:210-215 | one edge per target, counting the references to it |
| CrossSheetGraph.TargetsIn | validator_tool/src/cross_sheet_analyzer.py:206-208 | a sheet is among the targets exactly when a reference targets it |
| CrossSheetGraph.SourceEdgesMembers | validator_tool/src/cross_sheet_analyzer.py:205-215 | an edge leaves a source exactly for each sheet its references target, with their positive number as count |
| CrossSheetGraph.SourceEdgesDistinct | validator_tool/src/cross_sheet_analyzer.py:206-215 | at most one edge per (source, target) |
| CrossSheetGraph.TallyCons | validator_tool/src/cross_sheet_analyzer.py:214 | counting over a list with one more target adds that target's count |
| CrossSheetGraph.CountOnce | validator_tool/src/cross_sheet_analyzer.py:206-210 | a target of the deduplicated set occurs once in it |
| CrossSheetGraph.TallyAll | validator_tool/src/cross_sheet_analyzer.py:206-215 | counting every reference against the set of targets counts each once |
| CrossSheetGraph.TallyEmpty | validator_tool/src/cross_sheet_analyzer.py:214 | no targets, no count |
| CrossSheetGraph.TotalEdgesFor | validator_tool/src/cross_sheet_analyzer.py:210-215 | the edges' counts sum to the tally of the references |
| CrossSheetGraph.SourceEdgesTotal | validator_tool/src/cross_sheet_analyzer.py:205-215 | a source's edge counts sum to its number of references |
| CrossSheetGraph.FlattenMembers | validator_tool/src/cross_sheet_analyzer.py:205-215 | an edge list of all sources holds exactly each source's edges |
| CrossSheetGraph.EdgesOfMembers | validator_tool/src/cross_sheet_analyzer.py:205-215 | every graph edge is an edge of one source, and the other way round |
| CrossSheetGraph.GenerateDependencyGraph | validator_tool/src/cross_sheet_analyzer.py:188-222 | the loops build the nodes, the edges and the levels |
| CrossSheetGraph.EdgesFrom | validator_tool/src/cross_sheet_analyzer.py:206-215 | collecting the target set then counting yields the source's edges |
| CrossSheetGraph.TargetSet | validator_tool/src/cross_sheet_analyzer.py:206-208 | the target set is the deduplicated targets |
| CrossSheetGraph.EdgesForSnoc | validator_tool/src/cross_sheet_analyzer.py:210-215 | one more target is one more edge |
| CrossSheetGraph.FlaggedMembers | validator_tool/src/cross_sheet_analyzer.py:315-332 | a suggestion is made exactly for each entry whose list is longer than the limit |
| CrossSheetGraph.SuggestionsMembers | validator_tool/src/cross_sheet_analyzer.py:300-334 | the circular suggestion exactly when the search returns a non-empty list, which is a cycle; a complexity suggestion exactly for each sheet with more than 5 dependencies; an excess suggestion exactly for each sheet with more than 20 references |
| CrossSheetGraph.CorrectedSuggestionsSucceed | validator_tool/src/cross_sheet_analyzer.py:300-334 | with the cycle handed up, the suggestions never fail |
| CrossSheetGraph.AnalysedWorkbookNoCycleSuggestion | validator_tool/src/cross_sheet_analyzer.py:300-334 | as written, the dependency map of an analysed workbook never yields a circular suggestion |
| CrossSheetGraph.SuggestOptimizations | validator_tool/src/cross_sheet_analyzer.py:300-334 | the search, then the loops, build the suggestions |
| CrossSheetGraph.FlagLong | validator_tool/src/cross_sheet_analyzer.py:315-332 | one loop appends a suggestion for each entry above the limit |
| CrossSheetOrder.KeySet | validator_tool/src/cross_sheet_analyzer.py:237 | `set(dependencies.keys())`: exactly the keys |
| CrossSheetOrder.AllSheetsMembers | validator_tool/src/cross_sheet_analyzer.py:231-234 | `all_sheets` holds exactly the keys and the members of the values |
| CrossSheetOrder.Shrinks | validator_tool/src/cross_sheet_analyzer.py:253-256 | a progressing pass leaves fewer sheets to place, so the loop ends |
| CrossSheetOrder.SubsetSize | validator_tool/src/cross_sheet_analyzer.py:244 | for processed within all sheets, `len(processed) < len(all_sheets)` exactly when some sheet is unplaced |
| CrossSheetOrder.LevelsAfterPartition | validator_tool/src/cross_sheet_analyzer.py:244-262 | the levels the loop makes partition the unplaced sheets |
| CrossSheetOrder.LevelsAfterLayered | validator_tool/src/cross_sheet_analyzer.py:244-262 | the levels the loop makes are layered on the sheets placed before |
| CrossSheetOrder.PartitionExactlyOne | validator_tool/src/cross_sheet_analyzer.py:231-262 | a partition puts each sheet in exactly one level |
| CrossSheetOrder.LayeredEarlier | validator_tool/src/cross_sheet_analyzer.py:247-256 | in layered levels, each sheet of a progressing level has its dependencies in earlier levels |
| CrossSheetOrder.ProcessingOrderPartition | validator_tool/src/cross_sheet_analyzer.py:224-264 | every sheet in keys and values is in exactly one level, and no level is empty |
| CrossSheetOrder.ProcessingOrderLevels | validator_tool/src/cross_sheet_analyzer.py:237-262 | level 0 is the sheets that are not keys, when there are some; every level placed by a progressing pass has its sheets' dependencies in earlier levels |
| CrossSheetOrder.CycleOfThreeIsOneLevel | validator_tool/src/cross_sheet_analyzer.py:257-262 | {A:{B}, B:{C}, C:{A}} gives one level holding A, B and C |
| CrossSheetOrder.RingNoneReady | validator_tool/src/cross_sheet_analyzer.py:247-251 | in that ring no sheet is ready |
| CrossSheetOrder.RingSheets | validator_tool/src/cross_sheet_analyzer.py:231-237 | the ring's sheets are A, B and C, all keys |
| CrossSheetOrder.RingDeps | validator_tool/src/cross_sheet_analyzer.py:249 | the ring's dependency sets |
| CrossSheetOrder.ReadySheets | validator_tool/src/cross_sheet_analyzer.py:245-251 | the pass selects exactly the unplaced sheets whose dependencies are processed |
| CrossSheetOrder.CollectSheets | validator_tool/src/cross_sheet_analyzer.py:231-234 | the first loop collects every key and value member |
| CrossSheetOrder.CalculateProcessingOrder | validator_tool/src/cross_sheet_analyzer.py:224-264 | the method computes the levels |
| CrossSheetOrder.PlaceLevels | validator_tool/src/cross_sheet_analyzer.py:244-262 | the `while` loop appends the levels still to come |
| CrossSheetCycles.NeighborsInNodes | validator_tool/src/cross_sheet_analyzer.py:343 | a neighbour is a node of the map |
| CrossSheetCycles.KeyInNodes | validator_tool/src/cross_sheet_analyzer.py:359 | a key is a node of the map |
| CrossSheetCycles.IndexOf | validator_tool/src/cross_sheet_analyzer.py:349 | `path.index(x)` is the first position of x |
| CrossSheetCycles.Enter | validator_tool/src/cross_sheet_analyzer.py:338-354 | a call only adds visited nodes, at least the node itself |
| CrossSheetCycles.ScanNeighbors | validator_tool/src/cross_sheet_analyzer.py:343-354 | the neighbour loop only adds visited nodes |
| CrossSheetCycles.EnterValid | validator_tool/src/cross_sheet_analyzer.py:339-341 | entering a node keeps the search state valid |
| CrossSheetCycles.ClosedCycle | validator_tool/src/cross_sheet_analyzer.py:347-350 | the tail of the path from the marked neighbour is a cycle |
| CrossSheetCycles.PopValid | validator_tool/src/cross_sheet_analyzer.py:352-353 | popping the node keeps the state valid, and marks in step with the path |
| CrossSheetCycles.EnterFacts | validator_tool/src/cross_sheet_analyzer.py:338-354 | a call keeps the state valid; False restores marks and path; a returned list is a cycle, and as written a tail of the path at the frame that closes it; handing cycles up with marks in step, no ValueError and no bare True |
| CrossSheetCycles.ScanFacts | validator_tool/src/cross_sheet_analyzer.py:343-354 | the same facts for the neighbour loop |
| CrossSheetCycles.DetectFromFacts | validator_tool/src/cross_sheet_analyzer.py:359-365 | the root loop returns only cycles; as written only one-node cycles; handing up never fails |
| CrossSheetCycles.DetectCircularSound | validator_tool/src/cross_sheet_analyzer.py:336-365 | any non-empty list returned is a cycle of the map |
| CrossSheetCycles.DetectCircularLossy | validator_tool/src/cross_sheet_analyzer.py:344-363 | as written the only cycle returned is a node listing itself |
| CrossSheetCycles.NoSelfLinkNoCycle | validator_tool/src/cross_sheet_analyzer.py:344-363 | as written, without self-links no cycle is reported |
| CrossSheetCycles.PropagatingNeverRaises | validator_tool/src/cross_sheet_analyzer.py:347-350 | handing cycles up, `path.index` never fails |
| CrossSheetCycles.CycleSearch.constructor | validator_tool/src/cross_sheet_analyzer.py:356-357 | the search starts with nothing visited or marked |
| CrossSheetCycles.CycleSearch.HasCycle | validator_tool/src/cross_sheet_analyzer.py:338-354 | the recursive method's answer and new state are those of the specification |
| CrossSheetCycles.DetectCircularDependencies | validator_tool/src/cross_sheet_analyzer.py:336-365 | the root loop computes the search's result |
| CrossSheetCycles.RingNeighbors | validator_tool/src/cross_sheet_analyzer.py:343 | the neighbours in the ring A -> B -> A |
| CrossSheetCycles.RingSearch | validator_tool/src/cross_sheet_analyzer.py:338-354 | entering A closes [A, B] two frames down: a list when handed up, a bare True as written |
| CrossSheetCycles.RingMissed | validator_tool/src/cross_sheet_analyzer.py:345-363 | as written the ring A -> B -> A is not reported |
| CrossSheetCycles.RingReported | validator_tool/src/cross_sheet_analyzer.py:345-363 | handing the cycle up reports [A, B] |
| CrossSheetCycles.StaleNeighbors | validator_tool/src/cross_sheet_analyzer.py:343 | the neighbours of the stale-mark example |
| CrossSheetCycles.StaleFirstRoot | validator_tool/src/cross_sheet_analyzer.py:338-354 | the search from B finds [B, A] and leaves A and B marked |
| CrossSheetCycles.StaleSecondRoot | validator_tool/src/cross_sheet_analyzer.py:347-361 | the search from C meets A, marked but not on the fresh path |
| CrossSheetCycles.StaleMarkRaises | validator_tool/src/cross_sheet_analyzer.py:349-362 | as written, that map makes `path.index("A")` raise |
| CrossSheetCycles.StaleMarkReported | validator_tool/src/cross_sheet_analyzer.py:345-363 | handing the cycle up reports [B, A] |
| CrossSheetWorkbook.ExtractSound | validator_tool/src/cross_sheet_analyzer.py:143-171 | the extractor only reports references from the current sheet to another |
| CrossSheetWorkbook.TargetsAppend | validator_tool/src/cross_sheet_analyzer.py:65-68 | a sheet is targeted by two lists joined exactly when by one of them |
| CrossSheetWorkbook.AnalyzeWorkbook | validator_tool/src/cross_sheet_analyzer.py:54-68 | the sheet loop builds the workbook data |
| CrossSheetWorkbook.AnalyzeFormulas | validator_tool/src/cross_sheet_analyzer.py:62-68 | the formula loop of one sheet |
| CrossSheetWorkbook.AddDependencies | validator_tool/src/cross_sheet_analyzer.py:67-68 | the loop adds the sheet under each reference's target |
| CrossSheetWorkbook.SheetRefsSound | validator_tool/src/cross_sheet_analyzer.py:62-65 | a sheet's references have it as source and another sheet as target |
| CrossSheetWorkbook.DepsAfterMembers | validator_tool/src/cross_sheet_analyzer.py:67-68 | after the loop, s is under t exactly when it was, or s is the source and a reference targets t |
| CrossSheetWorkbook.FormulasStepMembers | validator_tool/src/cross_sheet_analyzer.py:62-68 | the same for all formulas of a sheet |
| CrossSheetWorkbook.DependsOnSnoc | validator_tool/src/cross_sheet_analyzer.py:54-68 | one more sheet adds its own dependencies |
| CrossSheetWorkbook.AnalyzeMembers | validator_tool/src/cross_sheet_analyzer.py:54-68 | s is under t exactly when some formula of s references t |
| CrossSheetWorkbook.AnalyzeDependencies | validator_tool/src/cross_sheet_analyzer.py:54-68 | the target-sheet to referencing-sheets map: s under t exactly when a formula of s references t; no sheet under itself |
| CrossSheetWorkbook.FormulaStepRefs | validator_tool/src/cross_sheet_analyzer.py:63-65 | a formula with references extends its sheet's list |
| CrossSheetWorkbook.FormulasStepRefs | validator_tool/src/cross_sheet_analyzer.py:62-65 | a sheet's formulas extend its list in order |
| CrossSheetWorkbook.AnalyzeRefs | validator_tool/src/cross_sheet_analyzer.py:54-65 | each sheet's list is all its formulas' references |
| CrossSheetWorkbook.AnalyzeCrossReferences | validator_tool/src/cross_sheet_analyzer.py:54-65 | each sheet's entry lists all references of its formulas, and only sheets with some have one |
| CrossSheetWorkbook.ValidateCrossReferences | validator_tool/src/cross_sheet_analyzer.py:266-298 | the loops collect the findings |
| CrossSheetWorkbook.CheckReferences | validator_tool/src/cross_sheet_analyzer.py:272-296 | the inner loop appends one sheet's findings |
| CrossSheetWorkbook.RefErrorsMembers | validator_tool/src/cross_sheet_analyzer.py:272-296 | a finding exactly for each reference failing its check |
| CrossSheetWorkbook.ValidationErrorsMembers | validator_tool/src/cross_sheet_analyzer.py:266-298 | a finding is reported exactly when a listed reference fails its check with it: missing sheet first, then a missing single cell |
| CrossSheetWorkbook.RangesOnlyMissingSheet | validator_tool/src/cross_sheet_analyzer.py:288-289 | a range or column reference is reported only for a missing sheet |
| CrossSheetWorkbook.MissingSheetReported | validator_tool/src/cross_sheet_analyzer.py:277-285 | every reference to a missing sheet is reported as `missing_sheet` |
| Impact.CausesMessage | validator_tool/src/impact_analyzer.py:71-76 | the message is empty exactly when the formula has no dependencies |
| Impact.EntryFor | validator_tool/src/impact_analyzer.py:58-85 | a result's entry is non-empty exactly when it failed, its column is a formula short name and that formula has dependencies |
| Impact.ImpactKeys | validator_tool/src/impact_analyzer.py:54-85 | a key `{chave}_{coluna}_{linha_idx}` has an entry exactly when some result has that key |
| Impact.ImpactLastWins | validator_tool/src/impact_analyzer.py:78-85 | the entry under a key is that of the last result with the key |
| Impact.FormulaDependenciesLastWins | validator_tool/src/impact_analyzer.py:40-49 | a formula's dependencies are its mapping's values, in order with duplicates, under the text after its last '.'; a later formula with the same short name wins |
| Impact.FormulaDependenciesKeys | validator_tool/src/impact_analyzer.py:40-49 | a name is a formula column exactly when it is some formula's short name |
| Impact.CausesOfTwo | validator_tool/src/impact_analyzer.py:71-72 | two dependencies give "Possíveis causas: divergências em SALARIO, BONUS" |
| Impact.CausesOfFive | validator_tool/src/impact_analyzer.py:71-74 | five dependencies name the first three and add " e outras 2 colunas" |
| Impact.AnalyzeImpactDependencies | validator_tool/src/impact_analyzer.py:15-87 | the loops build the per-result map that `ImpactKeys` and `ImpactLastWins` describe |
| Impact.CausesFor | validator_tool/src/impact_analyzer.py:55-85 | the loop body computes the result's entry |
| Impact.BuildFormulaDependencies | validator_tool/src/impact_analyzer.py:39-49 | the loop builds the short-name dependency map |
| Impact.GerarRelatorioImpacto | validator_tool/src/impact_analyzer.py:89-112 | same length and order as the results; each is a copy with only `divergencias_na_formula` set, to the looked-up entry or "" |
| Impact.EnrichedMessage | validator_tool/src/impact_analyzer.py:54-110 | chained, a result is labelled with the entry of the last result sharing its key |
| Impact.AddConsumerMembers | validator_tool/src/impact_analyzer.py:127-130 | adding a formula under its columns adds exactly it to the sets of those columns |
| Impact.AddConsumerKeys | validator_tool/src/impact_analyzer.py:127-130 | adding a formula under its columns creates exactly the missing columns |
| Impact.ImpactChainMembers | validator_tool/src/impact_analyzer.py:114-134 | f is listed under c exactly when c is a value of f's mapping; c has an entry exactly when some mapping names it |
| Impact.ChainIsOneHop | validator_tool/src/impact_analyzer.py:121-130 | with T reading X and U reading T, U is under T but not under X: direct consumers only |
| Impact.AnalisarCadeiaImpacto | validator_tool/src/impact_analyzer.py:114-134 | the loops build the chain that `ImpactChainMembers` describes |
| Impact.AddConsumers | validator_tool/src/impact_analyzer.py:127-130 | the inner loop adds the formula under each of its columns |
| Impact.AddConsumerStep | validator_tool/src/impact_analyzer.py:128-130 | one more column is one more `add` |
| Impact.PutTwice | validator_tool/src/impact_analyzer.py:128-130 | creating an empty set and adding to it is adding to the missing set |
| ValidateMain.Repeat | validator_tool/validate.py:161 | `n` copies of one formula name |
| ValidateMain.Sources | validator_tool/validate.py:157-161 | one entry per occurrence of the column in the formulas' `depends_on` lists |
| ValidateMain.AddReverseGet | validator_tool/validate.py:158-161 | one formula's pass appends its name under each dependency once per occurrence |
| ValidateMain.ReverseDependenciesGet | validator_tool/validate.py:157-161 | the list under a column names, in formula order, each formula depending on it once per occurrence; other columns have no list |
| ValidateMain.TotalLengthPut | validator_tool/validate.py:159-161 | replacing one list changes the total length by the difference |
| ValidateMain.AddReverseLength | validator_tool/validate.py:158-161 | one formula's pass adds its number of dependencies to the total |
| ValidateMain.ReverseDependenciesTotal | validator_tool/validate.py:149-161 | `total_dependencies` equals the number of entries in the reverse lists |
| ValidateMain.ListLengths | validator_tool/validate.py:164-167 | the intended counts have exactly the reverse map's keys |
| ValidateMain.TallyNamesGet | validator_tool/validate.py:166-167 | counting a list adds each name's occurrences |
| ValidateMain.NameCountsGet | validator_tool/validate.py:164-167 | as written, a name's count is its number of occurrences inside the lists |
| ValidateMain.ListLengthsGet | validator_tool/validate.py:164-167 | as intended, a column's count is the length of its list |
| ValidateMain.IntendedCountsAreReferences | validator_tool/validate.py:157-167 | as intended, a column's count is how often formulas reference it |
| ValidateMain.TopPairsSpec | validator_tool/validate.py:170-171 | at most three pairs, all from the counts, by non-increasing count, none left out counting more |
| ValidateMain.MostReferencedSpec | validator_tool/validate.py:169-171 | `most_referenced` holds at most three names, those of the top pairs |
| ValidateMain.OneFormulaReverse | validator_tool/validate.py:157-161 | a formula F depending on A and B gives reverse lists A: [F], B: [F] |
| ValidateMain.MostReferencedAsWritten | validator_tool/validate.py:164-171 | as written, that example ranks the formula "F" and neither column |
| ValidateMain.MostReferencedIntended | validator_tool/validate.py:164-171 | as intended, that example ranks "A" and "B" |
| ValidateMain.ComputeDependencies | validator_tool/validate.py:143-171 | the loops build the reverse lists and the statistics (formula count, dependency totals, `most_referenced`) |
| ValidateMain.AppendSources | validator_tool/validate.py:158-161 | the inner loop appends the formula under each of its dependencies |
| ValidateMain.AddReverseStep | validator_tool/validate.py:159-161 | one more dependency is one more append |
| ValidateMain.CreateThenAppend | validator_tool/validate.py:159-161 | creating an empty list and appending to it is appending to the missing list |
| ValidateMain.CountNames | validator_tool/validate.py:164-167 | the counting loop, as written, yields the name counts |
| ValidateMain.TallyLoop | validator_tool/validate.py:166-167 | the inner counting loop adds one per name |
| ValidateMain.CountLengths | validator_tool/validate.py:164-167 | the counting loop, as intended, yields the list lengths |
| ValidateMain.ColumnErrors | validator_tool/validate.py:184-186 | a column's failures are at most its results |
| ValidateMain.RateAbove | validator_tool/validate.py:186-196 | `errors / total > k / 10` exactly when `10 * errors > k * total` |
| ValidateMain.RateAlert | validator_tool/validate.py:183-204 | an alert exactly when the column has results and rate > 0.1, located at the column; 'alta' exactly when rate > 0.3, else 'media'; the impact is the result count for alta and the failure count for media |
| ValidateMain.RateAlertsMembers | validator_tool/validate.py:183-204 | an error-rate alert is raised for exactly the configured columns whose rate is above 0.1 |
| ValidateMain.CascadeAlertsMembers | validator_tool/validate.py:207-216 | an `impacto_cascata` alert is raised exactly for origins with more than three consumers |
| ValidateMain.CascadeAlertsHigh | validator_tool/validate.py:209-210 | every cascade alert is 'alta' |
| ValidateMain.GenerateAlerts | validator_tool/validate.py:176-216 | the loops build the error-rate alerts then the cascade alerts, none without results |
| ValidateMain.ChainAlerts | validator_tool/validate.py:207-216 | the cascade loop yields the cascade alerts |
| ValidateMain.SplitPartition | validator_tool/validate.py:234-239 | items with '.' are formulas, the rest columns: a partition, so the level is the number of items |
| ValidateMain.CascadeEntry | validator_tool/validate.py:228-247 | an origin with consumers maps to their split, whose level is their number |
| ValidateMain.CascadeKeys | validator_tool/validate.py:228-229 | exactly the origins with consumers appear |
| ValidateMain.AddConsumerDistinct | validator_tool/src/impact_analyzer.py:128-130 | the impact chain keeps one entry per column |
| ValidateMain.ImpactChainDistinct | validator_tool/src/impact_analyzer.py:118-130 | the impact chain is a dict with distinct keys |
| ValidateMain.BuildCascade | validator_tool/validate.py:227-247 | the loop builds the cascade map |
| ValidateMain.SplitItems | validator_tool/validate.py:231-239 | the inner loop sorts each consumer into formulas or columns |
| Report.FailedPassed | validator_tool/src/report_generator.py:99-101 | every result is counted as a divergence or a concordance, never both |
| Report.SummaryCounts | validator_tool/src/report_generator.py:99-101 | concordances = comparisons - divergences, which is the number of passing results, and divergences never exceed comparisons |
| Report.LevelName | validator_tool/src/report_generator.py:547-563 | CRÍTICO exactly above 5, ALTO exactly for 3 to 5, MODERADO exactly at most 2 |
| Report.Correction | validator_tool/src/report_generator.py:569-574 | the estimate is one of the three texts |
| Report.CorrectionFollowsLevel | validator_tool/src/report_generator.py:547-574 | each level goes with exactly its estimate: the same thresholds |
| Report.LevelMonotone | validator_tool/src/report_generator.py:547-563 | a larger impact never gets a lower level |
| Report.CriticalBound | validator_tool/src/report_generator.py:585-597 | the critical origins are at most the origins, and six times their number is at most `total_affected` |
| Report.SeverityRank | validator_tool/src/report_generator.py:447-448 | rank 1 for alta, 2 for media, 3 for baixa or a missing severity, 4 for any other |
| Report.SortAlertsSpec | validator_tool/src/report_generator.py:447-448 | the sorted alerts are a permutation, in non-decreasing rank, and alerts of one rank keep their order |
| Report.SeverityCountsTotal | validator_tool/src/report_generator.py:484-492 | the alta, media and baixa counts plus the alerts of other or no severity make up the total |
| Report.MissingSeverityUncounted | validator_tool/src/report_generator.py:448-486 | an alert without a severity sorts as baixa but is not counted as baixa |
| Report.FirstMatch | validator_tool/src/report_generator.py:181-183 | the first key ending with `.col` or equal to it, or past the end when there is none |
| Report.LookupFormulaSpec | validator_tool/src/report_generator.py:175-183 | a formula is found exactly when some key matches; the exact key's when present, else the first key ending with `.col` |
| Report.GetKey | validator_tool/src/report_generator.py:175 | a key that has an entry is among the keys |
| Report.FindFormula | validator_tool/src/report_generator.py:175-183 | the loop with `break` returns the looked-up formula |
| Report.AsText | validator_tool/src/report_generator.py:191-197 | an apostrophe is prefixed exactly when the text starts with '='; the result never starts with '=' and ends with the original |
| Report.FormulaTexts | validator_tool/src/report_generator.py:191-197 | empty texts without a formula, else the two formula texts each kept after an optional apostrophe |
| DataLoader.Converted | validator_tool/src/data_loader.py:140-148 | an index exactly for an all-uppercase alphabetic entry, and then non-negative; any other entry is kept as its name |
| DataLoader.ConvertColumnLettersToIndices | validator_tool/src/data_loader.py:132-150 | same length and order as the input, each entry converted |
| DataLoader.ConvertedExamples | validator_tool/src/data_loader.py:140-148 | A is 0, Z is 25, AA is 26, AZ is 51, "Valor" is kept |
| DataLoader.ConvertedInjective | validator_tool/src/data_loader.py:142-145 | distinct letter strings give distinct indices |
| DataLoader.ConvertedLetters | validator_tool/src/data_loader.py:142-145 | the letters of column n convert to n - 1: the conversion inverts the column naming |
| DataLoader.ConvertedOnto | validator_tool/src/data_loader.py:142-145 | every index is the conversion of some letters |
| ConfigLoader.CheckSubfields | validator_tool/src/config_loader.py:74-81 | succeeds exactly when each subfield is present or skipped; otherwise reports a missing one, by field and subfield |
| ConfigLoader.CheckFields | validator_tool/src/config_loader.py:70-81 | succeeds exactly when every required field is present with its required subfields (when it is an object) |
| ConfigLoader.CheckMappingList | validator_tool/src/config_loader.py:92-96 | succeeds exactly when Python's `in` finds both `header_resultado` and `header_traducao` in every mapping (a key of an object, an item of a list, a substring of a string); the error names the missing header (and the sheet), or is the TypeError of `in` on a null, boolean or number mapping |
| ConfigLoader.CheckMappings | validator_tool/src/config_loader.py:91-96 | `for mapping in` visits an object's keys, a list's items or a string's characters; succeeds exactly when every visited element holds both headers; a null, boolean or number raises |
| ConfigLoader.StringMappings | validator_tool/src/config_loader.py:91-96 | mappings given as a string pass exactly when the string is empty, since no single character holds a header name |
| ConfigLoader.EmptyMappingsPass | validator_tool/src/config_loader.py:91-96 | `{}` and `""` as mappings pass: the loop has nothing to visit |
| ConfigLoader.ListMappingPasses | validator_tool/src/config_loader.py:92-96 | a mapping written as the list of the two header names passes |
| ConfigLoader.StringMappingPasses | validator_tool/src/config_loader.py:92-96 | a mapping written as a string containing both header names passes |
| ConfigLoader.CheckSheets | validator_tool/src/config_loader.py:103-109 | succeeds exactly when every sheet passes: an object whose mappings, if present, are complete, or a list or string in which `in` does not find "mapeamento_formulas" (indexing either by that text raises); a null, boolean or number raises |
| ConfigLoader.SheetShapes | validator_tool/src/config_loader.py:103-105 | a sheet configured as a string without that text passes; one configured as a list holding it raises a TypeError |
| ConfigLoader.ValidateConfigSpec | validator_tool/src/config_loader.py:62-109 | the validation accepts exactly the configurations that have every required field and subfield (except the formula subfields for multi_abas or auto_discovery), a non-empty list of columns, complete mappings (by Python's `in` and `for` on each JSON kind) when not multi_abas, and an object `abas` whose every sheet passes for multi_abas without auto_discovery |
| ConfigLoader.MissingFieldNamed | validator_tool/src/config_loader.py:70-72 | the first absent required field is the one named by the error |
| ConfigLoader.FirstMissing | validator_tool/src/config_loader.py:70-72 | the field loop reports the first absent field |
| ConfigLoader.FormulaSubfieldsSkipped | validator_tool/src/config_loader.py:65-81 | a multi-sheet or auto-discovery configuration needs only the formula file's `caminho`; a plain one also needs `colunas_para_carregar` and `mapeamento_formulas` |
| ConfigLoader.CsvStepsFail | validator_tool/src/config_loader.py:134-136 | a failing step fails the whole loop |
| ConfigLoader.AddDefaultRule | validator_tool/src/config_loader.py:129-131 | the method computes the default rule step, whose success and effect `DefaultRuleOk` and `DefaultRuleEffect` state |
| ConfigLoader.ApplyDefaults | validator_tool/src/config_loader.py:127-136 | the method computes the defaulted configuration, whose success and result `DefaultedOk` and `DefaultedSpec` state |
| ConfigLoader.DefaultedSteps | validator_tool/src/config_loader.py:130-136 | the default rule step, then one step per source file, in order |
| ConfigLoader.CsvSheetEffect | validator_tool/src/config_loader.py:134-136 | a step changes only its source file, which afterwards has `aba_planilha` None if its path ends in .csv in any case |
| ConfigLoader.SettledFixed | validator_tool/src/config_loader.py:135-136 | a settled source file is left as it is |
| ConfigLoader.DefaultRuleEffect | validator_tool/src/config_loader.py:130-131 | afterwards the rules hold a default, and nothing else changed |
| ConfigLoader.DefaultedIdempotent | validator_tool/src/config_loader.py:127-136 | applying the defaults twice is applying them once |
| ConfigLoader.DefaultedOk | validator_tool/src/config_loader.py:127-136 | the defaults succeed exactly when the rules are present and are an object, a list holding "default" or a string containing it, and both source files are objects with a text path |
| ConfigLoader.DefaultRuleOk | validator_tool/src/config_loader.py:130-131 | the default rule step succeeds exactly when the rules are present and are an object, or a list or string in which `in` finds "default" (assigning into a list or string raises) |
| ConfigLoader.DefaultListKept | validator_tool/src/config_loader.py:130-131 | rules given as `["default"]` are left as they are and hold a default |
| ConfigLoader.DefaultedSpec | validator_tool/src/config_loader.py:127-136 | after successful defaults the rules hold a default, both sources are settled (a CSV path has no sheet), and every other field is unchanged |
| AutoConfig.NonEmpty | validator_tool/src/auto_config_generator.py:245 | a value is kept exactly when it is not blank (empty or only whitespace) |
| AutoConfig.ElementsBounds | validator_tool/src/auto_config_generator.py:254 | `len(set(non_empty))` is at most the number of values, at least 1 when there is one, and equal when none repeats |
| AutoConfig.CommaToPoint | validator_tool/src/auto_config_generator.py:287 | every ',' becomes '.', every other character is kept |
| AutoConfig.CommaToPointNoComma | validator_tool/src/auto_config_generator.py:287 | the comma replacement leaves a value without commas unchanged |
| AutoConfig.IsDateLayouts | validator_tool/src/auto_config_generator.py:23-28 | values in each of the layouts YYYY-MM-DD, DD/MM/YYYY and DD-MM-YYYY are dates |
| AutoConfig.IsDateNewline | validator_tool/src/auto_config_generator.py:292-294 | `$` also matches before one final newline, so a date followed by "\n" passes |
| AutoConfig.NotDates | validator_tool/src/auto_config_generator.py:292-294 | other separators, orders or widths are not dates |
| AutoConfig.IsDateLength | validator_tool/src/auto_config_generator.py:292-294 | a date has ten characters, or eleven with a final newline |
| AutoConfig.AllCommaToPoint | validator_tool/src/auto_config_generator.py:258-264 | the converted values are the comma-replaced values, one for one |
| AutoConfig.Ratio | validator_tool/src/auto_config_generator.py:255 | the uniqueness ratio lies in (0, 1] and times the count of values gives the unique count |
| AutoConfig.MaxFraction | validator_tool/src/auto_config_generator.py:270 | `max` of the fraction lengths of the values whose text has a '.', and None exactly when no value's text has one |
| AutoConfig.AnalyzeColumn | validator_tool/src/auto_config_generator.py:233-281 | fails exactly when the kept values are all numeric and either, as written, one does not convert with `float(v)` (the ValueError of `float`) or no converted value's text has a '.' (the ValueError of `max` on an empty sequence); `null_count` + kept = all values; nullable iff some null; empty iff no kept value, and only then no ratio; the unique count and ratio; numeric iff all numeric (before date), and then the decimals are `MaxFraction` of the converted values; date iff all dates and not all numeric; identifier only with ratio > 0.9, text only with ratio <= 0.9; patterns only for text with fewer than 10 distinct values, and then all of them |
| AutoConfig.NumericDecimals | validator_tool/src/auto_config_generator.py:264-270 | the numeric statistics raise exactly when, as written, some value does not convert with `float(v)`, or when no converted value's text has a '.'; otherwise the decimals are the largest fraction length |
| AutoConfig.AnalyzeColumnDecimals | validator_tool/src/auto_config_generator.py:270 | a numeric column's decimals are the fraction length of one of its converted values, and no converted value has a longer one |
| AutoConfig.AnalyzeColumnBlanks | validator_tool/src/auto_config_generator.py:245-251 | nullable exactly when some value is blank, empty exactly when all are |
| AutoConfig.CommaDecimalRaises | validator_tool/src/auto_config_generator.py:264 | for a value "1,5", as written the analysis fails while as intended the column is numeric |
| AutoConfig.AnalyzeColumnIntendedOk | validator_tool/src/auto_config_generator.py:233-281 | with the conversion `_is_numeric` uses, a column fails only when it is numeric and no value's text has a '.', and then with the ValueError of `max` |
| AutoConfig.NoPointRaises | validator_tool/src/auto_config_generator.py:270 | a column holding one numeric value whose `str(float)` has no '.' (such as "nan", "inf" or "1e16") raises the ValueError of `max`, as written and as intended |
| AutoConfig.AnalyzeColumnNoComma | validator_tool/src/auto_config_generator.py:264-287 | without commas the written and intended analyses agree |
| AutoConfig.NonEmptyKeepsAll | validator_tool/src/auto_config_generator.py:245-246 | no value is dropped exactly when no value is blank (null count 0) |
| AutoConfig.NonEmptyAll | validator_tool/src/auto_config_generator.py:245 | without blanks the kept values are all the values |
| AutoConfig.CountTwice | validator_tool/src/auto_config_generator.py:307-308 | `Counter` gives a name a count above 1 exactly when it sits at two positions |
| AutoConfig.CommonColumnsSpec | validator_tool/src/auto_config_generator.py:298-309 | a name is common exactly when two places of the gathered column lists hold it |
| AutoConfig.CountTwoFiles | validator_tool/src/auto_config_generator.py:300-307 | the count over all files is at least the sum of any two files' counts |
| AutoConfig.CountOneFile | validator_tool/src/auto_config_generator.py:300-307 | the count over all files is at least one file's count |
| AutoConfig.SharedColumnIsCommon | validator_tool/src/auto_config_generator.py:298-309 | a name two files both list is common |
| AutoConfig.FileEntries | validator_tool/src/auto_config_generator.py:316 | the iterated columns of a file are its analysed columns, in order, tagged with the file |
| AutoConfig.KeyCandidatesAsWrittenSpec | validator_tool/src/auto_config_generator.py:315-319 | as written the candidate loop raises `KeyError: 'uniqueness_ratio'` exactly when some non-identifier column has no ratio, and otherwise yields the intended candidates |
| AutoConfig.BlankColumnRaises | validator_tool/src/auto_config_generator.py:311-329 | an all-blank column is empty and has no ratio; as written the key suggestion raises, as intended the column is no candidate |
| AutoConfig.KeyCandidatesMembers | validator_tool/src/auto_config_generator.py:317-324 | a column is a candidate, with its ratio as score, exactly when it is an identifier or has ratio > 0.95 and no nulls |
| AutoConfig.DistinctValuesMakeKey | validator_tool/src/auto_config_generator.py:311-329 | a non-empty column of distinct non-blank values is a candidate with score 1.0 |
| AutoConfig.SuggestedKeysSpec | validator_tool/src/auto_config_generator.py:327-329 | at most five candidates (all when fewer), each a candidate, by non-increasing score, none left out scoring higher than one kept |
| AutoConfig.Score | validator_tool/src/auto_config_generator.py:338-352 | the score is positive exactly when numeric, holding formulas or common; at most 6; at least 5 exactly when numeric with formulas |
| AutoConfig.ColumnsOf | validator_tool/src/auto_config_generator.py:362 | the names of the suggestions, position by position |
| AutoConfig.ValidationSuggestionsMembers | validator_tool/src/auto_config_generator.py:354-359 | a column is suggested with its score exactly when its score is positive |
| AutoConfig.RankedSuggestionsSpec | validator_tool/src/auto_config_generator.py:361-362 | at most twenty suggestions (all when fewer), by non-increasing score, none left out scoring higher than one kept |
| AutoConfig.SuggestedValidationsSpec | validator_tool/src/auto_config_generator.py:336-362 | every suggested name is an analysed column that is numeric, has formulas or is common, at most twenty |
| AutoConfig.ToleranceOf | validator_tool/src/auto_config_generator.py:370-382 | decimal exactly for numeric columns with decimals > 0, with min(decimals, 10) places; data exactly for dates; exata otherwise |
| AutoConfig.ToleranceRulesSpec | validator_tool/src/auto_config_generator.py:366-385 | 'default' is always exata; any other name has a rule exactly when some column has it |
| AutoConfig.ToleranceRulesLast | validator_tool/src/auto_config_generator.py:371-383 | a name's rule is that of the last column with that name |
| AutoConfig.DropSeparators | validator_tool/src/auto_config_generator.py:395 | the result holds no '_', '-' or whitespace, and only characters of the input |
| AutoConfig.DropConcat | validator_tool/src/auto_config_generator.py:395 | removing separators distributes over concatenation |
| AutoConfig.DropBetween | validator_tool/src/auto_config_generator.py:395 | a separator between "COD" and "ID" is removed |
| AutoConfig.NormalizeUnderscore | validator_tool/src/auto_config_generator.py:395 | "cod_id" normalises to "CODID" |
| AutoConfig.NormalizeSpace | validator_tool/src/auto_config_generator.py:395 | "Cod Id" normalises to "CODID" |
| AutoConfig.NormalizeHyphen | validator_tool/src/auto_config_generator.py:395 | "COD-ID" normalises to "CODID" |
| AutoConfig.CodIdHigh | validator_tool/src/auto_config_generator.py:408 | "CODID" contains "ID", so its relationship is of high confidence |
| AutoConfig.NormalizeIdempotent | validator_tool/src/auto_config_generator.py:395 | normalising a normalised name changes nothing |
| AutoConfig.UpperKeepsNormal | validator_tool/src/auto_config_generator.py:395 | upper-casing a name without lower-case letters changes nothing |
| AutoConfig.DropNothing | validator_tool/src/auto_config_generator.py:395 | a name without separators is kept |
| AutoConfig.ColumnGroupsGet | validator_tool/src/auto_config_generator.py:390-399 | the group of a normalised name lists every column with that name, with its file, in order |
| AutoConfig.ColumnGroupsDistinct | validator_tool/src/auto_config_generator.py:390-399 | the groups have distinct names |
| AutoConfig.RelationshipsSpec | validator_tool/src/auto_config_generator.py:402-410 | a relationship is reported exactly for each normalised name of more than one column, listing those columns, 'high' iff the name contains "ID" |
| AutoConfig.SimilarNamesRelated | validator_tool/src/auto_config_generator.py:392-410 | two columns whose names normalise alike are in one reported relationship |
| AutoConfig.OccurrencesOfHas | validator_tool/src/auto_config_generator.py:396-399 | a column is in the group of its normalised name |
| AutoConfig.OccurrencesOfTwo | validator_tool/src/auto_config_generator.py:396-399 | two columns with one normalised name make a group of at least two |
| AutoConfig.GenerateConfig | validator_tool/src/auto_config_generator.py:414-474 | raises KeyError on 'arquivo_fonte_1' exactly when there is a key but fewer than two files; the sources exist iff two files, with the first two paths and formats; both get the same key, the text after the last '.' of the top candidate; the first ten suggested validations; the tolerances unchanged; relationships only when there are some |
| AutoConfig.SheetColumnName | validator_tool/src/auto_config_generator.py:158 | the sheet name, a '.', then the column |
| AutoConfig.SheetColumn | validator_tool/src/auto_config_generator.py:221-227 | a column without values is skipped; otherwise its analysis, marked with formulas exactly when it has any |
| AutoConfig.SheetKeyColumn | validator_tool/src/auto_config_generator.py:449-456 | a workbook column's suggested key is the column without its sheet prefix |
| AutoConfig.PlainKeyColumn | validator_tool/src/auto_config_generator.py:449-456 | a name without '.' is suggested unchanged |
| AutoConfig.ExtendWithSheets | validator_tool/src/auto_config_generator.py:304-305 | appends each sheet's column list in order |
| AutoConfig.GatherColumns | validator_tool/src/auto_config_generator.py:298-305 | the gathered list is every file's (or sheet's) columns, in order |
| AutoConfig.ScanKeyCandidates | validator_tool/src/auto_config_generator.py:313-324 | the loop fails, as written, exactly when some column has no ratio, and otherwise yields the candidates; as written it equals the as-written fold |
| AutoConfig.ScanSuggestions | validator_tool/src/auto_config_generator.py:333-359 | the loop yields the positive-scored columns in order |
| AutoConfig.ScanTolerances | validator_tool/src/auto_config_generator.py:366-385 | the loop yields the tolerance rules |
| AutoConfig.CreateThenAppendGroup | validator_tool/src/auto_config_generator.py:396-399 | the defaultdict's empty list then append equals appending to the missing group |
| AutoConfig.GroupColumns | validator_tool/src/auto_config_generator.py:390-399 | the loop yields the groups by normalised name |
| AutoConfig.ScanRelationships | validator_tool/src/auto_config_generator.py:387-412 | the loops yield the relationships |
| AutoConfig.Analysis.constructor | validator_tool/src/auto_config_generator.py:33-41 | the analysis starts with the files and empty suggestions |
| AutoConfig.Analysis.FindCommonElements | validator_tool/src/auto_config_generator.py:296-309 | stores the common columns and nothing else |
| AutoConfig.Analysis.SuggestKeyColumns | validator_tool/src/auto_config_generator.py:311-329 | raises (as written) exactly when some column has no ratio, storing nothing; otherwise stores the suggested keys |
| AutoConfig.Analysis.SuggestValidationColumns | validator_tool/src/auto_config_generator.py:331-362 | stores the suggested validations and nothing else |
| AutoConfig.Analysis.SuggestToleranceRules | validator_tool/src/auto_config_generator.py:364-385 | stores the tolerance rules and nothing else |
| AutoConfig.Analysis.DetectRelationships | validator_tool/src/auto_config_generator.py:387-412 | stores the relationships and nothing else |
| AutoConfig.FilesOfSpec | validator_tool/src/auto_config_generator.py:44-47 | a path maps to the analysis given last for it |
| AutoConfig.StoreFiles | validator_tool/src/auto_config_generator.py:44-47 | the loop stores each path's analysis |
| AutoConfig.AnalyzeFiles | validator_tool/src/auto_config_generator.py:30-58 | the steps run in order on one new analysis; a raising key step stops the rest; each stored field is its specification |

## Left out

- File and workbook I/O: openpyxl loading, sheet selection and cell reads, the zip/XML reading of the cross-sheet analyser, CSV encoding and delimiter detection, pandas loaders, JSON load and save, `_expand_paths`, logging, the command line and writing the report file. Header rows, sample formulas and file analyses are inputs.
- `discover_formulas_lightweight`, `discover_all_sheets_lightweight` and the `_extract_single_sheet`/`_extract_multi_sheet` paths of the formula extractor: they only read cells and call the analysers that are modelled.
- validator.py and data_aligner.py: value comparison with float and `Decimal` rounding, pandas merges and NaN semantics.
- Report rendering (fills, fonts, widths, merges, timestamps, percentage text). Only the counts, levels, order, lookup and apostrophe rule are kept.
- Python's `\w`, `\d`, `\s`, `isalpha`, `isupper`, `strip` and case mapping are taken on ASCII only.
- `list(set(x))` has no specified order in Python. The model keeps first occurrences, and its contracts speak only of membership and the absence of duplicates.
- Floating point: the uniqueness ratio is an exact real, error rates are compared by integer cross-multiplication, and formatted numbers are not modelled.
- The numeric statistics of `_analyze_column_data` (min, max, mean, standard deviation) are not modelled. Whether `float(v)` parses a value is a parameter, and so is the fraction length of `str(float(v))` (None when that text has no '.').
- The configuration checks follow Python's `in` and `for` on every JSON kind: keys of an object, items of a list, substrings and characters of a string; null, booleans and numbers raise. JSON numbers are not distinguished from one another. Outside the configuration loader inputs have the types the code expects.
- FormulaExtractor.TranslateFormulaAuto: the value is spliced in literally. `re.sub` reads a string replacement as a template, so a value holding a backslash (`\1`, `\g<0>`, `\n`) would be expanded or rejected there. The model does not capture that expansion.
- FormulaExtractor.KeysOverlapSuffix: stated only for keys without digits. A sheet key built at validator_tool/src/formula_extractor.py:461 keeps the digits of its sheet name, and then two overlapping references need not end together (DigitKeysOverlap); no overlap rule is stated for such keys.
- FormulaExtractor.TranslateFormulaAuto: no closed form of the whole result is stated. The lemmas beside it say what one step does, when two keys' references can overlap, and why the longest-first order matters.
- FormulaExtractor.TranslateFormulaAuto: the comment at validator_tool/src/formula_extractor.py:493 says the row number is kept, but the replacement is the bare value, so the row digits are dropped. The model follows the code, which agrees with `_translate_formula` (line 303), where references also become bare header names.
- Free-text fields: alert descriptions, suggestion reasons, the formula sample, constant empty configuration sections, row counts and the `gerado_automaticamente` flag.
- `dependencias_inversas` in the impact analyser is only logged, so it is not modelled.
- Python's recursion limit in the cycle search is not modelled: the search recurses on the unvisited nodes.
- `analyze_files` walks files and then sheets in nested loops. The model flattens them into one list of (name, analysis) entries in the same order.
- For workbooks, the column analyses are named "Sheet.col" while the shared columns use bare names. The model keeps the names as the code builds them.
- `_translate_formula_auto` is never called by the rest of the code. It is modelled on its own.

## Findings

| source | as written | input that shows it | evidently intended | confidence | as-written member | corrected member |
|---|---|---|---|---|---|---|
| validator_tool/src/cross_sheet_analyzer.py:345-363 | a cycle found below the root of a search returns `True`, and the caller keeps only lists | dependencies {A: [B], B: [A]} | the cycle [A, B] is reported | high, not executed | CrossSheetCycles.RingMissed | CrossSheetCycles.RingReported |
| validator_tool/src/cross_sheet_analyzer.py:349-362 | a node left on `rec_stack` after an earlier search is looked up in a fresh `path` | the map {B: [A], C: [A], A: [B]}, built when sheet A references B and C and sheet B references A | the cycle [B, A] is reported instead of a ValueError | high, not executed | CrossSheetCycles.StaleMarkRaises | CrossSheetCycles.StaleMarkReported |
| validator_tool/validate.py:164-167 | `ref_counts` counts the formulas named in the reverse lists, so a formula's count is the length of its own dependency list | one formula F depending on columns A and B: as written the ranking is [F] | the ranking is [A, B], the names other formulas depend on | medium, not executed | ValidateMain.MostReferencedAsWritten | ValidateMain.MostReferencedIntended |
| validator_tool/src/auto_config_generator.py:311-329 | `_suggest_key_columns` reads `uniqueness_ratio`, which an all-blank column's analysis lacks | a file with a column whose values are all blank | such a column is not a key candidate | high, not executed | AutoConfig.BlankColumnRaises | AutoConfig.KeyCandidatesMembers |
| validator_tool/src/auto_config_generator.py:264-287 | the numeric branch calls `float(v)` without the `,` to `.` replacement that `_is_numeric` applies | a column holding the value "1,5" | comma decimals are parsed as `_is_numeric` accepted them | high, not executed | AutoConfig.CommaDecimalRaises | AutoConfig.AnalyzeColumnIntendedOk |
