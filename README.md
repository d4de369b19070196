# DRG grouper core, modelled in Dafny

This project models the grouping engine of the DrgGrouper_V2 grouper (`src/main.rs`). The engine assigns a hospital case to a diagnosis-related group in three stages:

1. **Category (MDC).** It picks the major diagnostic category: the pre-emptive categories A (major operations), P (newborns), Y (catch-all diagnoses) and Z (multiple-region trauma) come first, then the categories of the principal diagnosis.
2. **ADRG.** Within each admitted category it scans the ordered candidate ADRGs. Each candidate's entry rule is chosen by the rule-type name the tables record for it. A case with a valid operation that lands in a medical group is then rewritten to the category's "QY" group.
3. **DRG.** It refines the ADRG into a DRG by the complications (CC) and major complications (MCC) among the other diagnoses. Complications whose group the principal diagnosis excludes do not count.

"KBBZ" is the answer for "no group".

Modules, in dependency order:

- `DrgCases` (`drg_case.dfy`): the case record, a class. Its diagnosis set is the one field the source updates in place (`concat_dis`).
- `RuleTables` (`rule_tables.dfy`): the KBBZ sentinel and the bundle of lookup tables (`Tables`).
- `AdrgRules` (`adrg_rules.dfy`): the eighteen ADRG entry rules and the multiple-region count.
- `AdrgDispatch` (`adrg_dispatch.dfy`): the rule-type dispatcher `process_adrg` and the first-match scan of a candidate list.
- `QyRules` (`qy.dfy`): `DrgFunc::is_qy`, `DrgFunc::drg_type` and `qy_judge`.
- `MdcChecks` (`mdc_checks.dfy`): the category checks `is_mdca` … `is_common_mdc` and `process_mdc`.
- `AdrgSelection` (`adrg_selection.dfy`): `which_adrg`, the walk over the categories.
- `DrgRefinement` (`drg_refine.dfy`): `process_drg`, the severity refinement.

The loops of the source are methods, each proved against a specification function:

| method | specification function | source loop |
|---|---|---|
| `ScanAdrgs` | `FirstHit` | candidate scans |
| `IsMdca` | `MdcaProbe` | `is_mdca` |
| `IsMdczDis` | `CountTouched` | region count |
| `ScanCommonMdcs` | — | `process_mdc`'s last loop |
| `WhichAdrg` | `WhichAdrgSpec` (built from `Walk`) | `which_adrg` |
| `ProcessDrg` | `DigitMap`, `CaseCcMcc`, `ChosenDigit` | `process_drg` |

Lemmas then state what the grouper promises about those functions.

Where the code departs from the grouping policy it sets out to implement, the model follows the code:

- **Exclusion test.** The exclusion table is compared with the complication's group (the first field of its severity-table entry), not with its CC/MCC tier.
- **Three-DRG grading.** A case with only CCs under an ADRG with three DRGs gets the 5-DRG (Finding 1).
- **Candidate scan.** The scan keeps the previous answer when a category's candidate list is empty.
- **Category walk.** It is not "first category that matches": a later category overrides an earlier match (Finding 3).
- **Sex-bound categories.** N and M never admit a case in `which_adrg`.

## Model

| member | source | states |
|---|---|---|
| DrgCases.DrgCase.constructor | src/main.rs:110-137 | keeps every raw field; the diagnosis set is the principal diagnosis plus the other diagnoses, the procedure set the principal procedure plus the others, so `Valid()` holds |
| DrgCases.PushedElemSet | src/main.rs:120-134 | collecting a list with the principal code pushed at its end gives the list's set plus that code, so push order does not matter |
| DrgCases.ElemSetPermutation | src/main.rs:133-134 | two orderings of the same other-code list give the same derived set |
| DrgCases.CaseQueries | src/main.rs:139-169 | on a constructed case, the queries say what they mean for the derived sets: no other diagnosis leaves only the principal one, no other procedure only the principal one; a missing principal code puts "" in the set; a valid surgery shares a code with the procedure list and, when "" is not listed, implies a principal procedure |
| DrgCases.DrgCase.ConcatDis | src/main.rs:159-164 | the new diagnosis set is the old one plus the principal and every other diagnosis; nothing else changes; on a constructed case it changes nothing |
| DrgCases.ConcatDisIdempotent | src/main.rs:159-164 | a second merge of the same diagnoses leaves the set unchanged (a corollary of ConcatDis's postcondition) |
| AdrgRules.IsContainMainOpt | src/main.rs:444-458 | answers the ADRG exactly when the case has a principal procedure on the ADRG's list, else KBBZ |
| AdrgRules.IsContainOptSimultaneously | src/main.rs:461-480 | answers the ADRG exactly when the case has a principal procedure and its procedures meet both the normal and the other list |
| AdrgRules.IsContainOtherDisOrOtherOpt1AndOtherOpt2 | src/main.rs:483-509 | answers the ADRG exactly when there is a principal procedure, (an other diagnosis is on the other-diagnosis list or a procedure is on list 1), and a procedure is on list 2 |
| AdrgRules.IsContainMainDisAndMainOptSimultaneously | src/main.rs:512-530 | answers the ADRG exactly when there is a principal procedure and both the principal diagnosis and principal procedure are on their lists |
| AdrgRules.IsContainMainDis | src/main.rs:533-543 | answers the ADRG exactly when the principal diagnosis is on its list |
| AdrgRules.IsContainCb4OptAndCb5Opt | src/main.rs:546-561 | answers the ADRG exactly when there is a principal procedure and the procedures meet both the CB4 and CB5 lists |
| AdrgRules.IsContainCb5OptAndCb6Opt | src/main.rs:564-579 | the same condition as the CB4/CB5 rule: it reads the CB4 and CB5 lists too |
| AdrgRules.IsContainMultiOpt1 | src/main.rs:584-611 | answers the ADRG exactly when there is a principal procedure and one of its three alternatives holds (principal diagnosis and procedure on list 1; principal procedure on list 2; procedures meeting lists 3 and 4) |
| AdrgRules.IsContainMultiOpt2 | src/main.rs:616-651 | answers the ADRG exactly when there is a principal procedure, the principal diagnosis is listed, and the procedures meet lists 1 and 2, or 1, 3 and 4, or 4 and 5 |
| AdrgRules.IsContainMultiOpt3 | src/main.rs:655-677 | answers the ADRG exactly when the principal diagnosis is listed and the principal procedure is on main list 1 or other list 2, or some procedure is on other list 2; no surgery gate |
| AdrgRules.IsContainMultiOpt4 | src/main.rs:681-710 | answers the ADRG exactly when the principal procedure is listed and the principal diagnosis is on list 1, or on list 2 with an other diagnosis on the other list; no surgery gate |
| AdrgRules.IsContainMultiOpt5 | src/main.rs:714-747 | answers the ADRG exactly when there is a listed principal procedure and (a listed principal diagnosis with an other diagnosis on list 1, or an other diagnosis on list 2) |
| AdrgRules.IsContainMultiWbOpt | src/main.rs:750-770 | answers the ADRG exactly when there is a principal procedure on one of the three WB lists |
| AdrgRules.IsContainOtherDis | src/main.rs:773-789 | answers the ADRG exactly when some other diagnosis is on its list |
| AdrgRules.IsContainDis | src/main.rs:792-810 | answers the ADRG exactly when the principal diagnosis and some other diagnosis are both on its list |
| AdrgRules.IsContainAllOpt | src/main.rs:813-824 | answers the ADRG exactly when there is a principal procedure and some procedure of the case is in the global procedure list |
| AdrgRules.IsContainDisAndMainOpt | src/main.rs:827-841 | answers the ADRG exactly when some diagnosis (principal included) is on the diagnosis list and the principal procedure is on the procedure list; no surgery gate |
| AdrgRules.CountTouchedAboveOne | src/main.rs:852-869 | the region count exceeds one exactly when two different region sheets share a diagnosis with the case |
| AdrgRules.CountTouchedPositive | src/main.rs:852-869 | the region count is positive exactly when some region sheet shares a diagnosis with the case |
| AdrgRules.CountTouchedMonotone | src/main.rs:852-869 | more diagnoses never lower the region count |
| AdrgRules.MdczDis | src/main.rs:844-875 | answers the ADRG exactly when two different region sheets share a diagnosis with the case |
| AdrgRules.IsMdczDis | src/main.rs:844-875 | the counting loop answers the ADRG exactly when more than one region sheet is touched |
| AdrgDispatch.ProcessAdrg | src/main.rs:940-984 | answers the ADRG or KBBZ; an unrecognised rule-type name gives KBBZ; a case without a principal procedure gets KBBZ from every surgery-gated rule |
| AdrgDispatch.ParseRule | src/main.rs:940-984 | a rule-type name selects a rule exactly when it is one of the eighteen names the dispatcher knows; any other name selects none |
| AdrgDispatch.Cb5Cb6SameAsCb4Cb5 | src/main.rs:546-579 | the two CB rules answer identically on every case (a corollary of their contracts: both read the CB4 and CB5 lists) |
| AdrgDispatch.MultiOpt3RedundantTest | src/main.rs:655-677 | on a constructed case, multi-opt rule 3's "principal procedure on other list 2" test is subsumed by its "some procedure on other list 2" test |
| AdrgDispatch.MultiOpt3WithoutPrincipalProcedure | src/main.rs:655-677 | multi-opt rule 3 can accept a case that has no principal procedure |
| AdrgDispatch.ProcessAdrgMonotone | src/main.rs:940-984 | adding other diagnoses and procedures to a case never turns an accepting rule into a rejecting one |
| AdrgDispatch.FirstHit | src/main.rs:1076-1081 | an empty candidate list keeps the previous answer; otherwise the scan answers KBBZ or one of the candidates |
| AdrgDispatch.FirstHitIsFirstAccepted | src/main.rs:1076-1081 | the scan answers the first candidate whose rule accepts the case, and KBBZ exactly when none does |
| AdrgDispatch.ScanAdrgs | src/main.rs:1137-1142 | the break loop over a candidate list computes FirstHit |
| QyRules.IsQy | src/main.rs:988-990 | a code is a QY group exactly when its letters 1 and 2 are Q and Y |
| QyRules.DrgType | src/main.rs:992-1009 | the kind is one of six, and each is stated exactly: KBBZ for KBBZ; "QY" for a code whose letters 1 and 2 are QY; otherwise "surgery", "operation" or "internal" by whether the second letter is in A–J, K–Q or R–Z, and "other" for a second letter outside all three bands |
| QyRules.QyJudge | src/main.rs:1013-1031 | KBBZ, or a case without a valid operation, keeps the code; otherwise the first letter is kept, a medical group becomes "<letter>QY", and the result is never in the medical band |
| QyRules.QyJudgeIdempotent | src/main.rs:1013-1031 | rewriting twice is rewriting once |
| QyRules.QyJudgeNeverInternal | src/main.rs:992-1031 | after the rewrite, a case with a valid operation is never classified "internal" |
| MdcChecks.MdcaAdrgsAreSurgical | src/main.rs:334-336 | every category A candidate is a three-letter code starting with A whose second letter is surgical |
| MdcChecks.MdcaAdrgsAreNotCategoryName | src/main.rs:334-336 | no category A candidate is spelled "MDCA", so the category A probe never answers the category's own name |
| MdcChecks.CommonMdcsAreOrdinary | src/main.rs:924-929 | the ordinary category list names none of A, P, N, M |
| MdcChecks.MdcaProbe | src/main.rs:322-351 | answers KBBZ or a category A candidate, and KBBZ for a case without a principal procedure |
| MdcChecks.MdcaProbeFirstAccepted | src/main.rs:338-349 | the category A scan answers the first candidate whose rule accepts the case, and KBBZ exactly when none does |
| MdcChecks.IsMdca | src/main.rs:322-351 | the loop computes MdcaProbe |
| MdcChecks.IsMdcz | src/main.rs:354-369 | answers "MDCZ" exactly when two different region sheets share a diagnosis with the case |
| MdcChecks.IsMdcp | src/main.rs:372-384 | answers "MDCP" exactly when the age is at most 0.0795 years |
| MdcChecks.NewbornDays | src/main.rs:377-378 | for an age of days/365, the newborn test admits exactly 0 to 29 days |
| MdcChecks.IsMdcy | src/main.rs:387-398 | answers "MDCY" exactly when some diagnosis of the case is on the catch-all list |
| MdcChecks.IsMdcn | src/main.rs:401-412 | answers "MDCY" exactly for a female case whose principal diagnosis's first category is MDCN |
| MdcChecks.IsMdcm | src/main.rs:415-426 | answers "MDCY" exactly for a male case whose principal diagnosis's first category is MDCM |
| MdcChecks.IsCommonMdc | src/main.rs:429-440 | answers the category exactly when it is the principal diagnosis's first category |
| MdcChecks.ProcessMdc | src/main.rs:877-936 | as written: Z when two regions are touched, else Y when a catch-all diagnosis is present, else the principal diagnosis's first category if it is ordinary, else KBBZ; it never answers A, P, N or M |
| MdcChecks.ScanCommonMdcs | src/main.rs:924-934 | the loop answers the principal diagnosis's first category when it is ordinary, else KBBZ |
| MdcChecks.ProcessMdcCorrected | src/main.rs:877-936 | the corrected chain answers KBBZ, A, Z, Y, P or an ordinary category; never N or M, because the sex-bound checks answer "MDCY" and the chain passes that on |
| MdcChecks.ProcessMdcCorrectedPriority | src/main.rs:886-922 | the corrected chain answers A when any category A candidate accepts a case with a principal procedure; P for a newborn outside A, Z and Y; and Y for a female case of category N or a male case of category M outside A, Z, Y and P |
| AdrgSelection.ScanOutcome | src/main.rs:1076-1081 | a category scan keeps the previous answer, answers KBBZ, or answers a candidate whose rule accepts the case |
| AdrgSelection.Step | src/main.rs:1064-1143 | one pass of the category loop: only a category A hit stops the loop, and the answer is the previous one, KBBZ, or an accepted candidate |
| AdrgSelection.Walk | src/main.rs:1063-1145 | the category loop leaves the starting answer, KBBZ, or a candidate whose rule accepts the case |
| AdrgSelection.Targets | src/main.rs:1055-1062 | the walked list is A, P, Y, Z followed by the principal diagnosis's categories |
| AdrgSelection.WhichAdrgSpec | src/main.rs:1034-1148 | KBBZ without a principal diagnosis; any other answer is the QY rewrite of a candidate whose rule accepts the case |
| AdrgSelection.WhichAdrg | src/main.rs:1034-1148 | the loop with its break computes WhichAdrgSpec |
| AdrgSelection.VisitCategory | src/main.rs:1064-1143 | the loop body for one category computes Step |
| AdrgSelection.WhichAdrgMdcaWins | src/main.rs:1064-1071 | a category A hit is the final answer, untouched by the QY rewrite |
| AdrgSelection.DropSexBound | src/main.rs:1109-1134 | removes exactly the N and M entries from a category list |
| AdrgSelection.WalkSkipsSexBound | src/main.rs:1109-1134 | N and M entries never change the walk's answer |
| AdrgSelection.WalkAppend | src/main.rs:1063-1145 | without category A, walking two lists in a row is walking the second from the first's answer |
| AdrgSelection.ScanMissAnswersKbbz | src/main.rs:1137-1142 | a non-empty scan that no candidate accepts answers KBBZ, whatever came before |
| AdrgSelection.WalkLaterCategoryOverrides | src/main.rs:1135-1143 | as written, a last ordinary category whose candidates all reject the case makes the walk answer KBBZ |
| AdrgSelection.NewbornMatchIsLost | src/main.rs:1072-1143 | as written, a newborn accepted by a category P candidate, with one ordinary category that rejects it, ends in KBBZ |
| AdrgSelection.NewbornMatchIsLostExample | src/main.rs:1046-1147 | a concrete input meets that premise: a newborn whose principal diagnosis category P's candidate accepts, with one ordinary category whose candidate rejects it, gets KBBZ from which_adrg |
| AdrgSelection.CategoryHit | src/main.rs:1064-1143 | a category alone answers KBBZ or a candidate whose rule accepts the case |
| AdrgSelection.WalkCorrected | src/main.rs:1063-1145 | the corrected walk answers KBBZ or an accepted candidate |
| AdrgSelection.WalkCorrectedFirstHit | src/main.rs:1063-1145 | the corrected walk answers the hit of the first category that has one |
| AdrgSelection.WhichAdrgCorrected | src/main.rs:1046-1147 | KBBZ without a principal diagnosis; any other answer is the QY rewrite of an accepted candidate |
| AdrgSelection.NewbornMatchKeptWhenCorrected | src/main.rs:1072-1083 | with the corrected walk, a newborn's category P hit (not preceded by an A hit) is the answer, after the QY rewrite |
| DrgRefinement.LastDigit | src/main.rs:1168 | the trailing character of a DRG code read as a digit, 0–9 for a code ending in a decimal digit |
| DrgRefinement.LastIndexOfDigit | src/main.rs:1164-1169 | the position of the last registered DRG ending in a given digit, with no later DRG ending in it, or -1 when none does |
| DrgRefinement.DigitMap | src/main.rs:1164-1169 | each key maps to a registered DRG ending in that digit, and every registered DRG's digit is a key |
| DrgRefinement.DigitMapLastWins | src/main.rs:1164-1169 | a digit's entry is the last registered DRG ending in that digit: a later DRG with the same digit replaces an earlier one |
| DrgRefinement.DigitMapSize | src/main.rs:1164-1169 | DRGs with distinct digits give a map with one entry per DRG |
| DrgRefinement.DrgWaitDict | src/main.rs:1164-1169 | the loop computes DigitMap |
| DrgRefinement.CaseCcMcc | src/main.rs:1172-1175 | at most one entry per other diagnosis; each entry is the severity-table entry of one of them, and every other diagnosis the table lists contributes its entry; no entries exactly when no other diagnosis is in the table |
| DrgRefinement.CaseCcMccConcat | src/main.rs:1172-1175 | the entries keep the order of the diagnoses: collecting two lists in a row is collecting each and concatenating |
| DrgRefinement.CollectCaseCcMcc | src/main.rs:1172-1175 | the loop computes CaseCcMcc |
| DrgRefinement.ExcludeLabel | src/main.rs:1191 | the exclusion table's group for the principal diagnosis, or "" when it has none |
| DrgRefinement.SeverityStep | src/main.rs:1189-1199 | the severity of a complication list follows from its first entry and the severity of the rest: an excluded entry adds nothing, a surviving MCC makes it major, a surviving CC makes it at least minor |
| DrgRefinement.SurvivingMajorOfDiagnoses | src/main.rs:1172-1175 | an MCC survives among the collected entries exactly when some listed other diagnosis has a non-excluded MCC entry |
| DrgRefinement.SurvivingOfDiagnoses | src/main.rs:1172-1175 | an entry survives among the collected entries exactly when some listed other diagnosis is not excluded |
| DrgRefinement.CaseSeverityOfDiagnoses | src/main.rs:1172-1199 | the case's severity stated on its other diagnoses: major for a listed diagnosis with a non-excluded MCC, minor when only non-excluded CCs exist, none otherwise |
| DrgRefinement.TwoCodeScan | src/main.rs:1189-1199 | the two-DRG loop computes TwoCodeLabel |
| DrgRefinement.ThreeCodeScan | src/main.rs:1225-1242 | the three-DRG loop computes ThreeCodeLabel |
| DrgRefinement.TwoCodeLabelSeverity | src/main.rs:1189-1199 | the two-DRG loop leaves "MCC" for a surviving major complication, "CC" for only minor ones, and its start value when none survives |
| DrgRefinement.ThreeCodeLabelNeverCc | src/main.rs:1225-1242 | the three-DRG loop leaves "MCC" exactly when a major complication survives, and never "CC" when it did not start with it |
| DrgRefinement.ProcessDrg | src/main.rs:1151-1261 | KBBZ and QY groups are returned unchanged; otherwise the result is a registered DRG of the ADRG whose digit is the one the severity rules choose |
| DrgRefinement.SingleDrgOutcome | src/main.rs:1178-1181 | a single registered DRG is chosen by digit 9, which exists exactly when its code ends in 9 |
| DrgRefinement.TwoDrgOutcomes | src/main.rs:1182-1223 | with two DRGs: MCC gives 1 if present else 3; only CCs give 5 beside a 1-DRG else 3; no surviving complication gives 5 |
| DrgRefinement.ThreeDrgOutcomes | src/main.rs:1224-1259 | as written, with three DRGs: a surviving MCC gives 1, every other case (only CCs included) gives 5 |
| DrgRefinement.ThreeDrgMinorComplicationMissed | src/main.rs:1237-1250 | a concrete case with one non-excluded CC has minor severity, yet gets digit 5; the corrected choice gives 3 |
| DrgRefinement.ChosenDigitCorrected | src/main.rs:1224-1259 | agrees with the as-written choice for one or two DRGs |
| DrgRefinement.ThreeDrgOutcomesCorrected | src/main.rs:1224-1259 | with the correction and three DRGs: MCC gives 1, CC gives 3, none gives 5 |

## Left out

- Loading the tables from JSON, CSV and text files (src/main.rs:21-91), the CSV reading and writing of cases (src/main.rs:174-222, 286-318) and the field deserialiser (src/main.rs:228-282): input and output. The tables are values of the `Tables` datatype; `which_adrg` receives them bundled and the other operations receive the maps they read.
- The batch and single-case drivers and `main` (src/main.rs:1265-1416): they sequence `which_adrg` and `process_drg` over input rows and print. The unit tests (src/main.rs:1419-1948) are not modelled.
- The case's age is an `f64`; it is modelled as a real number, so rounding of `0.0795` and of days/365 is not captured.
- Codes are taken as sequences of characters: the byte slicing `&s[1..=2]` that would panic on a multi-byte character boundary is not modelled.
- A missing table key or an out-of-range index panics in the source; each becomes a precondition (`AdrgReady`, `MdcaReady`, `SubReady`, `MdcReady`, `WhichReady`, `ProcessMdcReady`, `DrgReady`).
- AdrgDispatch.AdrgReady: asks for every slice a rule names, while the source's short-circuit evaluation reads fewer keys on some cases.
- DrgRefinement.DrgReady: asks that every severity entry can be indexed, while the source stops reading at the first MCC.
- The `Result` wrappers of `which_adrg` and `process_drg` are dropped: neither ever returns an error.
- Parameters the source never reads (`mdc_name` of the category checks, `all_dis_list` of `which_adrg`, the unused table arguments of `is_mdcz` and `is_mdcy`) are dropped.
- The loop bodies of `which_adrg` and `process_drg` are split into helper methods (`VisitCategory`, `DrgWaitDict`, `CollectCaseCcMcc`, `TwoCodeScan`, `ThreeCodeScan`); the control flow is unchanged.
- `process_mdc` is not called anywhere in the program; it is modelled as written (`MdcChecks.ProcessMdc`), and `which_adrg` performs its own category walk.
- AdrgDispatch.ProcessAdrg: its contract gives the answer range, the unrecognised-name case and the surgery gate. Which rule runs is the dispatch itself; each rule's own contract states when it accepts.
- AdrgSelection.Walk: states the possible answers of the walk, not which accepted candidate it picks; the lemmas beside it (`WalkAppend`, `WalkSkipsSexBound`, `WhichAdrgMdcaWins`, `WalkLaterCategoryOverrides`) pin the order down.
- MdcChecks.ProcessMdcCorrected: its own contract gives only the answer range; the priority it restores is stated by `ProcessMdcCorrectedPriority`.

## Findings

| source | as written | input that shows it | evidently intended | confidence | as-written member | corrected member |
|---|---|---|---|---|---|---|
| src/main.rs:1239 | in the three-DRG branch, a non-excluded CC stores the entry's exclusion group `c[0]` in `high_ccmcc_label` instead of its tier `c[1]`, so the label is never "CC" unless some exclusion group is itself spelled "CC" | ADRG with DRGs ending 1, 3 and 5; the case's only complication is entry ["G7", "CC"], not excluded: severity Minor, yet the 5-DRG is chosen | store the tier, as the two-DRG branch does, so that a case with only CCs gets the 3-DRG | high (not executed) | DrgRefinement.ThreeDrgMinorComplicationMissed | DrgRefinement.ThreeDrgOutcomesCorrected |
| src/main.rs:889-922 | `process_mdc` compares each check's answer with a name that check never gives: `is_mdca` gives an ADRG code (tested against "MDCA"); `is_mdcp` gives "MDCP" (tested against "MDCY"); `is_mdcn`/`is_mdcm` give "MDCY" (tested against "MDCN"/"MDCM") | a case whose principal procedure is accepted by the rule of ADRG AA1, touching at most one region and no catch-all diagnosis: the chain answers the principal diagnosis's ordinary category, never "MDCA" | each test compares with the name its check answers, so A and P are reached in the stated priority and a sex-bound case of category N or M is redirected to Y, the answer its check gives | high (not executed) | MdcChecks.ProcessMdc | MdcChecks.ProcessMdcCorrectedPriority |
| src/main.rs:1063-1143 | in `which_adrg` every later category's scan overwrites `pred_adrg`; only a category A hit breaks the loop | a newborn with no category A hit, accepted by a category P candidate, whose principal diagnosis has one ordinary category that rejects the case: the answer is KBBZ | the first category that finds an ADRG decides, as the priority order of the pre-emptive categories suggests | medium (not executed) | AdrgSelection.NewbornMatchIsLost | AdrgSelection.NewbornMatchKeptWhenCorrected |
