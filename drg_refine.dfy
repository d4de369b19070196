/** process_drg: refining an ADRG into one of its registered DRGs by the case's
    complications. Each DRG code ends in a digit: 1 with a major complication (MCC),
    3 with a minor one (CC), 5 without, and 9 when the ADRG has a single DRG. */
module DrgRefinement {
  import opened DrgCases
  import opened RuleTables

  /** A registered DRG code: non-empty and ending in a decimal digit. */
  predicate WellFormedCode(s: string)
  {
    |s| > 0 && '0' <= s[|s| - 1] <= '9'
  }

  /** The value of the code's trailing character as a decimal digit; -1 for the empty code. */
  function LastDigit(s: string): (d: int)
    ensures WellFormedCode(s) ==> 0 <= d <= 9
  {
    if |s| == 0 then -1 else (s[|s| - 1] as int) - ('0' as int)
  }

  /** drg_wait_dict: each registered code under the digit it ends in, a later code
      replacing an earlier one with the same digit. */
  function DigitMap(codes: seq<string>): (d: map<int, string>)
    requires forall x :: x in codes ==> WellFormedCode(x)
    ensures forall k :: k in d ==> d[k] in codes && LastDigit(d[k]) == k
    ensures forall x :: x in codes ==> LastDigit(x) in d
    decreases |codes|
  {
    if codes == [] then map[]
    else
      var last := codes[|codes| - 1];
      DigitMap(codes[..|codes| - 1])[LastDigit(last) := last]
  }

  /** Dropping the last registered code keeps the codes well formed. */
  lemma WellFormedInit(codes: seq<string>)
    requires codes != [] && forall x :: x in codes ==> WellFormedCode(x)
    ensures forall x :: x in codes[..|codes| - 1] ==> WellFormedCode(x)
  {
    forall x | x in codes[..|codes| - 1]
      ensures x in codes
    {
      var i :| 0 <= i < |codes| - 1 && codes[..|codes| - 1][i] == x;
      assert codes[i] == x;
    }
  }

  /** The position of the last code ending in digit `k`, or -1 when no code does. */
  function LastIndexOfDigit(codes: seq<string>, k: int): (j: int)
    ensures -1 <= j < |codes|
    ensures j >= 0 ==> LastDigit(codes[j]) == k
    ensures forall l :: j < l < |codes| ==> LastDigit(codes[l]) != k
    decreases |codes|
  {
    if codes == [] then -1
    else if LastDigit(codes[|codes| - 1]) == k then |codes| - 1
    else
      var j := LastIndexOfDigit(codes[..|codes| - 1], k);
      assert forall l :: j < l < |codes| - 1 ==> codes[..|codes| - 1][l] == codes[l];
      j
  }

  /** The code kept for a digit is the last registered code ending in it. */
  lemma {:induction false} DigitMapLastWins(codes: seq<string>, k: int)
    requires forall x :: x in codes ==> WellFormedCode(x)
    requires k in DigitMap(codes)
    ensures 0 <= LastIndexOfDigit(codes, k) && DigitMap(codes)[k] == codes[LastIndexOfDigit(codes, k)]
    decreases |codes|
  {
    var n := |codes| - 1;
    var init := codes[..n];
    WellFormedInit(codes);
    var last := codes[n];
    assert DigitMap(codes) == DigitMap(init)[LastDigit(last) := last];
    if LastDigit(last) != k {
      assert k in DigitMap(init);
      DigitMapLastWins(init, k);
      var j := LastIndexOfDigit(init, k);
      assert LastIndexOfDigit(codes, k) == j;
      assert codes[j] == init[j];
    }
  }

  /** Distinct trailing digits stay distinct when the last code is dropped. */
  lemma DistinctDigitsInit(codes: seq<string>, init: seq<string>)
    requires codes != [] && init == codes[..|codes| - 1]
    requires forall i, j :: 0 <= i < j < |codes| ==> LastDigit(codes[i]) != LastDigit(codes[j])
    ensures forall i, j :: 0 <= i < j < |init| ==> LastDigit(init[i]) != LastDigit(init[j])
  {
    forall i, j | 0 <= i < j < |init|
      ensures LastDigit(init[i]) != LastDigit(init[j])
    {
      assert init[i] == codes[i] && init[j] == codes[j];
    }
  }

  /** With distinct trailing digits, the last code's digit has no entry before it is added. */
  lemma LastDigitIsNew(codes: seq<string>)
    requires codes != [] && forall x :: x in codes ==> WellFormedCode(x)
    requires forall i, j :: 0 <= i < j < |codes| ==> LastDigit(codes[i]) != LastDigit(codes[j])
    ensures forall x :: x in codes[..|codes| - 1] ==> WellFormedCode(x)
    ensures LastDigit(codes[|codes| - 1]) !in DigitMap(codes[..|codes| - 1])
  {
    WellFormedInit(codes);
  }

  /** Codes ending in distinct digits each get their own entry. */
  lemma {:induction false} DigitMapSize(codes: seq<string>)
    requires forall x :: x in codes ==> WellFormedCode(x)
    requires forall i, j :: 0 <= i < j < |codes| ==> LastDigit(codes[i]) != LastDigit(codes[j])
    ensures |DigitMap(codes)| == |codes|
    decreases |codes|
  {
    if codes != [] {
      var n := |codes| - 1;
      var init := codes[..n];
      DistinctDigitsInit(codes, init);
      LastDigitIsNew(codes);
      DigitMapSize(init);
      assert DigitMap(codes) == DigitMap(init)[LastDigit(codes[n]) := codes[n]];
    }
  }

  /** case_ccmcc: the complication entries of the other diagnoses, in diagnosis order,
      skipping diagnoses the complication sheet does not list. */
  function CaseCcMcc(otherDis: seq<string>, ccmccSheet: map<string, seq<string>>): (entries: seq<seq<string>>)
    ensures |entries| <= |otherDis|
    ensures forall e :: e in entries ==> exists x :: x in otherDis && x in ccmccSheet && ccmccSheet[x] == e
    ensures entries == [] <==> forall x :: x in otherDis ==> x !in ccmccSheet
    ensures forall x :: x in otherDis && x in ccmccSheet ==> ccmccSheet[x] in entries
    decreases |otherDis|
  {
    if otherDis == [] then []
    else
      var n := |otherDis| - 1;
      var x := otherDis[n];
      assert forall y :: y in otherDis[..n] ==> y in otherDis;
      CaseCcMcc(otherDis[..n], ccmccSheet) + (if x in ccmccSheet then [ccmccSheet[x]] else [])
  }

  /** The entries keep the order of the diagnoses: collecting two lists in a row is
      collecting each and concatenating. */
  lemma {:induction false} CaseCcMccConcat(a: seq<string>, b: seq<string>, ccmccSheet: map<string, seq<string>>)
    ensures CaseCcMcc(a + b, ccmccSheet) == CaseCcMcc(a, ccmccSheet) + CaseCcMcc(b, ccmccSheet)
    decreases |b|
  {
    if b != [] {
      var n := |b| - 1;
      assert (a + b)[..|a + b| - 1] == a + b[..n];
      assert (a + b)[|a + b| - 1] == b[n];
      CaseCcMccConcat(a, b[..n], ccmccSheet);
    } else {
      assert a + b == a;
    }
  }

  /** The exclusion group of the principal diagnosis, "" when it has none. */
  function ExcludeLabel(mainDis: string, excludeSheet: map<string, string>): (g: string)
    ensures mainDis in excludeSheet ==> g == excludeSheet[mainDis]
    ensures mainDis !in excludeSheet ==> g == ""
  {
    if mainDis in excludeSheet then excludeSheet[mainDis] else ""
  }

  /** Every entry has an exclusion group, and a severity unless its group is excluded. */
  predicate Indexable(entries: seq<seq<string>>, excl: string)
  {
    forall e :: e in entries ==> |e| >= 1 && (e[0] != excl ==> |e| >= 2)
  }

  /** The label the loop of the two-DRG branch leaves: "MCC" at the first surviving MCC,
      otherwise the severity of the last surviving entry, otherwise `tag`. */
  function TwoCodeLabel(entries: seq<seq<string>>, excl: string, tag: string): string
    requires Indexable(entries, excl)
    decreases |entries|
  {
    if entries == [] then tag
    else if entries[0][0] == excl then TwoCodeLabel(entries[1..], excl, tag)
    else if entries[0][1] == "MCC" then "MCC"
    else TwoCodeLabel(entries[1..], excl, entries[0][1])
  }

  /** The label the loop of the three-DRG branch leaves: like TwoCodeLabel, except that a
      surviving entry that is not an MCC records its exclusion group, not its severity. */
  function ThreeCodeLabel(entries: seq<seq<string>>, excl: string, tag: string): string
    requires Indexable(entries, excl)
    decreases |entries|
  {
    if entries == [] then tag
    else if entries[0][0] == excl then ThreeCodeLabel(entries[1..], excl, tag)
    else if entries[0][1] == "MCC" then "MCC"
    else ThreeCodeLabel(entries[1..], excl, entries[0][0])
  }

  /** The digit of the DRG process_drg picks. */
  function ChosenDigit(d: map<int, string>, entries: seq<seq<string>>, excl: string): int
    requires |d| != 1 ==> Indexable(entries, excl)
  {
    if |d| == 1 then 9
    else if |d| == 2 then
      if entries == [] then 5
      else
        var tag := TwoCodeLabel(entries, excl, "exclude");
        if tag == "MCC" then (if 1 in d then 1 else 3)
        else if tag == "CC" then (if 1 in d then 5 else 3)
        else 5
    else
      var tag := ThreeCodeLabel(entries, excl, "exclude");
      if tag == "MCC" then 1
      else if tag == "CC" then (if |d| == 3 then 3 else 1)
      else 5
  }

  /** The ADRG is refined: it is neither KBBZ nor a QY group. */
  predicate Refinable(adrgName: string)
    requires adrgName == KBBZ || |adrgName| >= 3
  {
    adrgName != KBBZ && adrgName[1..3] != "QY"
  }

  /** What process_drg needs for a refinable ADRG: its DRG list, codes that end in a digit,
      complication entries it can index, and a DRG for the digit it picks. */
  predicate DrgReady(c: DrgCase, adrgName: string, ccmccSheet: map<string, seq<string>>,
                     excludeSheet: map<string, string>, adrgDrgNameSheet: map<string, seq<string>>)
  {
    && adrgName in adrgDrgNameSheet
    && (forall x :: x in adrgDrgNameSheet[adrgName] ==> WellFormedCode(x))
    && var d := DigitMap(adrgDrgNameSheet[adrgName]);
       var entries := CaseCcMcc(c.otherDis, ccmccSheet);
       var excl := ExcludeLabel(c.mainDis, excludeSheet);
       && (|d| != 1 ==> Indexable(entries, excl))
       && ChosenDigit(d, entries, excl) in d
  }

  /** process_drg */
  method ProcessDrg(c: DrgCase, adrgName: string, ccmccSheet: map<string, seq<string>>,
                    excludeSheet: map<string, string>, adrgDrgNameSheet: map<string, seq<string>>)
    returns (predDrg: string)
    requires adrgName == KBBZ || |adrgName| >= 3
    requires Refinable(adrgName) ==> DrgReady(c, adrgName, ccmccSheet, excludeSheet, adrgDrgNameSheet)
    ensures !Refinable(adrgName) ==> predDrg == adrgName
    ensures Refinable(adrgName) ==>
              var codes := adrgDrgNameSheet[adrgName];
              var k := ChosenDigit(DigitMap(codes), CaseCcMcc(c.otherDis, ccmccSheet), ExcludeLabel(c.mainDis, excludeSheet));
              predDrg in codes && LastDigit(predDrg) == k && predDrg == DigitMap(codes)[k]
  {
    if adrgName == KBBZ || adrgName[1..3] == "QY" {
      return adrgName;
    }
    predDrg := KBBZ;
    var drgWaitDict := DrgWaitDict(adrgDrgNameSheet[adrgName]);
    var caseCcmcc := CollectCaseCcMcc(c.otherDis, ccmccSheet);
    var excl := ExcludeLabel(c.mainDis, excludeSheet);

    if |drgWaitDict| == 1 {
      predDrg := drgWaitDict[9];
    } else if |drgWaitDict| == 2 {
      if caseCcmcc == [] {
        predDrg := drgWaitDict[5];
      } else {
        var excludeLabel := TwoCodeScan(caseCcmcc, excl);
        if excludeLabel == "MCC" {
          if 1 in drgWaitDict {
            predDrg := drgWaitDict[1];
          } else {
            predDrg := drgWaitDict[3];
          }
        } else if excludeLabel == "CC" {
          if 1 in drgWaitDict {
            predDrg := drgWaitDict[5];
          } else {
            predDrg := drgWaitDict[3];
          }
        } else {
          predDrg := drgWaitDict[5];
        }
      }
    } else {
      var highCcmccLabel := ThreeCodeScan(caseCcmcc, excl);
      if highCcmccLabel == "MCC" {
        predDrg := drgWaitDict[1];
      } else if highCcmccLabel == "CC" {
        if |drgWaitDict| == 3 {
          predDrg := drgWaitDict[3];
        } else {
          predDrg := drgWaitDict[1];
        }
      } else {
        predDrg := drgWaitDict[5];
      }
    }
  }

  /** Collecting the registered codes by last digit. */
  method DrgWaitDict(codes: seq<string>) returns (drgWaitDict: map<int, string>)
    requires forall x :: x in codes ==> WellFormedCode(x)
    ensures drgWaitDict == DigitMap(codes)
  {
    drgWaitDict := map[];
    for i := 0 to |codes|
      invariant drgWaitDict == DigitMap(codes[..i])
    {
      assert codes[..i + 1][..i] == codes[..i];
      drgWaitDict := drgWaitDict[LastDigit(codes[i]) := codes[i]];
    }
    assert codes[..|codes|] == codes;
  }

  /** Looking up each other diagnosis in the complication sheet. */
  method CollectCaseCcMcc(otherDis: seq<string>, ccmccSheet: map<string, seq<string>>) returns (caseCcmcc: seq<seq<string>>)
    ensures caseCcmcc == CaseCcMcc(otherDis, ccmccSheet)
  {
    caseCcmcc := [];
    for i := 0 to |otherDis|
      invariant caseCcmcc == CaseCcMcc(otherDis[..i], ccmccSheet)
    {
      assert otherDis[..i + 1][..i] == otherDis[..i];
      if otherDis[i] in ccmccSheet {
        caseCcmcc := caseCcmcc + [ccmccSheet[otherDis[i]]];
      }
    }
    assert otherDis[..|otherDis|] == otherDis;
  }

  /** The complication loop of the two-DRG branch. */
  method TwoCodeScan(caseCcmcc: seq<seq<string>>, excl: string) returns (excludeLabel: string)
    requires Indexable(caseCcmcc, excl)
    ensures excludeLabel == TwoCodeLabel(caseCcmcc, excl, "exclude")
  {
    excludeLabel := "exclude";
    var i := 0;
    while i < |caseCcmcc|
      invariant 0 <= i <= |caseCcmcc|
      invariant TwoCodeLabel(caseCcmcc, excl, "exclude") == TwoCodeLabel(caseCcmcc[i..], excl, excludeLabel)
    {
      var e := caseCcmcc[i];
      assert caseCcmcc[i..][0] == e && caseCcmcc[i..][1..] == caseCcmcc[i + 1..];
      if e[0] != excl {
        excludeLabel := e[1];
        if excludeLabel == "MCC" {
          break;
        }
      }
      i := i + 1;
    }
  }

  /** The complication loop of the branch for three or more DRGs. */
  method ThreeCodeScan(caseCcmcc: seq<seq<string>>, excl: string) returns (highCcmccLabel: string)
    requires Indexable(caseCcmcc, excl)
    ensures highCcmccLabel == ThreeCodeLabel(caseCcmcc, excl, "exclude")
  {
    highCcmccLabel := "exclude";
    var i := 0;
    while i < |caseCcmcc|
      invariant 0 <= i <= |caseCcmcc|
      invariant ThreeCodeLabel(caseCcmcc, excl, "exclude") == ThreeCodeLabel(caseCcmcc[i..], excl, highCcmccLabel)
    {
      var e := caseCcmcc[i];
      assert caseCcmcc[i..][0] == e && caseCcmcc[i..][1..] == caseCcmcc[i + 1..];
      if e[0] != excl {
        if e[1] == "MCC" {
          highCcmccLabel := "MCC";
          break;
        } else {
          highCcmccLabel := e[0];
        }
      }
      i := i + 1;
    }
  }

  // ---------------------------------------------------------------------------
  // Outcomes in terms of the case's complications

  datatype Severity = NoComplication | Minor | Major

  /** Every entry carries a severity, "MCC" or "CC". */
  predicate WellTagged(entries: seq<seq<string>>)
  {
    forall e :: e in entries ==> |e| >= 2 && (e[1] == "MCC" || e[1] == "CC")
  }

  /** Some entry survives the exclusion and is an MCC. */
  predicate SurvivingMajor(entries: seq<seq<string>>, excl: string)
    requires WellTagged(entries)
  {
    exists i :: 0 <= i < |entries| && entries[i][0] != excl && entries[i][1] == "MCC"
  }

  /** Some entry survives the exclusion. */
  predicate Surviving(entries: seq<seq<string>>, excl: string)
  {
    exists i :: 0 <= i < |entries| && |entries[i]| >= 1 && entries[i][0] != excl
  }

  /** The worst complication that the principal diagnosis does not exclude. */
  function CaseSeverity(entries: seq<seq<string>>, excl: string): Severity
    requires WellTagged(entries)
  {
    if SurvivingMajor(entries, excl) then Major
    else if Surviving(entries, excl) then Minor
    else NoComplication
  }

  /** An MCC survives in a list exactly when it is the first entry or survives in the rest. */
  lemma SurvivingMajorStep(entries: seq<seq<string>>, excl: string)
    requires entries != [] && WellTagged(entries)
    ensures WellTagged(entries[1..])
    ensures SurvivingMajor(entries, excl)
            <==> (entries[0][0] != excl && entries[0][1] == "MCC") || SurvivingMajor(entries[1..], excl)
  {
    var rest := entries[1..];
    assert forall e :: e in rest ==> e in entries;
    if SurvivingMajor(rest, excl) {
      var i :| 0 <= i < |rest| && rest[i][0] != excl && rest[i][1] == "MCC";
      assert entries[i + 1] == rest[i];
    }
    if SurvivingMajor(entries, excl) {
      var i :| 0 <= i < |entries| && entries[i][0] != excl && entries[i][1] == "MCC";
      if i > 0 {
        assert rest[i - 1] == entries[i];
      }
    }
  }

  /** An entry survives in a list exactly when it is the first entry or survives in the rest. */
  lemma SurvivingStep(entries: seq<seq<string>>, excl: string)
    requires entries != [] && |entries[0]| >= 1
    ensures Surviving(entries, excl) <==> entries[0][0] != excl || Surviving(entries[1..], excl)
  {
    var rest := entries[1..];
    if Surviving(rest, excl) {
      var i :| 0 <= i < |rest| && |rest[i]| >= 1 && rest[i][0] != excl;
      assert entries[i + 1] == rest[i];
    }
    if Surviving(entries, excl) {
      var i :| 0 <= i < |entries| && |entries[i]| >= 1 && entries[i][0] != excl;
      if i > 0 {
        assert rest[i - 1] == entries[i];
      }
    }
  }

  /** The severity of a list of entries, from its first entry and the severity of the rest. */
  lemma SeverityStep(entries: seq<seq<string>>, excl: string)
    requires entries != [] && WellTagged(entries)
    ensures WellTagged(entries[1..])
    ensures CaseSeverity(entries, excl)
            == if entries[0][0] == excl then CaseSeverity(entries[1..], excl)
               else if entries[0][1] == "MCC" then Major
               else if CaseSeverity(entries[1..], excl) == Major then Major
               else Minor
  {
    assert entries[0] in entries;
    SurvivingMajorStep(entries, excl);
    SurvivingStep(entries, excl);
  }

  /** Every other diagnosis the complication sheet lists carries a severity. */
  predicate SheetTagged(otherDis: seq<string>, ccmccSheet: map<string, seq<string>>)
  {
    forall x :: x in otherDis && x in ccmccSheet ==>
      |ccmccSheet[x]| >= 2 && (ccmccSheet[x][1] == "MCC" || ccmccSheet[x][1] == "CC")
  }

  /** The collected entries of a case whose listed diagnoses carry severities are well
      tagged. */
  lemma CaseCcMccTagged(otherDis: seq<string>, ccmccSheet: map<string, seq<string>>)
    requires SheetTagged(otherDis, ccmccSheet)
    ensures WellTagged(CaseCcMcc(otherDis, ccmccSheet))
  {
    forall e | e in CaseCcMcc(otherDis, ccmccSheet)
      ensures |e| >= 2 && (e[1] == "MCC" || e[1] == "CC")
    {
      var x :| x in otherDis && x in ccmccSheet && ccmccSheet[x] == e;
    }
  }

  /** An MCC survives among the collected entries exactly when some listed other diagnosis
      has a non-excluded MCC entry. */
  lemma SurvivingMajorOfDiagnoses(otherDis: seq<string>, ccmccSheet: map<string, seq<string>>, excl: string)
    requires SheetTagged(otherDis, ccmccSheet)
    ensures WellTagged(CaseCcMcc(otherDis, ccmccSheet))
    ensures SurvivingMajor(CaseCcMcc(otherDis, ccmccSheet), excl) <==>
              exists x :: x in otherDis && x in ccmccSheet && ccmccSheet[x][0] != excl && ccmccSheet[x][1] == "MCC"
  {
    CaseCcMccTagged(otherDis, ccmccSheet);
    var entries := CaseCcMcc(otherDis, ccmccSheet);
    if SurvivingMajor(entries, excl) {
      var i :| 0 <= i < |entries| && entries[i][0] != excl && entries[i][1] == "MCC";
      assert entries[i] in entries;
      var x :| x in otherDis && x in ccmccSheet && ccmccSheet[x] == entries[i];
    }
    if exists x :: x in otherDis && x in ccmccSheet && ccmccSheet[x][0] != excl && ccmccSheet[x][1] == "MCC" {
      var x :| x in otherDis && x in ccmccSheet && ccmccSheet[x][0] != excl && ccmccSheet[x][1] == "MCC";
      var i :| 0 <= i < |entries| && entries[i] == ccmccSheet[x];
    }
  }

  /** An entry survives among the collected entries exactly when some listed other
      diagnosis is not excluded. */
  lemma SurvivingOfDiagnoses(otherDis: seq<string>, ccmccSheet: map<string, seq<string>>, excl: string)
    requires SheetTagged(otherDis, ccmccSheet)
    ensures Surviving(CaseCcMcc(otherDis, ccmccSheet), excl) <==>
              exists x :: x in otherDis && x in ccmccSheet && ccmccSheet[x][0] != excl
  {
    var entries := CaseCcMcc(otherDis, ccmccSheet);
    if Surviving(entries, excl) {
      var i :| 0 <= i < |entries| && |entries[i]| >= 1 && entries[i][0] != excl;
      assert entries[i] in entries;
      var x :| x in otherDis && x in ccmccSheet && ccmccSheet[x] == entries[i];
    }
    if exists x :: x in otherDis && x in ccmccSheet && ccmccSheet[x][0] != excl {
      var x :| x in otherDis && x in ccmccSheet && ccmccSheet[x][0] != excl;
      var i :| 0 <= i < |entries| && entries[i] == ccmccSheet[x];
    }
  }

  /** The case's severity stated on its other diagnoses: major when some listed diagnosis
      has a non-excluded MCC, minor when some listed diagnosis is not excluded but none has
      such an MCC, and none otherwise. */
  lemma CaseSeverityOfDiagnoses(otherDis: seq<string>, ccmccSheet: map<string, seq<string>>, excl: string)
    requires SheetTagged(otherDis, ccmccSheet)
    ensures WellTagged(CaseCcMcc(otherDis, ccmccSheet))
    ensures CaseSeverity(CaseCcMcc(otherDis, ccmccSheet), excl)
            == if exists x :: x in otherDis && x in ccmccSheet && ccmccSheet[x][0] != excl && ccmccSheet[x][1] == "MCC"
               then Major
               else if exists x :: x in otherDis && x in ccmccSheet && ccmccSheet[x][0] != excl then Minor
               else NoComplication
  {
    SurvivingMajorOfDiagnoses(otherDis, ccmccSheet, excl);
    SurvivingOfDiagnoses(otherDis, ccmccSheet, excl);
  }

  /** The two-DRG loop finds the case's severity. */
  lemma {:induction false} TwoCodeLabelSeverity(entries: seq<seq<string>>, excl: string, tag: string)
    requires WellTagged(entries)
    ensures Indexable(entries, excl)
    ensures TwoCodeLabel(entries, excl, tag) ==
            match CaseSeverity(entries, excl)
            case Major => "MCC"
            case Minor => "CC"
            case NoComplication => tag
    decreases |entries|
  {
    if entries != [] {
      var rest := entries[1..];
      SeverityStep(entries, excl);
      var e := entries[0];
      if e[0] == excl {
        TwoCodeLabelSeverity(rest, excl, tag);
      } else if e[1] != "MCC" {
        TwoCodeLabelSeverity(rest, excl, e[1]);
      }
    }
  }

  /** When no exclusion group is spelled like a severity, the three-DRG loop finds an MCC
      exactly when the case has a surviving one, and never leaves "CC" behind. */
  lemma {:induction false} ThreeCodeLabelNeverCc(entries: seq<seq<string>>, excl: string, tag: string)
    requires WellTagged(entries)
    requires forall e :: e in entries ==> e[0] != "CC" && e[0] != "MCC"
    ensures Indexable(entries, excl)
    ensures ThreeCodeLabel(entries, excl, tag) == "CC" ==> tag == "CC"
    ensures tag != "MCC" ==> (ThreeCodeLabel(entries, excl, tag) == "MCC" <==> CaseSeverity(entries, excl) == Major)
    decreases |entries|
  {
    if entries != [] {
      var rest := entries[1..];
      SeverityStep(entries, excl);
      var e := entries[0];
      if e[0] == excl {
        ThreeCodeLabelNeverCc(rest, excl, tag);
      } else if e[1] != "MCC" {
        ThreeCodeLabelNeverCc(rest, excl, e[0]);
      }
    }
  }

  /** A single registered DRG is always chosen by digit 9: the case is grouped only when
      that DRG's code ends in 9. */
  lemma SingleDrgOutcome(codes: seq<string>, entries: seq<seq<string>>, excl: string)
    requires |codes| == 1 && forall x :: x in codes ==> WellFormedCode(x)
    ensures |DigitMap(codes)| == 1
    ensures ChosenDigit(DigitMap(codes), entries, excl) == 9
    ensures 9 in DigitMap(codes) <==> LastDigit(codes[0]) == 9
  {
    assert codes[..0] == [];
    assert DigitMap(codes) == map[LastDigit(codes[0]) := codes[0]];
  }

  /** Two registered DRGs: an MCC the principal diagnosis does not exclude picks the 1-DRG
      when there is one and the 3-DRG otherwise; only CCs pick the 5-DRG beside a 1-DRG and
      the 3-DRG otherwise; no surviving complication (or none at all) picks the 5-DRG. */
  lemma TwoDrgOutcomes(d: map<int, string>, entries: seq<seq<string>>, excl: string)
    requires |d| == 2 && WellTagged(entries)
    ensures Indexable(entries, excl)
    ensures ChosenDigit(d, entries, excl) ==
            match CaseSeverity(entries, excl)
            case Major => (if 1 in d then 1 else 3)
            case Minor => (if 1 in d then 5 else 3)
            case NoComplication => 5
  {
    TwoCodeLabelSeverity(entries, excl, "exclude");
  }

  /** Three or more registered DRGs, as written: a surviving MCC picks the 1-DRG, and every
      other case, a case with only CCs included, picks the 5-DRG. */
  lemma ThreeDrgOutcomes(d: map<int, string>, entries: seq<seq<string>>, excl: string)
    requires |d| != 1 && |d| != 2 && WellTagged(entries)
    requires forall e :: e in entries ==> e[0] != "CC" && e[0] != "MCC"
    ensures Indexable(entries, excl)
    ensures ChosenDigit(d, entries, excl) == if CaseSeverity(entries, excl) == Major then 1 else 5
  {
    ThreeCodeLabelNeverCc(entries, excl, "exclude");
  }

  /** The input that shows it: an ADRG with DRGs ending in 1, 3 and 5, and a case whose one
      complication is a CC of exclusion group "G7" that the principal diagnosis does not
      exclude. The case has a minor complication, yet the 5-DRG is picked. */
  lemma ThreeDrgMinorComplicationMissed()
    ensures var d := map[1 := "XX11", 3 := "XX13", 5 := "XX15"];
            var entries := [["G7", "CC"]];
            && CaseSeverity(entries, "") == Minor
            && ChosenDigit(d, entries, "") == 5
            && ChosenDigitCorrected(d, entries, "") == 3
  {
    var d := map[1 := "XX11", 3 := "XX13", 5 := "XX15"];
    var entries := [["G7", "CC"]];
    assert d.Keys == {1, 3, 5};
    assert entries[0][0] != "";
    assert ThreeCodeLabel(entries, "", "exclude") == ThreeCodeLabel([], "", "G7");
    assert TwoCodeLabel(entries, "", "exclude") == TwoCodeLabel([], "", "CC");
  }

  /** The digit choice with the three-DRG loop recording the severity, as the two-DRG loop
      does. */
  function ChosenDigitCorrected(d: map<int, string>, entries: seq<seq<string>>, excl: string): (k: int)
    requires |d| != 1 ==> Indexable(entries, excl)
    ensures |d| <= 2 ==> k == ChosenDigit(d, entries, excl)
  {
    if |d| <= 2 then ChosenDigit(d, entries, excl)
    else
      var tag := TwoCodeLabel(entries, excl, "exclude");
      if tag == "MCC" then 1
      else if tag == "CC" then (if |d| == 3 then 3 else 1)
      else 5
  }

  /** With the correction, three registered DRGs grade by severity: MCC to 1, CC to 3, no
      surviving complication to 5. */
  lemma ThreeDrgOutcomesCorrected(d: map<int, string>, entries: seq<seq<string>>, excl: string)
    requires |d| == 3 && WellTagged(entries)
    ensures Indexable(entries, excl)
    ensures ChosenDigitCorrected(d, entries, excl) ==
            match CaseSeverity(entries, excl)
            case Major => 1
            case Minor => 3
            case NoComplication => 5
  {
    TwoCodeLabelSeverity(entries, excl, "exclude");
  }
}
