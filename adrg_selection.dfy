/** which_adrg: walking the pre-categories A, P, Y and Z and then the categories of
    the principal diagnosis, scanning each admitted category's candidate ADRGs, and
    finally applying the QY rewrite. */
module AdrgSelection {
  import opened DrgCases
  import opened RuleTables
  import opened AdrgRules
  import opened AdrgDispatch
  import opened MdcChecks
  import opened QyRules

  /** The categories tried before those of the principal diagnosis. */
  const PreMdcs: seq<string> := ["MDCA", "MDCP", "MDCY", "MDCZ"]

  /** An ADRG code the case can be scanned against, and whose second letter the QY rewrite
      may read. */
  predicate Candidate(c: DrgCase, t: Tables, a: string)
  {
    AdrgReady(c, t.adrgDisOpt, t.adrgTypeDict, a) && (c.IsValidSurgery(t.allOptList) ==> |a| >= 2)
  }

  /** Category `m` has a candidate list and every candidate can be evaluated. */
  predicate SubReady(c: DrgCase, t: Tables, m: string)
  {
    m in t.mdcSubAdrg && forall a :: a in t.mdcSubAdrg[m] ==> Candidate(c, t, a)
  }

  /** Everything the branch for category `m` looks up is present, for this case. */
  predicate MdcReady(c: DrgCase, t: Tables, m: string)
    reads c
  {
    if m == "MDCA" then MdcaReady(c, t.adrgDisOpt, t.adrgTypeDict)
    else if m == "MDCP" then IsMdcp(c) == "MDCP" ==> SubReady(c, t, "MDCP")
    else if m == "MDCY" then IsMdcy(c, t.mdcyDisSheet) == "MDCY" ==> SubReady(c, t, "MDCY")
    else if m == "MDCZ" then
      && (forall k :: k in RegionSheets ==> k in t.mdczDisSheet)
      && (CountTouched(t.mdczDisSheet, RegionSheets, c.allDis) > 1 ==> SubReady(c, t, "MDCZ"))
    else if m == "MDCN" || m == "MDCM" then true
    else SubReady(c, t, m)
  }

  /** A scan of an admitted category leaves the previous answer, or answers KBBZ, or answers
      a candidate whose rule accepts the case. */
  lemma ScanOutcome(c: DrgCase, t: Tables, adrgs: seq<string>, pred: string)
    requires forall a :: a in adrgs ==> Candidate(c, t, a)
    requires forall a :: a in adrgs ==> AdrgReady(c, t.adrgDisOpt, t.adrgTypeDict, a)
    ensures var r := FirstHit(c, t.adrgDisOpt, t.allOptList, t.adrgTypeDict, adrgs, pred);
            r == pred || r == KBBZ
            || (Candidate(c, t, r) && ProcessAdrg(c, t.adrgDisOpt, t.allOptList, t.adrgTypeDict, r) == r)
  {
    if adrgs != [] {
      FirstHitIsFirstAccepted(c, t.adrgDisOpt, t.allOptList, t.adrgTypeDict, adrgs, pred);
    }
  }

  /** One pass of the outer loop for category `m`: the new answer, and whether the loop stops
      (only a category A hit stops it). Categories N and M change nothing, because their
      checks are compared against names they never answer. */
  function Step(c: DrgCase, t: Tables, m: string, pred: string): (r: (string, bool))
    reads c
    requires MdcReady(c, t, m)
    ensures r.1 ==> m == "MDCA" && r.0 != KBBZ
    ensures r.0 == pred || r.0 == KBBZ
            || (Candidate(c, t, r.0) && ProcessAdrg(c, t.adrgDisOpt, t.allOptList, t.adrgTypeDict, r.0) == r.0)
  {
    if m == "MDCA" then
      MdcaProbeFirstAccepted(c, t.adrgDisOpt, t.allOptList, t.adrgTypeDict);
      MdcaAdrgsAreSurgical();
      var x := MdcaProbe(c, t.adrgDisOpt, t.allOptList, t.adrgTypeDict);
      (x, x != KBBZ)
    else if m == "MDCP" then
      if IsMdcp(c) == "MDCP" then
        ScanOutcome(c, t, t.mdcSubAdrg["MDCP"], pred);
        (FirstHit(c, t.adrgDisOpt, t.allOptList, t.adrgTypeDict, t.mdcSubAdrg["MDCP"], pred), false)
      else (pred, false)
    else if m == "MDCY" then
      if IsMdcy(c, t.mdcyDisSheet) == "MDCY" then
        ScanOutcome(c, t, t.mdcSubAdrg["MDCY"], pred);
        (FirstHit(c, t.adrgDisOpt, t.allOptList, t.adrgTypeDict, t.mdcSubAdrg["MDCY"], pred), false)
      else (pred, false)
    else if m == "MDCZ" then
      if CountTouched(t.mdczDisSheet, RegionSheets, c.allDis) > 1 then
        ScanOutcome(c, t, t.mdcSubAdrg["MDCZ"], pred);
        (FirstHit(c, t.adrgDisOpt, t.allOptList, t.adrgTypeDict, t.mdcSubAdrg["MDCZ"], pred), false)
      else (pred, false)
    else if m == "MDCN" || m == "MDCM" then (pred, false)
    else
      ScanOutcome(c, t, t.mdcSubAdrg[m], pred);
      (FirstHit(c, t.adrgDisOpt, t.allOptList, t.adrgTypeDict, t.mdcSubAdrg[m], pred), false)
  }

  /** The outer loop over the categories `ms`, starting from answer `pred`. */
  function Walk(c: DrgCase, t: Tables, ms: seq<string>, pred: string): (r: string)
    reads c
    requires forall m :: m in ms ==> MdcReady(c, t, m)
    ensures r == pred || r == KBBZ
            || (Candidate(c, t, r) && ProcessAdrg(c, t.adrgDisOpt, t.allOptList, t.adrgTypeDict, r) == r)
    decreases |ms|
  {
    if ms == [] then pred
    else
      var (p, stop) := Step(c, t, ms[0], pred);
      if stop then p else Walk(c, t, ms[1..], p)
  }

  /** The categories walked: the pre-categories, then those of the principal diagnosis. */
  function Targets(c: DrgCase, t: Tables): (ms: seq<string>)
    requires c.mainDis in t.mainDisSheet
    ensures |ms| == |PreMdcs| + |t.mainDisSheet[c.mainDis]|
    ensures ms[..|PreMdcs|] == PreMdcs && ms[|PreMdcs|..] == t.mainDisSheet[c.mainDis]
  {
    PreMdcs + t.mainDisSheet[c.mainDis]
  }

  /** What which_adrg needs of the tables for this case. */
  predicate WhichReady(c: DrgCase, t: Tables)
    reads c
  {
    !c.NoMainDiagnosis() ==>
      c.mainDis in t.mainDisSheet && forall m :: m in Targets(c, t) ==> MdcReady(c, t, m)
  }

  /** which_adrg: KBBZ without a principal diagnosis; otherwise the QY rewrite of the answer
      the category walk leaves, which is KBBZ or an ADRG whose rule accepts the case. */
  function WhichAdrgSpec(c: DrgCase, t: Tables): (r: string)
    reads c
    requires WhichReady(c, t)
    ensures c.NoMainDiagnosis() ==> r == KBBZ
    ensures r != KBBZ ==>
              exists a :: Candidate(c, t, a) && ProcessAdrg(c, t.adrgDisOpt, t.allOptList, t.adrgTypeDict, a) == a
                && r == QyJudge(c, a, t.allOptList)
  {
    if c.NoMainDiagnosis() then KBBZ
    else
      var a := Walk(c, t, Targets(c, t), KBBZ);
      QyJudge(c, a, t.allOptList)
  }

  /** which_adrg as the source writes it: one branch per kind of category, each scanning the
      category's candidates when its check admits the case. */
  method WhichAdrg(c: DrgCase, t: Tables) returns (predAdrg: string)
    requires WhichReady(c, t)
    ensures predAdrg == WhichAdrgSpec(c, t)
  {
    predAdrg := KBBZ;
    if c.NoMainDiagnosis() {
      return KBBZ;
    }
    var targetMdcList := t.mainDisSheet[c.mainDis];
    targetMdcList := PreMdcs + targetMdcList;
    var i := 0;
    while i < |targetMdcList|
      invariant 0 <= i <= |targetMdcList|
      invariant targetMdcList == Targets(c, t)
      invariant Walk(c, t, targetMdcList, KBBZ) == WalkFrom(c, t, targetMdcList, i, predAdrg)
    {
      var mdc := targetMdcList[i];
      assert mdc in targetMdcList;
      var stop;
      var pred := predAdrg;
      predAdrg, stop := VisitCategory(c, t, mdc, pred);
      WalkFromStep(c, t, targetMdcList, i, pred, predAdrg, stop);
      if stop {
        break;
      }
      i := i + 1;
    }
    assert i == |targetMdcList| ==> targetMdcList[i..] == [];
    predAdrg := QyJudge(c, predAdrg, t.allOptList);
  }

  /** The walk over the categories of `ms` from position `i` on. */
  function WalkFrom(c: DrgCase, t: Tables, ms: seq<string>, i: nat, pred: string): string
    reads c
    requires i <= |ms| && forall m :: m in ms ==> MdcReady(c, t, m)
  {
    assert forall m :: m in ms[i..] ==> m in ms;
    Walk(c, t, ms[i..], pred)
  }

  /** One turn of the walk from position `i`: that category's step, then the rest of the walk
      unless the step stopped it. */
  lemma WalkFromStep(c: DrgCase, t: Tables, ms: seq<string>, i: nat, pred: string, p: string, stop: bool)
    requires i < |ms| && forall m :: m in ms ==> MdcReady(c, t, m)
    requires MdcReady(c, t, ms[i]) && (p, stop) == Step(c, t, ms[i], pred)
    ensures stop ==> WalkFrom(c, t, ms, i, pred) == p
    ensures !stop ==> WalkFrom(c, t, ms, i, pred) == WalkFrom(c, t, ms, i + 1, p)
  {
    assert ms[i..][0] == ms[i] && ms[i..][1..] == ms[i + 1..];
  }

  /** The body of the outer loop for one category. */
  method VisitCategory(c: DrgCase, t: Tables, mdc: string, pred: string) returns (predAdrg: string, stop: bool)
    requires MdcReady(c, t, mdc)
    requires mdc == "MDCN" || mdc == "MDCM" ==> c.mainDis in t.mainDisSheet && |t.mainDisSheet[c.mainDis]| > 0
    ensures (predAdrg, stop) == Step(c, t, mdc, pred)
  {
    predAdrg, stop := pred, false;
    var predMdc := KBBZ;
    if mdc == "MDCA" {
      predAdrg := IsMdca(c, t.adrgDisOpt, t.allOptList, t.adrgTypeDict);
      if predAdrg != KBBZ {
        stop := true;
      }
    } else if mdc == "MDCP" {
      predMdc := IsMdcp(c);
      if predMdc == "MDCP" {
        predAdrg := ScanAdrgs(c, t.adrgDisOpt, t.allOptList, t.adrgTypeDict, t.mdcSubAdrg[predMdc], predAdrg);
      }
    } else if mdc == "MDCY" {
      predMdc := IsMdcy(c, t.mdcyDisSheet);
      if predMdc == "MDCY" {
        predAdrg := ScanAdrgs(c, t.adrgDisOpt, t.allOptList, t.adrgTypeDict, t.mdcSubAdrg[predMdc], predAdrg);
      }
    } else if mdc == "MDCZ" {
      predMdc := IsMdcz(c, t.mdczDisSheet);
      if predMdc == "MDCZ" {
        predAdrg := ScanAdrgs(c, t.adrgDisOpt, t.allOptList, t.adrgTypeDict, t.mdcSubAdrg[predMdc], predAdrg);
      }
    } else if mdc == "MDCN" {
      predMdc := IsMdcn(c, t.mainDisSheet);
      if predMdc == "MDCN" {
        // is_mdcn answers "MDCY" or KBBZ
        assert false;
      }
    } else if mdc == "MDCM" {
      predMdc := IsMdcm(c, t.mainDisSheet);
      if predMdc == "MDCM" {
        // is_mdcm answers "MDCY" or KBBZ
        assert false;
      }
    } else {
      predAdrg := ScanAdrgs(c, t.adrgDisOpt, t.allOptList, t.adrgTypeDict, t.mdcSubAdrg[mdc], predAdrg);
    }
  }

  // ---------------------------------------------------------------------------
  // Properties of the category walk

  /** A category A hit decides the outcome: it stops the walk, and the QY rewrite keeps it
      because the category A groups are surgical. */
  lemma WhichAdrgMdcaWins(c: DrgCase, t: Tables)
    requires WhichReady(c, t) && !c.NoMainDiagnosis()
    requires MdcaReady(c, t.adrgDisOpt, t.adrgTypeDict)
    requires MdcaProbe(c, t.adrgDisOpt, t.allOptList, t.adrgTypeDict) != KBBZ
    ensures WhichAdrgSpec(c, t) == MdcaProbe(c, t.adrgDisOpt, t.allOptList, t.adrgTypeDict)
  {
    var ms := Targets(c, t);
    var x := MdcaProbe(c, t.adrgDisOpt, t.allOptList, t.adrgTypeDict);
    assert ms[0] == "MDCA";
    assert Step(c, t, "MDCA", KBBZ) == (x, true);
    assert Walk(c, t, ms, KBBZ) == x;
    MdcaAdrgsAreSurgical();
    assert x in MdcaAdrgs;
    var second := x[1];
    assert second in {'A', 'B', 'C', 'D', 'E', 'F', 'G', 'H'};
    assert second in SurgeryLetters;
    LetterKindsDisjoint(second);
  }

  /** The categories of `ms` other than N and M, in order. */
  function DropSexBound(ms: seq<string>): (r: seq<string>)
    ensures forall m :: m in r <==> m in ms && m != "MDCN" && m != "MDCM"
  {
    if ms == [] then []
    else if ms[0] == "MDCN" || ms[0] == "MDCM" then DropSexBound(ms[1..])
    else [ms[0]] + DropSexBound(ms[1..])
  }

  /** Entries N and M in a principal diagnosis's category list never affect the answer. */
  lemma {:induction false} WalkSkipsSexBound(c: DrgCase, t: Tables, ms: seq<string>, pred: string)
    requires forall m :: m in ms ==> MdcReady(c, t, m)
    ensures Walk(c, t, ms, pred) == Walk(c, t, DropSexBound(ms), pred)
    decreases |ms|
  {
    if ms != [] {
      WalkSkipsSexBound(c, t, ms[1..], Step(c, t, ms[0], pred).0);
      WalkSkipsSexBound(c, t, ms[1..], pred);
      if ms[0] != "MDCN" && ms[0] != "MDCM" {
        assert ([ms[0]] + DropSexBound(ms[1..]))[1..] == DropSexBound(ms[1..]);
      }
    }
  }

  /** Without category A, the walk over `ms + ms'` is the walk over `ms'` started from the
      answer the walk over `ms` leaves. */
  lemma {:induction false} WalkAppend(c: DrgCase, t: Tables, ms: seq<string>, ms': seq<string>, pred: string)
    requires forall m :: m in ms + ms' ==> MdcReady(c, t, m)
    requires "MDCA" !in ms
    ensures forall m :: m in ms ==> MdcReady(c, t, m)
    ensures forall m :: m in ms' ==> MdcReady(c, t, m)
    ensures Walk(c, t, ms + ms', pred) == Walk(c, t, ms', Walk(c, t, ms, pred))
    decreases |ms|
  {
    if ms != [] {
      assert (ms + ms')[0] == ms[0] && (ms + ms')[1..] == ms[1..] + ms';
      WalkAppend(c, t, ms[1..], ms', Step(c, t, ms[0], pred).0);
    } else {
      assert ms + ms' == ms';
    }
  }

  /** A scan in which no candidate accepts the case answers KBBZ, whatever came before. */
  lemma ScanMissAnswersKbbz(c: DrgCase, t: Tables, adrgs: seq<string>, pred: string)
    requires adrgs != []
    requires forall a :: a in adrgs ==> AdrgReady(c, t.adrgDisOpt, t.adrgTypeDict, a)
    requires forall a :: a in adrgs ==> ProcessAdrg(c, t.adrgDisOpt, t.allOptList, t.adrgTypeDict, a) == KBBZ
    ensures FirstHit(c, t.adrgDisOpt, t.allOptList, t.adrgTypeDict, adrgs, pred) == KBBZ
  {
    FirstHitIsFirstAccepted(c, t.adrgDisOpt, t.allOptList, t.adrgTypeDict, adrgs, pred);
  }

  /** An ordinary category: none of the special branches handles it. */
  predicate Ordinary(m: string)
  {
    m != "MDCA" && m != "MDCP" && m != "MDCY" && m != "MDCZ" && m != "MDCN" && m != "MDCM"
  }

  /** As written, the last ordinary category decides: when its candidates all reject the case,
      the walk answers KBBZ even if an earlier category (a newborn's category P, say) had
      found an ADRG that accepts the case. */
  lemma WalkLaterCategoryOverrides(c: DrgCase, t: Tables, ms: seq<string>, m: string, pred: string)
    requires forall x :: x in ms + [m] ==> MdcReady(c, t, x)
    requires "MDCA" !in ms && Ordinary(m)
    requires m in t.mdcSubAdrg && t.mdcSubAdrg[m] != []
    requires forall a :: a in t.mdcSubAdrg[m] ==> AdrgReady(c, t.adrgDisOpt, t.adrgTypeDict, a)
    requires forall a :: a in t.mdcSubAdrg[m] ==> ProcessAdrg(c, t.adrgDisOpt, t.allOptList, t.adrgTypeDict, a) == KBBZ
    ensures Walk(c, t, ms + [m], pred) == KBBZ
  {
    WalkAppend(c, t, ms, [m], pred);
    assert MdcReady(c, t, m);
    ScanMissAnswersKbbz(c, t, t.mdcSubAdrg[m], Walk(c, t, ms, pred));
  }

  /** The input that shows it: a newborn outside category A, one of whose category P
      candidates accepts the case, with a principal diagnosis of a single ordinary category
      whose candidates all reject it, ends in KBBZ. */
  lemma NewbornMatchIsLost(c: DrgCase, t: Tables, m: string)
    requires WhichReady(c, t) && !c.NoMainDiagnosis()
    requires t.mainDisSheet[c.mainDis] == [m] && Ordinary(m)
    requires MdcaReady(c, t.adrgDisOpt, t.adrgTypeDict)
    requires MdcaProbe(c, t.adrgDisOpt, t.allOptList, t.adrgTypeDict) == KBBZ
    requires IsMdcp(c) == "MDCP" && SubReady(c, t, "MDCP")
    requires m in t.mdcSubAdrg && t.mdcSubAdrg[m] != []
    requires forall a :: a in t.mdcSubAdrg[m] ==> AdrgReady(c, t.adrgDisOpt, t.adrgTypeDict, a)
    requires forall a :: a in t.mdcSubAdrg[m] ==> ProcessAdrg(c, t.adrgDisOpt, t.allOptList, t.adrgTypeDict, a) == KBBZ
    ensures CategoryHit(c, t, "MDCP") != KBBZ ==> WhichAdrgSpec(c, t) == KBBZ
  {
    var ms := Targets(c, t);
    assert MdcReady(c, t, "MDCA") by { assert ms[0] == "MDCA"; }
    assert MdcReady(c, t, "MDCP") by { assert ms[1] == "MDCP"; }
    assert ms == ["MDCA"] + (["MDCP", "MDCY", "MDCZ"] + [m]);
    var p := Step(c, t, "MDCA", KBBZ);
    assert p == (KBBZ, false);
    WalkLaterCategoryOverrides(c, t, ["MDCP", "MDCY", "MDCZ"], m, KBBZ);
  }

  /** Tables for the input of NewbornMatchIsLost: principal diagnosis "D1" belongs to the
      ordinary category B only; the category P candidate "PR1" accepts "D1" as principal
      diagnosis, the category B candidate "BR1" accepts none; every region sheet and the
      catch-all list are empty. */
  function NewbornLostTables(): Tables
  {
    Tables(
      map["PR1" := {"D1"}, "BR1" := {}],
      {},
      map["D1" := ["MDCB"]],
      map["PR1" := "is_contain_main_dis", "BR1" := "is_contain_main_dis"],
      map k | k in RegionSheets :: {},
      {},
      map["MDCP" := ["PR1"], "MDCB" := ["BR1"]],
      map[], map[], map[])
  }

  /** In NewbornLostTables, "PR1" accepts a case whose principal diagnosis is "D1" and
      "BR1" rejects it. */
  lemma NewbornLostCandidates(c: DrgCase)
    requires c.mainDis == "D1"
    ensures var t := NewbornLostTables();
            AdrgReady(c, t.adrgDisOpt, t.adrgTypeDict, "PR1") && AdrgReady(c, t.adrgDisOpt, t.adrgTypeDict, "BR1")
    ensures SubReady(c, NewbornLostTables(), "MDCP") && SubReady(c, NewbornLostTables(), "MDCB")
    ensures var t := NewbornLostTables();
            && ProcessAdrg(c, t.adrgDisOpt, t.allOptList, t.adrgTypeDict, "PR1") == "PR1"
            && ProcessAdrg(c, t.adrgDisOpt, t.allOptList, t.adrgTypeDict, "BR1") == KBBZ
  {
    var t := NewbornLostTables();
    assert ParseRule("is_contain_main_dis") == ContainMainDis;
  }

  /** NewbornLostTables hold everything which_adrg looks up for a newborn without a
      principal procedure whose principal diagnosis is "D1". */
  lemma NewbornLostReady(c: DrgCase)
    requires c.mainDis == "D1" && c.mainOpt == "" && c.age <= NewbornAge
    ensures WhichReady(c, NewbornLostTables())
  {
    var t := NewbornLostTables();
    NewbornLostCandidates(c);
    CountTouchedPositive(t.mdczDisSheet, RegionSheets, c.allDis);
    var ms := Targets(c, t);
    assert ms == ["MDCA", "MDCP", "MDCY", "MDCZ", "MDCB"];
    forall m | m in ms
      ensures MdcReady(c, t, m)
    {
    }
  }

  /** The premise of NewbornMatchIsLost can hold: a newborn without a principal procedure
      whose principal diagnosis is "D1" is accepted by category P's "PR1", yet which_adrg
      answers KBBZ. */
  lemma NewbornMatchIsLostExample(c: DrgCase)
    requires c.mainDis == "D1" && c.mainOpt == "" && c.age <= NewbornAge
    ensures WhichReady(c, NewbornLostTables())
    ensures CategoryHit(c, NewbornLostTables(), "MDCP") == "PR1"
    ensures WhichAdrgSpec(c, NewbornLostTables()) == KBBZ
  {
    var t := NewbornLostTables();
    NewbornLostCandidates(c);
    NewbornLostReady(c);
    assert MdcReady(c, t, "MDCP");
    assert FirstHit(c, t.adrgDisOpt, t.allOptList, t.adrgTypeDict, ["PR1"], KBBZ) == "PR1";
    NewbornMatchIsLost(c, t, "MDCB");
  }

  /** What category `m` alone answers, starting from KBBZ. */
  function CategoryHit(c: DrgCase, t: Tables, m: string): (r: string)
    reads c
    requires MdcReady(c, t, m)
    ensures r == KBBZ || (Candidate(c, t, r) && ProcessAdrg(c, t.adrgDisOpt, t.allOptList, t.adrgTypeDict, r) == r)
  {
    Step(c, t, m, KBBZ).0
  }

  /** The walk as its priority order intends: the first category that finds an ADRG decides. */
  function WalkCorrected(c: DrgCase, t: Tables, ms: seq<string>): (r: string)
    reads c
    requires forall m :: m in ms ==> MdcReady(c, t, m)
    ensures r == KBBZ || (Candidate(c, t, r) && ProcessAdrg(c, t.adrgDisOpt, t.allOptList, t.adrgTypeDict, r) == r)
    decreases |ms|
  {
    if ms == [] then KBBZ
    else
      var h := CategoryHit(c, t, ms[0]);
      if h != KBBZ then h else WalkCorrected(c, t, ms[1..])
  }

  /** The corrected walk answers the hit of the first category that has one, and KBBZ only
      when no category has one; a later category never replaces an earlier hit. */
  lemma {:induction false} WalkCorrectedFirstHit(c: DrgCase, t: Tables, ms: seq<string>, k: nat)
    requires forall m :: m in ms ==> MdcReady(c, t, m)
    requires k < |ms| && CategoryHit(c, t, ms[k]) != KBBZ
    requires forall j :: 0 <= j < k ==> CategoryHit(c, t, ms[j]) == KBBZ
    ensures WalkCorrected(c, t, ms) == CategoryHit(c, t, ms[k])
    decreases k
  {
    if k == 0 {
      assert WalkCorrected(c, t, ms) == CategoryHit(c, t, ms[0]);
    } else {
      assert CategoryHit(c, t, ms[0]) == KBBZ;
      var rest := ms[1..];
      forall m | m in rest
        ensures MdcReady(c, t, m)
      {
        var i :| 0 <= i < |rest| && rest[i] == m;
        assert ms[i + 1] == m;
      }
      assert WalkCorrected(c, t, ms) == WalkCorrected(c, t, rest);
      forall j | 0 <= j < k - 1
        ensures CategoryHit(c, t, ms[1..][j]) == KBBZ
      {
        assert ms[1..][j] == ms[j + 1];
      }
      WalkCorrectedFirstHit(c, t, ms[1..], k - 1);
    }
  }

  /** which_adrg with the corrected walk: the newborn of NewbornMatchIsLost keeps its
      category P group. */
  function WhichAdrgCorrected(c: DrgCase, t: Tables): (r: string)
    reads c
    requires WhichReady(c, t)
    ensures c.NoMainDiagnosis() ==> r == KBBZ
    ensures r != KBBZ ==>
              exists a :: Candidate(c, t, a) && ProcessAdrg(c, t.adrgDisOpt, t.allOptList, t.adrgTypeDict, a) == a
                && r == QyJudge(c, a, t.allOptList)
  {
    if c.NoMainDiagnosis() then KBBZ
    else QyJudge(c, WalkCorrected(c, t, Targets(c, t)), t.allOptList)
  }

  /** For the newborn of NewbornMatchIsLost the corrected grouper answers the category P hit
      (after the QY rewrite). */
  lemma NewbornMatchKeptWhenCorrected(c: DrgCase, t: Tables)
    requires WhichReady(c, t) && !c.NoMainDiagnosis()
    requires MdcaReady(c, t.adrgDisOpt, t.adrgTypeDict)
    requires MdcaProbe(c, t.adrgDisOpt, t.allOptList, t.adrgTypeDict) == KBBZ
    requires IsMdcp(c) == "MDCP" && SubReady(c, t, "MDCP")
    ensures CategoryHit(c, t, "MDCP") != KBBZ ==>
              WhichAdrgCorrected(c, t) == QyJudge(c, CategoryHit(c, t, "MDCP"), t.allOptList)
  {
    var ms := Targets(c, t);
    assert ms[0] == "MDCA" && ms[1] == "MDCP";
    if CategoryHit(c, t, "MDCP") != KBBZ {
      assert CategoryHit(c, t, ms[0]) == KBBZ;
      WalkCorrectedFirstHit(c, t, ms, 1);
    }
  }
}
