/** The category (MDC) checks: the pre-categories A (transplants and the like),
    Z (multiple trauma), Y (infectious), P (newborns), the sex-bound categories
    N and M, the ordinary categories, and process_mdc which chains them. */
module MdcChecks {
  import opened DrgCases
  import opened RuleTables
  import opened AdrgRules
  import opened AdrgDispatch

  /** The ADRGs of the pre-category A, in the order they are tried. */
  const MdcaAdrgs: seq<string> :=
    ["AA1", "AA2", "AB1", "AC1", "AD1", "AE1", "AF1", "AG1", "AG2", "AG3", "AH1", "AH2"]

  /** The ADRGs of category A are three-letter surgical groups of that category. */
  lemma MdcaAdrgsAreSurgical()
    ensures forall a :: a in MdcaAdrgs ==> |a| == 3 && a[0] == 'A' && a[1] in {'A', 'B', 'C', 'D', 'E', 'F', 'G', 'H'}
  {
    forall a | a in MdcaAdrgs
      ensures |a| == 3 && a[0] == 'A' && a[1] in {'A', 'B', 'C', 'D', 'E', 'F', 'G', 'H'}
    {
    }
  }

  /** No ADRG of category A is spelled like the category itself. */
  lemma MdcaAdrgsAreNotCategoryName()
    ensures "MDCA" !in MdcaAdrgs
  {
    MdcaAdrgsAreSurgical();
  }

  /** The ordinary categories process_mdc tries, in order, after the special ones. */
  const CommonMdcs: seq<string> :=
    ["MDCB", "MDCC", "MDCD", "MDCE", "MDCF", "MDCG", "MDCH", "MDCI", "MDCJ", "MDCK", "MDCL",
     "MDCO", "MDCQ", "MDCR", "MDCS", "MDCT", "MDCU", "MDCV", "MDCW", "MDCX", "MDCY"]

  /** None of the ordinary categories is a special one. */
  lemma CommonMdcsAreOrdinary()
    ensures "MDCA" !in CommonMdcs && "MDCP" !in CommonMdcs && "MDCN" !in CommonMdcs && "MDCM" !in CommonMdcs
  {
    var first: seq<string> := ["MDCB", "MDCC", "MDCD", "MDCE", "MDCF", "MDCG", "MDCH"];
    var second: seq<string> := ["MDCI", "MDCJ", "MDCK", "MDCL", "MDCO", "MDCQ", "MDCR"];
    var third: seq<string> := ["MDCS", "MDCT", "MDCU", "MDCV", "MDCW", "MDCX", "MDCY"];
    assert CommonMdcs == first + second + third;
    forall m | m in first
      ensures m[3] !in {'A', 'P', 'N', 'M'}
    {
    }
    forall m | m in second
      ensures m[3] !in {'A', 'P', 'N', 'M'}
    {
    }
    forall m | m in third
      ensures m[3] !in {'A', 'P', 'N', 'M'}
    {
    }
  }

  /** The newborn limit: 29 days as a fraction of a year, rounded. */
  const NewbornAge: real := 0.0795

  /** Every ADRG of category A can be evaluated for this case. */
  predicate MdcaReady(c: DrgCase, adrgDisOpt: map<string, set<string>>, adrgTypeDict: map<string, string>)
  {
    !c.NoSurgery() ==> forall a :: a in MdcaAdrgs ==> AdrgReady(c, adrgDisOpt, adrgTypeDict, a)
  }

  /** What is_mdca answers: KBBZ without a principal procedure, otherwise the first ADRG
      of category A whose rule accepts the case, or KBBZ. */
  function MdcaProbe(c: DrgCase, adrgDisOpt: map<string, set<string>>, allOptList: set<string>,
                     adrgTypeDict: map<string, string>): (r: string)
    reads c
    requires MdcaReady(c, adrgDisOpt, adrgTypeDict)
    ensures r == KBBZ || r in MdcaAdrgs
    ensures c.NoSurgery() ==> r == KBBZ
  {
    if c.NoSurgery() then KBBZ
    else FirstHit(c, adrgDisOpt, allOptList, adrgTypeDict, MdcaAdrgs, KBBZ)
  }

  /** Category A answers an ADRG exactly when the case has a principal procedure and some
      ADRG of the category accepts it; the answer is then the first such ADRG. */
  lemma MdcaProbeFirstAccepted(c: DrgCase, adrgDisOpt: map<string, set<string>>, allOptList: set<string>,
                               adrgTypeDict: map<string, string>)
    requires MdcaReady(c, adrgDisOpt, adrgTypeDict)
    ensures var r := MdcaProbe(c, adrgDisOpt, allOptList, adrgTypeDict);
            && (r != KBBZ <==>
                  !c.NoSurgery() && exists k :: 0 <= k < |MdcaAdrgs| && ProcessAdrg(c, adrgDisOpt, allOptList, adrgTypeDict, MdcaAdrgs[k]) != KBBZ)
            && (r != KBBZ ==>
                  exists k :: 0 <= k < |MdcaAdrgs| && MdcaAdrgs[k] == r
                    && ProcessAdrg(c, adrgDisOpt, allOptList, adrgTypeDict, r) == r
                    && forall j :: 0 <= j < k ==> ProcessAdrg(c, adrgDisOpt, allOptList, adrgTypeDict, MdcaAdrgs[j]) == KBBZ)
  {
    if !c.NoSurgery() {
      FirstHitIsFirstAccepted(c, adrgDisOpt, allOptList, adrgTypeDict, MdcaAdrgs, KBBZ);
    }
  }

  /** is_mdca */
  method IsMdca(c: DrgCase, adrgDisOpt: map<string, set<string>>, allOptList: set<string>,
                adrgTypeDict: map<string, string>) returns (pred: string)
    requires MdcaReady(c, adrgDisOpt, adrgTypeDict)
    ensures pred == MdcaProbe(c, adrgDisOpt, allOptList, adrgTypeDict)
  {
    if c.NoSurgery() {
      return KBBZ;
    }
    pred := ScanAdrgs(c, adrgDisOpt, allOptList, adrgTypeDict, MdcaAdrgs, KBBZ);
  }

  /** is_mdcz: the case touches at least two body regions of the trauma sheets. */
  method IsMdcz(c: DrgCase, mdczDisSheet: map<string, set<string>>) returns (r: string)
    requires forall k :: k in RegionSheets ==> k in mdczDisSheet
    ensures r == "MDCZ" || r == KBBZ
    ensures r == "MDCZ" <==> CountTouched(mdczDisSheet, RegionSheets, c.allDis) > 1
    ensures r == "MDCZ" <==>
              exists i, j :: 0 <= i < j < |RegionSheets|
                && Touches(mdczDisSheet, RegionSheets[i], c.allDis) && Touches(mdczDisSheet, RegionSheets[j], c.allDis)
  {
    CountTouchedAboveOne(mdczDisSheet, RegionSheets, c.allDis);
    var pred := IsMdczDis(c, mdczDisSheet, "ZZ1");
    if pred == "ZZ1" {
      r := "MDCZ";
    } else {
      r := KBBZ;
    }
  }

  /** is_mdcp: the age in years is at most the newborn limit. */
  function IsMdcp(c: DrgCase): (r: string)
    ensures r == "MDCP" || r == KBBZ
    ensures r == "MDCP" <==> c.age <= NewbornAge
  {
    if c.age <= NewbornAge then "MDCP" else KBBZ
  }

  /** An age recorded as whole days of life over 365 is within the newborn limit exactly
      for the first 29 days. */
  lemma NewbornDays(c: DrgCase, days: nat)
    requires c.age == days as real / 365.0
    ensures IsMdcp(c) == "MDCP" <==> days <= 29
  {
    if days >= 30 {
      assert days as real / 365.0 >= 30.0 / 365.0;
    }
  }

  /** is_mdcy: some diagnosis of the case is on the category Y sheet. */
  function IsMdcy(c: DrgCase, mdcyDisSheet: set<string>): (r: string)
    reads c
    ensures r == "MDCY" || r == KBBZ
    ensures r == "MDCY" <==> exists d :: d in mdcyDisSheet && d in c.allDis
  {
    if mdcyDisSheet !! c.allDis then KBBZ else "MDCY"
  }

  /** The principal diagnosis's categories are looked up only when the sex test passes. */
  predicate SexCheckReady(c: DrgCase, mainDisSheet: map<string, seq<string>>, sex: int)
  {
    c.sex == sex ==> c.mainDis in mainDisSheet && |mainDisSheet[c.mainDis]| > 0
  }

  /** is_mdcn: a female case whose principal diagnosis belongs first to category N. The
      answer is spelled "MDCY", so it never names category N itself. */
  function IsMdcn(c: DrgCase, mainDisSheet: map<string, seq<string>>): (r: string)
    requires SexCheckReady(c, mainDisSheet, 0)
    ensures r == "MDCY" || r == KBBZ
    ensures r == "MDCY" <==> c.sex == 0 && mainDisSheet[c.mainDis][0] == "MDCN"
  {
    if c.sex == 0 && mainDisSheet[c.mainDis][0] == "MDCN" then "MDCY" else KBBZ
  }

  /** is_mdcm: a male case whose principal diagnosis belongs first to category M. The
      answer is spelled "MDCY", so it never names category M itself. */
  function IsMdcm(c: DrgCase, mainDisSheet: map<string, seq<string>>): (r: string)
    requires SexCheckReady(c, mainDisSheet, 1)
    ensures r == "MDCY" || r == KBBZ
    ensures r == "MDCY" <==> c.sex == 1 && mainDisSheet[c.mainDis][0] == "MDCM"
  {
    if c.sex == 1 && mainDisSheet[c.mainDis][0] == "MDCM" then "MDCY" else KBBZ
  }

  /** is_common_mdc: the first category of the principal diagnosis is `mdcName`. */
  function IsCommonMdc(c: DrgCase, mainDisSheet: map<string, seq<string>>, mdcName: string): (r: string)
    requires c.mainDis in mainDisSheet && |mainDisSheet[c.mainDis]| > 0
    ensures r == mdcName || r == KBBZ
    ensures mdcName != KBBZ ==> (r == mdcName <==> mainDisSheet[c.mainDis][0] == mdcName)
  {
    if mainDisSheet[c.mainDis][0] == mdcName then mdcName else KBBZ
  }

  /** What process_mdc needs: category A and the trauma regions can be evaluated, and the
      principal diagnosis has a category whenever the chain gets past Z and Y. */
  predicate ProcessMdcReady(c: DrgCase, adrgDisOpt: map<string, set<string>>, mainDisSheet: map<string, seq<string>>,
                            mdcyDisSheet: set<string>, mdczDisSheet: map<string, set<string>>,
                            adrgTypeDict: map<string, string>)
    reads c
  {
    && MdcaReady(c, adrgDisOpt, adrgTypeDict)
    && (forall k :: k in RegionSheets ==> k in mdczDisSheet)
    && (CountTouched(mdczDisSheet, RegionSheets, c.allDis) <= 1 && mdcyDisSheet !! c.allDis ==>
          c.mainDis in mainDisSheet && |mainDisSheet[c.mainDis]| > 0)
  }

  /** process_mdc as written: category A and P are tested against names their checks
      never answer, and the sex-bound checks against names they never answer, so the
      chain reduces to Z, then Y, then the principal diagnosis's ordinary category. */
  method ProcessMdc(c: DrgCase, adrgDisOpt: map<string, set<string>>, allOptList: set<string>,
                    mainDisSheet: map<string, seq<string>>, mdcyDisSheet: set<string>,
                    mdczDisSheet: map<string, set<string>>, adrgTypeDict: map<string, string>) returns (predMdc: string)
    requires ProcessMdcReady(c, adrgDisOpt, mainDisSheet, mdcyDisSheet, mdczDisSheet, adrgTypeDict)
    ensures CountTouched(mdczDisSheet, RegionSheets, c.allDis) > 1 ==> predMdc == "MDCZ"
    ensures CountTouched(mdczDisSheet, RegionSheets, c.allDis) <= 1 && !(mdcyDisSheet !! c.allDis) ==> predMdc == "MDCY"
    ensures CountTouched(mdczDisSheet, RegionSheets, c.allDis) <= 1 && mdcyDisSheet !! c.allDis ==>
              predMdc == if mainDisSheet[c.mainDis][0] in CommonMdcs then mainDisSheet[c.mainDis][0] else KBBZ
    ensures predMdc != "MDCA" && predMdc != "MDCP" && predMdc != "MDCN" && predMdc != "MDCM"
  {
    MdcaAdrgsAreNotCategoryName();
    predMdc := IsMdca(c, adrgDisOpt, allOptList, adrgTypeDict);
    if predMdc == "MDCA" {
      // is_mdca answers one of its ADRG codes, never the category name
      assert false;
    }
    predMdc := IsMdcz(c, mdczDisSheet);
    if predMdc == "MDCZ" {
      return;
    }
    predMdc := IsMdcy(c, mdcyDisSheet);
    if predMdc == "MDCY" {
      return;
    }
    predMdc := IsMdcp(c);
    if predMdc == "MDCY" {
      // is_mdcp answers "MDCP" or KBBZ
      assert false;
    }
    predMdc := IsMdcn(c, mainDisSheet);
    if predMdc == "MDCN" {
      assert false;
    }
    predMdc := IsMdcm(c, mainDisSheet);
    if predMdc == "MDCM" {
      assert false;
    }
    predMdc := ScanCommonMdcs(c, mainDisSheet);
    CommonMdcsAreOrdinary();
  }

  /** The loop over the ordinary categories at the end of process_mdc: the first one the
      principal diagnosis belongs to first, or KBBZ after the last has answered KBBZ. */
  method ScanCommonMdcs(c: DrgCase, mainDisSheet: map<string, seq<string>>) returns (predMdc: string)
    requires c.mainDis in mainDisSheet && |mainDisSheet[c.mainDis]| > 0
    ensures predMdc == if mainDisSheet[c.mainDis][0] in CommonMdcs then mainDisSheet[c.mainDis][0] else KBBZ
  {
    predMdc := KBBZ;
    var first := mainDisSheet[c.mainDis][0];
    var i := 0;
    while i < |CommonMdcs|
      invariant 0 <= i <= |CommonMdcs|
      invariant forall j :: 0 <= j < i ==> CommonMdcs[j] != first
      invariant predMdc == KBBZ
    {
      predMdc := IsCommonMdc(c, mainDisSheet, CommonMdcs[i]);
      if predMdc == CommonMdcs[i] {
        break;
      }
      i := i + 1;
    }
  }

  /** process_mdc with each check's answer compared against the name that check gives,
      so that categories A, P, N and M can be reached in their intended priority. The
      sex-bound checks answer "MDCY", and the chain passes that answer on, as the category
      walk of which_adrg would. */
  function ProcessMdcCorrected(c: DrgCase, adrgDisOpt: map<string, set<string>>, allOptList: set<string>,
                               mainDisSheet: map<string, seq<string>>, mdcyDisSheet: set<string>,
                               mdczDisSheet: map<string, set<string>>, adrgTypeDict: map<string, string>): (r: string)
    reads c
    requires ProcessMdcReady(c, adrgDisOpt, mainDisSheet, mdcyDisSheet, mdczDisSheet, adrgTypeDict)
    ensures r == KBBZ || r == "MDCA" || r == "MDCZ" || r == "MDCY" || r == "MDCP" || r in CommonMdcs
  {
    if MdcaProbe(c, adrgDisOpt, allOptList, adrgTypeDict) != KBBZ then "MDCA"
    else if CountTouched(mdczDisSheet, RegionSheets, c.allDis) > 1 then "MDCZ"
    else if IsMdcy(c, mdcyDisSheet) == "MDCY" then "MDCY"
    else if IsMdcp(c) == "MDCP" then "MDCP"
    else if IsMdcn(c, mainDisSheet) == "MDCY" then "MDCY"
    else if IsMdcm(c, mainDisSheet) == "MDCY" then "MDCY"
    else if mainDisSheet[c.mainDis][0] in CommonMdcs then mainDisSheet[c.mainDis][0]
    else KBBZ
  }

  /** The corrected chain honours the stated priority: a case some ADRG of category A
      accepts is category A; a newborn outside categories A, Z and Y is category P; a female
      case of category N or a male case of category M outside A, Z, Y and P is redirected to
      category Y. The chain as written answers none of these. */
  lemma ProcessMdcCorrectedPriority(c: DrgCase, adrgDisOpt: map<string, set<string>>, allOptList: set<string>,
                                    mainDisSheet: map<string, seq<string>>, mdcyDisSheet: set<string>,
                                    mdczDisSheet: map<string, set<string>>, adrgTypeDict: map<string, string>, k: nat)
    requires ProcessMdcReady(c, adrgDisOpt, mainDisSheet, mdcyDisSheet, mdczDisSheet, adrgTypeDict)
    ensures var r := ProcessMdcCorrected(c, adrgDisOpt, allOptList, mainDisSheet, mdcyDisSheet, mdczDisSheet, adrgTypeDict);
            && (!c.NoSurgery() && k < |MdcaAdrgs| && ProcessAdrg(c, adrgDisOpt, allOptList, adrgTypeDict, MdcaAdrgs[k]) != KBBZ
                ==> r == "MDCA")
            && ((MdcaProbe(c, adrgDisOpt, allOptList, adrgTypeDict) == KBBZ
                 && CountTouched(mdczDisSheet, RegionSheets, c.allDis) <= 1 && mdcyDisSheet !! c.allDis
                 && c.age <= NewbornAge) ==> r == "MDCP")
            && ((MdcaProbe(c, adrgDisOpt, allOptList, adrgTypeDict) == KBBZ
                 && CountTouched(mdczDisSheet, RegionSheets, c.allDis) <= 1 && mdcyDisSheet !! c.allDis
                 && c.age > NewbornAge
                 && ((c.sex == 0 && mainDisSheet[c.mainDis][0] == "MDCN")
                     || (c.sex == 1 && mainDisSheet[c.mainDis][0] == "MDCM"))) ==> r == "MDCY")
  {
    MdcaProbeFirstAccepted(c, adrgDisOpt, allOptList, adrgTypeDict);
  }
}
