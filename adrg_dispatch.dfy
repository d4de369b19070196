/** Selecting an ADRG's entry rule by the rule-type name the tables record for it,
    and scanning an ordered list of candidate ADRGs for the first whose rule
    accepts the case. */
module AdrgDispatch {
  import opened DrgCases
  import opened RuleTables
  import opened AdrgRules

  /** The rule types the dispatcher recognises, and every other name. */
  datatype RuleKind =
    | ContainMainDis | ContainMainOpt | ContainMainDisAndMainOpt | ContainDis
    | ContainOptSimultaneously | ContainAllOpt | ContainMultiOpt3 | ContainOtherDis
    | ContainMultiOpt5 | ContainOtherDisOrOtherOpt1AndOtherOpt2 | ContainCb4AndCb5
    | ContainCb5AndCb6 | ContainMultiOpt1 | ContainMultiOpt2 | ContainMultiOpt4
    | DisAndMainOpt | ContainMultiWbOpt | MdczRegions
    | Unrecognised

  /** The rule-type names the dispatcher knows, with the rule each selects. */
  const RuleNames: map<string, RuleKind> := map[
    "is_contain_main_dis" := ContainMainDis,
    "is_contain_main_opt" := ContainMainOpt,
    "is_contain_main_dis_and_main_opt_simultaneously" := ContainMainDisAndMainOpt,
    "is_contain_dis" := ContainDis,
    "is_contain_opt_simultaneously" := ContainOptSimultaneously,
    "is_contain_all_opt" := ContainAllOpt,
    "is_contain_multi_opt3" := ContainMultiOpt3,
    "is_contain_other_dis" := ContainOtherDis,
    "is_contain_multi_opt5" := ContainMultiOpt5,
    "is_contain_other_dis_or_other_opt1_and_other_opt2" := ContainOtherDisOrOtherOpt1AndOtherOpt2,
    "is_contain_cb4_opt_and_cb5_opt" := ContainCb4AndCb5,
    "is_contain_cb5_opt_and_cb6_opt" := ContainCb5AndCb6,
    "is_contain_multi_opt1" := ContainMultiOpt1,
    "is_contain_multi_opt2" := ContainMultiOpt2,
    "is_contain_multi_opt4" := ContainMultiOpt4,
    "is_dis_and_main_opt" := DisAndMainOpt,
    "is_contain_multi_wb_opt" := ContainMultiWbOpt,
    "is_mdcz_dis" := MdczRegions]

  /** The rule-type name as the tables spell it: a known name selects its rule, any other
      name selects none. */
  function ParseRule(name: string): (kind: RuleKind)
    ensures kind == Unrecognised <==> name !in RuleNames
  {
    if name in RuleNames then RuleNames[name] else Unrecognised
  }

  /** Rules that answer KBBZ for a case without a principal procedure before any lookup. */
  predicate Gated(kind: RuleKind)
  {
    kind in {ContainMainOpt, ContainMainDisAndMainOpt, ContainOptSimultaneously, ContainAllOpt,
             ContainMultiOpt5, ContainOtherDisOrOtherOpt1AndOtherOpt2, ContainCb4AndCb5,
             ContainCb5AndCb6, ContainMultiOpt1, ContainMultiOpt2, ContainMultiWbOpt}
  }

  /** The keys of the ADRG table a rule of this kind reads for ADRG `n`. */
  function RuleSlices(kind: RuleKind, n: string): set<string>
  {
    match kind
    case ContainMainDis => {n}
    case ContainMainOpt => {n}
    case ContainMainDisAndMainOpt => {n + "_contain_main_opt_list", n + "_contain_main_dis_list"}
    case ContainDis => {n}
    case ContainOptSimultaneously => {n + "_normal_list", n + "_other_list"}
    case ContainAllOpt => {}
    case ContainMultiOpt3 => {n + "_main_dis_list", n + "_main_opt_list1", n + "_other_opt_list2"}
    case ContainOtherDis => {n}
    case ContainMultiOpt5 => {n + "_main_dis_list", n + "_main_opt_list", n + "_other_dis_list1", n + "_other_dis_list2"}
    case ContainOtherDisOrOtherOpt1AndOtherOpt2 => {n + "_other_dis_list", n + "_other_opt_list1", n + "_other_opt_list2"}
    case ContainCb4AndCb5 => {"CB4", "CB5"}
    case ContainCb5AndCb6 => {"CB4", "CB5"}
    case ContainMultiOpt1 =>
      {n + "_main_dis_list", n + "_main_opt_list1", n + "_main_opt_list2", n + "_other_opt_list3", n + "_other_opt_list4"}
    case ContainMultiOpt2 =>
      {n + "_main_dis_list", n + "_other_opt_list1", n + "_other_opt_list2", n + "_other_opt_list3",
       n + "_other_opt_list4", n + "_other_opt_list5"}
    case ContainMultiOpt4 => {n + "_main_dis_list1", n + "_main_dis_list2", n + "_main_opt_list", n + "_other_dis_list"}
    case DisAndMainOpt => {n + "_main_dis_list", n + "_main_opt_list"}
    case ContainMultiWbOpt => {n + "WB1_main_opt_list", n + "WB2_main_opt_list", n + "WB3_main_opt_list"}
    case MdczRegions => set k | k in RegionSheets
    case Unrecognised => {}
  }

  /** ADRG `n` has a rule type and every slice its rule reads for this case is present. */
  predicate AdrgReady(c: DrgCase, adrgDisOpt: map<string, set<string>>, adrgTypeDict: map<string, string>, n: string)
  {
    && n in adrgTypeDict
    && var kind := ParseRule(adrgTypeDict[n]);
       (Gated(kind) && c.NoSurgery()) || RuleSlices(kind, n) <= adrgDisOpt.Keys
  }

  /** process_adrg: run the rule the tables assign to `adrgName`. The region sheets of the
      "is_mdcz_dis" rule are looked up in the ADRG table itself, as the dispatcher passes it. */
  function ProcessAdrg(c: DrgCase, adrgDisOpt: map<string, set<string>>, allOptList: set<string>,
                       adrgTypeDict: map<string, string>, adrgName: string): (r: string)
    reads c
    requires AdrgReady(c, adrgDisOpt, adrgTypeDict, adrgName)
    ensures r == adrgName || r == KBBZ
    ensures ParseRule(adrgTypeDict[adrgName]) == Unrecognised ==> r == KBBZ
    ensures c.NoSurgery() && Gated(ParseRule(adrgTypeDict[adrgName])) ==> r == KBBZ
  {
    match ParseRule(adrgTypeDict[adrgName])
    case ContainMainDis => IsContainMainDis(c, adrgDisOpt, adrgName)
    case ContainMainOpt => IsContainMainOpt(c, adrgDisOpt, adrgName)
    case ContainMainDisAndMainOpt => IsContainMainDisAndMainOptSimultaneously(c, adrgDisOpt, adrgName)
    case ContainDis => IsContainDis(c, adrgDisOpt, adrgName)
    case ContainOptSimultaneously => IsContainOptSimultaneously(c, adrgDisOpt, adrgName)
    case ContainAllOpt => IsContainAllOpt(c, allOptList, adrgName)
    case ContainMultiOpt3 => IsContainMultiOpt3(c, adrgDisOpt, adrgName)
    case ContainOtherDis => IsContainOtherDis(c, adrgDisOpt, adrgName)
    case ContainMultiOpt5 => IsContainMultiOpt5(c, adrgDisOpt, adrgName)
    case ContainOtherDisOrOtherOpt1AndOtherOpt2 => IsContainOtherDisOrOtherOpt1AndOtherOpt2(c, adrgDisOpt, adrgName)
    case ContainCb4AndCb5 => IsContainCb4OptAndCb5Opt(c, adrgDisOpt, adrgName)
    case ContainCb5AndCb6 => IsContainCb5OptAndCb6Opt(c, adrgDisOpt, adrgName)
    case ContainMultiOpt1 => IsContainMultiOpt1(c, adrgDisOpt, adrgName)
    case ContainMultiOpt2 => IsContainMultiOpt2(c, adrgDisOpt, adrgName)
    case ContainMultiOpt4 => IsContainMultiOpt4(c, adrgDisOpt, adrgName)
    case DisAndMainOpt => IsContainDisAndMainOpt(c, adrgDisOpt, adrgName)
    case ContainMultiWbOpt => IsContainMultiWbOpt(c, adrgDisOpt, adrgName)
    case MdczRegions => MdczDis(c, adrgDisOpt, adrgName)
    case Unrecognised => KBBZ
  }

  // ---------------------------------------------------------------------------
  // Properties of the rules

  /** The CB5/CB6 rule and the CB4/CB5 rule answer alike on every case and table. A
      corollary of the two rules' contracts: the CB5/CB6 rule reads the CB4 and CB5 lists. */
  lemma Cb5Cb6SameAsCb4Cb5(c: DrgCase, adrgDisOpt: map<string, set<string>>, adrgName: string)
    requires !c.NoSurgery() ==> {"CB4", "CB5"} <= adrgDisOpt.Keys
    ensures IsContainCb5OptAndCb6Opt(c, adrgDisOpt, adrgName) == IsContainCb4OptAndCb5Opt(c, adrgDisOpt, adrgName)
  {
  }

  /** On a constructed case the principal procedure is one of all the procedures, so the
      principal-procedure test inside the second alternative of multi_opt3 adds nothing. */
  lemma MultiOpt3RedundantTest(c: DrgCase, adrgDisOpt: map<string, set<string>>, adrgName: string)
    requires {adrgName + "_main_dis_list", adrgName + "_main_opt_list1", adrgName + "_other_opt_list2"}
             <= adrgDisOpt.Keys
    requires c.mainOpt in c.allOpt
    ensures IsContainMultiOpt3(c, adrgDisOpt, adrgName) ==
            if c.mainDis in adrgDisOpt[adrgName + "_main_dis_list"]
               && (c.mainOpt in adrgDisOpt[adrgName + "_main_opt_list1"]
                   || !(adrgDisOpt[adrgName + "_other_opt_list2"] !! c.allOpt))
            then adrgName else KBBZ
  {
    if c.mainOpt in adrgDisOpt[adrgName + "_other_opt_list2"] {
      assert c.mainOpt in adrgDisOpt[adrgName + "_other_opt_list2"] * c.allOpt;
    }
  }

  /** multi_opt3 has no surgery check: a case without a principal procedure still enters
      the ADRG through an other procedure found in slice 2. */
  lemma MultiOpt3WithoutPrincipalProcedure(c: DrgCase, adrgDisOpt: map<string, set<string>>, adrgName: string, opt: string)
    requires {adrgName + "_main_dis_list", adrgName + "_main_opt_list1", adrgName + "_other_opt_list2"}
             <= adrgDisOpt.Keys
    requires c.NoSurgery() && c.mainDis in adrgDisOpt[adrgName + "_main_dis_list"]
    requires opt in c.allOpt && opt in adrgDisOpt[adrgName + "_other_opt_list2"]
    ensures IsContainMultiOpt3(c, adrgDisOpt, adrgName) == adrgName
  {
    assert opt in adrgDisOpt[adrgName + "_other_opt_list2"] * c.allOpt;
  }

  /** `c2` records everything `c1` records, and possibly more secondary codes. */
  predicate Extends(c1: DrgCase, c2: DrgCase)
    reads c1, c2
  {
    && c1.mainDis == c2.mainDis && c1.mainOpt == c2.mainOpt
    && ElemSet(c1.otherDis) <= ElemSet(c2.otherDis)
    && c1.allDis <= c2.allDis && c1.allOpt <= c2.allOpt
  }

  lemma NotDisjointGrows(a: set<string>, b: set<string>, b': set<string>)
    requires !(a !! b) && b <= b'
    ensures !(a !! b')
  {
    var x :| x in a && x in b;
    assert x in a * b';
  }

  /** Every entry rule is monotone: a case accepted by an ADRG stays accepted when more
      secondary diagnoses or procedures are recorded. */
  lemma ProcessAdrgMonotone(c1: DrgCase, c2: DrgCase, adrgDisOpt: map<string, set<string>>, allOptList: set<string>,
                            adrgTypeDict: map<string, string>, adrgName: string)
    requires Extends(c1, c2)
    requires AdrgReady(c1, adrgDisOpt, adrgTypeDict, adrgName)
    ensures AdrgReady(c2, adrgDisOpt, adrgTypeDict, adrgName)
    ensures ProcessAdrg(c1, adrgDisOpt, allOptList, adrgTypeDict, adrgName) == adrgName
            ==> ProcessAdrg(c2, adrgDisOpt, allOptList, adrgTypeDict, adrgName) == adrgName
  {
    assert c1.NoSurgery() == c2.NoSurgery();
    var kind := ParseRule(adrgTypeDict[adrgName]);
    if ProcessAdrg(c1, adrgDisOpt, allOptList, adrgTypeDict, adrgName) == adrgName && adrgName != KBBZ {
      var o1, o2 := ElemSet(c1.otherDis), ElemSet(c2.otherDis);
      var n := adrgName;
      match kind
      case ContainOtherDis =>
        NotDisjointGrows(adrgDisOpt[n], o1, o2);
      case ContainDis =>
        NotDisjointGrows(adrgDisOpt[n], o1, o2);
      case ContainOptSimultaneously =>
        NotDisjointGrows(adrgDisOpt[n + "_normal_list"], c1.allOpt, c2.allOpt);
        NotDisjointGrows(adrgDisOpt[n + "_other_list"], c1.allOpt, c2.allOpt);
      case ContainAllOpt =>
        NotDisjointGrows(allOptList, c1.allOpt, c2.allOpt);
      case ContainMultiOpt3 =>
        if !(adrgDisOpt[n + "_other_opt_list2"] !! c1.allOpt) {
          NotDisjointGrows(adrgDisOpt[n + "_other_opt_list2"], c1.allOpt, c2.allOpt);
        }
      case ContainMultiOpt4 =>
        if !(adrgDisOpt[n + "_other_dis_list"] !! o1) {
          NotDisjointGrows(adrgDisOpt[n + "_other_dis_list"], o1, o2);
        }
      case ContainMultiOpt5 =>
        if !(adrgDisOpt[n + "_other_dis_list1"] !! o1) {
          NotDisjointGrows(adrgDisOpt[n + "_other_dis_list1"], o1, o2);
        }
        if !(adrgDisOpt[n + "_other_dis_list2"] !! o1) {
          NotDisjointGrows(adrgDisOpt[n + "_other_dis_list2"], o1, o2);
        }
      case ContainOtherDisOrOtherOpt1AndOtherOpt2 =>
        if !(adrgDisOpt[n + "_other_dis_list"] !! o1) {
          NotDisjointGrows(adrgDisOpt[n + "_other_dis_list"], o1, o2);
        }
        if !(adrgDisOpt[n + "_other_opt_list1"] !! c1.allOpt) {
          NotDisjointGrows(adrgDisOpt[n + "_other_opt_list1"], c1.allOpt, c2.allOpt);
        }
        NotDisjointGrows(adrgDisOpt[n + "_other_opt_list2"], c1.allOpt, c2.allOpt);
      case ContainCb4AndCb5 =>
        NotDisjointGrows(adrgDisOpt["CB4"], c1.allOpt, c2.allOpt);
        NotDisjointGrows(adrgDisOpt["CB5"], c1.allOpt, c2.allOpt);
      case ContainCb5AndCb6 =>
        NotDisjointGrows(adrgDisOpt["CB4"], c1.allOpt, c2.allOpt);
        NotDisjointGrows(adrgDisOpt["CB5"], c1.allOpt, c2.allOpt);
      case ContainMultiOpt1 =>
        if !(adrgDisOpt[n + "_other_opt_list3"] !! c1.allOpt) && !(adrgDisOpt[n + "_other_opt_list4"] !! c1.allOpt) {
          NotDisjointGrows(adrgDisOpt[n + "_other_opt_list3"], c1.allOpt, c2.allOpt);
          NotDisjointGrows(adrgDisOpt[n + "_other_opt_list4"], c1.allOpt, c2.allOpt);
        }
      case ContainMultiOpt2 =>
        var slices := [n + "_other_opt_list1", n + "_other_opt_list2", n + "_other_opt_list3",
                       n + "_other_opt_list4", n + "_other_opt_list5"];
        forall s | s in slices && !(adrgDisOpt[s] !! c1.allOpt)
          ensures !(adrgDisOpt[s] !! c2.allOpt)
        {
          NotDisjointGrows(adrgDisOpt[s], c1.allOpt, c2.allOpt);
        }
      case DisAndMainOpt =>
        NotDisjointGrows(adrgDisOpt[n + "_main_dis_list"], c1.allDis, c2.allDis);
      case MdczRegions =>
        CountTouchedMonotone(adrgDisOpt, RegionSheets, c1.allDis, c2.allDis);
      case _ =>
    }
  }

  // ---------------------------------------------------------------------------
  // Scanning candidate ADRGs

  /** The candidate loop: each candidate's answer replaces `pred`, and the scan stops at the
      first answer other than KBBZ. An empty list leaves `pred` as it was. */
  function FirstHit(c: DrgCase, adrgDisOpt: map<string, set<string>>, allOptList: set<string>,
                    adrgTypeDict: map<string, string>, adrgs: seq<string>, pred: string): (r: string)
    reads c
    requires forall a :: a in adrgs ==> AdrgReady(c, adrgDisOpt, adrgTypeDict, a)
    ensures adrgs == [] ==> r == pred
    ensures adrgs != [] ==> r == KBBZ || r in adrgs
    decreases |adrgs|
  {
    if adrgs == [] then pred
    else
      var p := ProcessAdrg(c, adrgDisOpt, allOptList, adrgTypeDict, adrgs[0]);
      if p != KBBZ then p else FirstHit(c, adrgDisOpt, allOptList, adrgTypeDict, adrgs[1..], p)
  }

  /** A non-empty scan answers the first candidate whose rule accepts the case, every
      candidate before it having answered KBBZ; it answers KBBZ when none accepts. */
  lemma {:induction false} FirstHitIsFirstAccepted(c: DrgCase, adrgDisOpt: map<string, set<string>>, allOptList: set<string>,
                                 adrgTypeDict: map<string, string>, adrgs: seq<string>, pred: string)
    requires forall a :: a in adrgs ==> AdrgReady(c, adrgDisOpt, adrgTypeDict, a)
    requires adrgs != []
    ensures var r := FirstHit(c, adrgDisOpt, allOptList, adrgTypeDict, adrgs, pred);
            if r == KBBZ then
              forall j :: 0 <= j < |adrgs| ==> ProcessAdrg(c, adrgDisOpt, allOptList, adrgTypeDict, adrgs[j]) == KBBZ
            else
              exists k :: 0 <= k < |adrgs| && adrgs[k] == r
                && ProcessAdrg(c, adrgDisOpt, allOptList, adrgTypeDict, r) == r
                && forall j :: 0 <= j < k ==> ProcessAdrg(c, adrgDisOpt, allOptList, adrgTypeDict, adrgs[j]) == KBBZ
    decreases |adrgs|
  {
    var p := ProcessAdrg(c, adrgDisOpt, allOptList, adrgTypeDict, adrgs[0]);
    if p == KBBZ && |adrgs| > 1 {
      var rest := adrgs[1..];
      FirstHitIsFirstAccepted(c, adrgDisOpt, allOptList, adrgTypeDict, rest, p);
      var r := FirstHit(c, adrgDisOpt, allOptList, adrgTypeDict, rest, p);
      if r == KBBZ {
        forall j | 0 <= j < |adrgs|
          ensures ProcessAdrg(c, adrgDisOpt, allOptList, adrgTypeDict, adrgs[j]) == KBBZ
        {
          if j > 0 { assert adrgs[j] == rest[j - 1]; }
        }
      } else {
        var k :| 0 <= k < |rest| && rest[k] == r
                 && ProcessAdrg(c, adrgDisOpt, allOptList, adrgTypeDict, r) == r
                 && forall j :: 0 <= j < k ==> ProcessAdrg(c, adrgDisOpt, allOptList, adrgTypeDict, rest[j]) == KBBZ;
        assert adrgs[k + 1] == r;
        forall j | 0 <= j < k + 1
          ensures ProcessAdrg(c, adrgDisOpt, allOptList, adrgTypeDict, adrgs[j]) == KBBZ
        {
          if j > 0 { assert adrgs[j] == rest[j - 1]; }
        }
      }
    } else if p != KBBZ {
      assert adrgs[0] == p;
    }
  }

  /** The candidate loop as the source writes it: reassign, and break on a match. */
  method ScanAdrgs(c: DrgCase, adrgDisOpt: map<string, set<string>>, allOptList: set<string>,
                   adrgTypeDict: map<string, string>, adrgs: seq<string>, pred: string) returns (predAdrg: string)
    requires forall a :: a in adrgs ==> AdrgReady(c, adrgDisOpt, adrgTypeDict, a)
    ensures predAdrg == FirstHit(c, adrgDisOpt, allOptList, adrgTypeDict, adrgs, pred)
  {
    predAdrg := pred;
    var i := 0;
    while i < |adrgs|
      invariant 0 <= i <= |adrgs|
      invariant FirstHit(c, adrgDisOpt, allOptList, adrgTypeDict, adrgs, pred)
                == FirstHit(c, adrgDisOpt, allOptList, adrgTypeDict, adrgs[i..], predAdrg)
    {
      assert adrgs[i..][1..] == adrgs[i + 1..];
      predAdrg := ProcessAdrg(c, adrgDisOpt, allOptList, adrgTypeDict, adrgs[i]);
      if predAdrg != KBBZ {
        break;
      }
      i := i + 1;
    }
  }
}
