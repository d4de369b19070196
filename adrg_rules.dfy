/** The ADRG entry rules: one predicate per rule type, each answering the ADRG's
    own code when the case meets the rule and KBBZ otherwise, and the dispatcher
    that selects the predicate by the rule-type name the tables give the ADRG.
    A table key is the ADRG code with a slice suffix appended, spelled exactly as
    the rules spell it. */
module AdrgRules {
  import opened DrgCases
  import opened RuleTables

  /** Some code of the list is in the slice. */
  predicate AnyIn(codes: seq<string>, slice: set<string>)
  {
    exists i :: 0 <= i < |codes| && codes[i] in slice
  }

  /** The two sets have a code in common. */
  predicate Shares(codes: set<string>, slice: set<string>)
  {
    exists x :: x in codes && x in slice
  }

  // ---------------------------------------------------------------------------
  // Rules that look at diagnoses only

  /** "is_contain_main_dis": the principal diagnosis is in the ADRG's list. */
  function IsContainMainDis(c: DrgCase, adrgDisOpt: map<string, set<string>>, adrgName: string): (r: string)
    requires adrgName in adrgDisOpt
    ensures r == adrgName || r == KBBZ
    ensures adrgName != KBBZ ==> (r == adrgName <==>
              c.mainDis in adrgDisOpt[adrgName])
  {
    if c.mainDis in adrgDisOpt[adrgName] then adrgName else KBBZ
  }

  /** "is_contain_other_dis": some other diagnosis is in the ADRG's list. */
  function IsContainOtherDis(c: DrgCase, adrgDisOpt: map<string, set<string>>, adrgName: string): (r: string)
    requires adrgName in adrgDisOpt
    ensures r == adrgName || r == KBBZ
    ensures adrgName != KBBZ ==> (r == adrgName <==>
              AnyIn(c.otherDis, adrgDisOpt[adrgName]))
  {
    if !(adrgDisOpt[adrgName] !! ElemSet(c.otherDis)) then adrgName else KBBZ
  }

  /** "is_contain_dis": the ADRG's list holds the principal diagnosis and also some other diagnosis. */
  function IsContainDis(c: DrgCase, adrgDisOpt: map<string, set<string>>, adrgName: string): (r: string)
    requires adrgName in adrgDisOpt
    ensures r == adrgName || r == KBBZ
    ensures adrgName != KBBZ ==> (r == adrgName <==>
              c.mainDis in adrgDisOpt[adrgName] && AnyIn(c.otherDis, adrgDisOpt[adrgName]))
  {
    if c.mainDis in adrgDisOpt[adrgName] && !(adrgDisOpt[adrgName] !! ElemSet(c.otherDis)) then adrgName
    else KBBZ
  }

  // ---------------------------------------------------------------------------
  // Rules that start by turning away a case without a principal procedure

  /** "is_contain_main_opt": the principal procedure is in the ADRG's list. */
  function IsContainMainOpt(c: DrgCase, adrgDisOpt: map<string, set<string>>, adrgName: string): (r: string)
    requires !c.NoSurgery() ==> adrgName in adrgDisOpt
    ensures r == adrgName || r == KBBZ
    ensures adrgName != KBBZ ==> (r == adrgName <==>
              !c.NoSurgery() && c.mainOpt in adrgDisOpt[adrgName])
    ensures c.NoSurgery() ==> r == KBBZ
  {
    if c.NoSurgery() then KBBZ
    else if c.mainOpt in adrgDisOpt[adrgName] then adrgName
    else KBBZ
  }

  /** "is_contain_opt_simultaneously": the case's procedures meet both procedure slices. */
  function IsContainOptSimultaneously(c: DrgCase, adrgDisOpt: map<string, set<string>>, adrgName: string): (r: string)
    requires !c.NoSurgery() ==> {adrgName + "_normal_list", adrgName + "_other_list"} <= adrgDisOpt.Keys
    ensures r == adrgName || r == KBBZ
    ensures adrgName != KBBZ ==> (r == adrgName <==>
              !c.NoSurgery() && Shares(c.allOpt, adrgDisOpt[adrgName + "_normal_list"])
                                     && Shares(c.allOpt, adrgDisOpt[adrgName + "_other_list"]))
    ensures c.NoSurgery() ==> r == KBBZ
  {
    if c.NoSurgery() then KBBZ
    else if !(adrgDisOpt[adrgName + "_normal_list"] !! c.allOpt)
         && !(adrgDisOpt[adrgName + "_other_list"] !! c.allOpt) then adrgName
    else KBBZ
  }

  /** "is_contain_other_dis_or_other_opt1_and_other_opt2": (an other diagnosis in the
      diagnosis slice or a procedure in slice 1) and a procedure in slice 2. */
  function IsContainOtherDisOrOtherOpt1AndOtherOpt2(c: DrgCase, adrgDisOpt: map<string, set<string>>, adrgName: string): (r: string)
    requires !c.NoSurgery() ==>
               {adrgName + "_other_dis_list", adrgName + "_other_opt_list1", adrgName + "_other_opt_list2"} <= adrgDisOpt.Keys
    ensures r == adrgName || r == KBBZ
    ensures adrgName != KBBZ ==> (r == adrgName <==>
              !c.NoSurgery()
                && (AnyIn(c.otherDis, adrgDisOpt[adrgName + "_other_dis_list"])
                    || Shares(c.allOpt, adrgDisOpt[adrgName + "_other_opt_list1"]))
                && Shares(c.allOpt, adrgDisOpt[adrgName + "_other_opt_list2"]))
    ensures c.NoSurgery() ==> r == KBBZ
  {
    if c.NoSurgery() then KBBZ
    else if (!(adrgDisOpt[adrgName + "_other_dis_list"] !! ElemSet(c.otherDis))
             || !(adrgDisOpt[adrgName + "_other_opt_list1"] !! c.allOpt))
            && !(adrgDisOpt[adrgName + "_other_opt_list2"] !! c.allOpt) then adrgName
    else KBBZ
  }

  /** "is_contain_main_dis_and_main_opt_simultaneously": principal diagnosis and principal
      procedure each in their slice. */
  function IsContainMainDisAndMainOptSimultaneously(c: DrgCase, adrgDisOpt: map<string, set<string>>, adrgName: string): (r: string)
    requires !c.NoSurgery() ==>
               {adrgName + "_contain_main_opt_list", adrgName + "_contain_main_dis_list"} <= adrgDisOpt.Keys
    ensures r == adrgName || r == KBBZ
    ensures adrgName != KBBZ ==> (r == adrgName <==>
              !c.NoSurgery() && c.mainDis in adrgDisOpt[adrgName + "_contain_main_dis_list"]
                && c.mainOpt in adrgDisOpt[adrgName + "_contain_main_opt_list"])
    ensures c.NoSurgery() ==> r == KBBZ
  {
    if c.NoSurgery() then KBBZ
    else if c.mainDis in adrgDisOpt[adrgName + "_contain_main_dis_list"]
            && c.mainOpt in adrgDisOpt[adrgName + "_contain_main_opt_list"] then adrgName
    else KBBZ
  }

  /** "is_contain_cb4_opt_and_cb5_opt": the procedures meet the lists of ADRGs CB4 and CB5. */
  function IsContainCb4OptAndCb5Opt(c: DrgCase, adrgDisOpt: map<string, set<string>>, adrgName: string): (r: string)
    requires !c.NoSurgery() ==> {"CB4", "CB5"} <= adrgDisOpt.Keys
    ensures r == adrgName || r == KBBZ
    ensures adrgName != KBBZ ==> (r == adrgName <==>
              !c.NoSurgery() && Shares(c.allOpt, adrgDisOpt["CB4"]) && Shares(c.allOpt, adrgDisOpt["CB5"]))
    ensures c.NoSurgery() ==> r == KBBZ
  {
    if c.NoSurgery() then KBBZ
    else if !(adrgDisOpt["CB4"] !! c.allOpt) && !(adrgDisOpt["CB5"] !! c.allOpt) then adrgName
    else KBBZ
  }

  /** "is_contain_cb5_opt_and_cb6_opt": in spite of its name it consults the lists of CB4
      and CB5, exactly as the rule above does. */
  function IsContainCb5OptAndCb6Opt(c: DrgCase, adrgDisOpt: map<string, set<string>>, adrgName: string): (r: string)
    requires !c.NoSurgery() ==> {"CB4", "CB5"} <= adrgDisOpt.Keys
    ensures r == adrgName || r == KBBZ
    ensures adrgName != KBBZ ==> (r == adrgName <==>
              !c.NoSurgery() && Shares(c.allOpt, adrgDisOpt["CB4"]) && Shares(c.allOpt, adrgDisOpt["CB5"]))
    ensures c.NoSurgery() ==> r == KBBZ
  {
    if c.NoSurgery() then KBBZ
    else if !(adrgDisOpt["CB4"] !! c.allOpt) && !(adrgDisOpt["CB5"] !! c.allOpt) then adrgName
    else KBBZ
  }

  /** "is_contain_multi_opt1": principal diagnosis + principal procedure 1, or principal
      procedure 2, or procedures 3 and 4. */
  function IsContainMultiOpt1(c: DrgCase, adrgDisOpt: map<string, set<string>>, adrgName: string): (r: string)
    requires !c.NoSurgery() ==>
               {adrgName + "_main_dis_list", adrgName + "_main_opt_list1", adrgName + "_main_opt_list2",
                adrgName + "_other_opt_list3", adrgName + "_other_opt_list4"} <= adrgDisOpt.Keys
    ensures r == adrgName || r == KBBZ
    ensures adrgName != KBBZ ==> (r == adrgName <==>
              !c.NoSurgery()
                && ((c.mainDis in adrgDisOpt[adrgName + "_main_dis_list"] && c.mainOpt in adrgDisOpt[adrgName + "_main_opt_list1"])
                    || c.mainOpt in adrgDisOpt[adrgName + "_main_opt_list2"]
                    || (Shares(c.allOpt, adrgDisOpt[adrgName + "_other_opt_list3"])
                        && Shares(c.allOpt, adrgDisOpt[adrgName + "_other_opt_list4"]))))
    ensures c.NoSurgery() ==> r == KBBZ
  {
    if c.NoSurgery() then KBBZ
    else if c.mainDis in adrgDisOpt[adrgName + "_main_dis_list"]
            && c.mainOpt in adrgDisOpt[adrgName + "_main_opt_list1"] then adrgName
    else if c.mainOpt in adrgDisOpt[adrgName + "_main_opt_list2"] then adrgName
    else if !(adrgDisOpt[adrgName + "_other_opt_list3"] !! c.allOpt)
            && !(adrgDisOpt[adrgName + "_other_opt_list4"] !! c.allOpt) then adrgName
    else KBBZ
  }

  /** "is_contain_multi_opt2": principal diagnosis together with procedures 1+2, or 1+3+4, or 4+5. */
  function IsContainMultiOpt2(c: DrgCase, adrgDisOpt: map<string, set<string>>, adrgName: string): (r: string)
    requires !c.NoSurgery() ==>
               {adrgName + "_main_dis_list", adrgName + "_other_opt_list1", adrgName + "_other_opt_list2",
                adrgName + "_other_opt_list3", adrgName + "_other_opt_list4", adrgName + "_other_opt_list5"}
               <= adrgDisOpt.Keys
    ensures r == adrgName || r == KBBZ
    ensures adrgName != KBBZ ==> (r == adrgName <==>
              !c.NoSurgery() && c.mainDis in adrgDisOpt[adrgName + "_main_dis_list"]
                && ((Shares(c.allOpt, adrgDisOpt[adrgName + "_other_opt_list1"])
                     && (Shares(c.allOpt, adrgDisOpt[adrgName + "_other_opt_list2"])
                         || (Shares(c.allOpt, adrgDisOpt[adrgName + "_other_opt_list3"])
                             && Shares(c.allOpt, adrgDisOpt[adrgName + "_other_opt_list4"]))))
                    || (Shares(c.allOpt, adrgDisOpt[adrgName + "_other_opt_list4"])
                        && Shares(c.allOpt, adrgDisOpt[adrgName + "_other_opt_list5"]))))
    ensures c.NoSurgery() ==> r == KBBZ
  {
    if c.NoSurgery() then KBBZ
    else if c.mainDis in adrgDisOpt[adrgName + "_main_dis_list"]
            && !(adrgDisOpt[adrgName + "_other_opt_list1"] !! c.allOpt)
            && !(adrgDisOpt[adrgName + "_other_opt_list2"] !! c.allOpt) then adrgName
    else if c.mainDis in adrgDisOpt[adrgName + "_main_dis_list"]
            && !(adrgDisOpt[adrgName + "_other_opt_list1"] !! c.allOpt)
            && !(adrgDisOpt[adrgName + "_other_opt_list3"] !! c.allOpt)
            && !(adrgDisOpt[adrgName + "_other_opt_list4"] !! c.allOpt) then adrgName
    else if c.mainDis in adrgDisOpt[adrgName + "_main_dis_list"]
            && !(adrgDisOpt[adrgName + "_other_opt_list4"] !! c.allOpt)
            && !(adrgDisOpt[adrgName + "_other_opt_list5"] !! c.allOpt) then adrgName
    else KBBZ
  }

  /** "is_contain_multi_opt5": principal diagnosis + an other diagnosis from list 1 + principal
      procedure, or an other diagnosis from list 2 + principal procedure. */
  function IsContainMultiOpt5(c: DrgCase, adrgDisOpt: map<string, set<string>>, adrgName: string): (r: string)
    requires !c.NoSurgery() ==>
               {adrgName + "_main_dis_list", adrgName + "_main_opt_list",
                adrgName + "_other_dis_list1", adrgName + "_other_dis_list2"} <= adrgDisOpt.Keys
    ensures r == adrgName || r == KBBZ
    ensures adrgName != KBBZ ==> (r == adrgName <==>
              !c.NoSurgery() && c.mainOpt in adrgDisOpt[adrgName + "_main_opt_list"]
                && ((c.mainDis in adrgDisOpt[adrgName + "_main_dis_list"]
                     && AnyIn(c.otherDis, adrgDisOpt[adrgName + "_other_dis_list1"]))
                    || AnyIn(c.otherDis, adrgDisOpt[adrgName + "_other_dis_list2"])))
    ensures c.NoSurgery() ==> r == KBBZ
  {
    if c.NoSurgery() then KBBZ
    else if c.mainDis in adrgDisOpt[adrgName + "_main_dis_list"]
            && !(adrgDisOpt[adrgName + "_other_dis_list1"] !! ElemSet(c.otherDis))
            && c.mainOpt in adrgDisOpt[adrgName + "_main_opt_list"] then adrgName
    else if !(adrgDisOpt[adrgName + "_other_dis_list2"] !! ElemSet(c.otherDis))
            && c.mainOpt in adrgDisOpt[adrgName + "_main_opt_list"] then adrgName
    else KBBZ
  }

  /** "is_contain_multi_wb_opt": the principal procedure is in one of three lists whose keys
      are the ADRG code followed directly by "WB1_main_opt_list", "WB2_..." and "WB3_...". */
  function IsContainMultiWbOpt(c: DrgCase, adrgDisOpt: map<string, set<string>>, adrgName: string): (r: string)
    requires !c.NoSurgery() ==>
               {adrgName + "WB1_main_opt_list", adrgName + "WB2_main_opt_list", adrgName + "WB3_main_opt_list"}
               <= adrgDisOpt.Keys
    ensures r == adrgName || r == KBBZ
    ensures adrgName != KBBZ ==> (r == adrgName <==>
              !c.NoSurgery()
                && (c.mainOpt in adrgDisOpt[adrgName + "WB1_main_opt_list"]
                    || c.mainOpt in adrgDisOpt[adrgName + "WB2_main_opt_list"]
                    || c.mainOpt in adrgDisOpt[adrgName + "WB3_main_opt_list"]))
    ensures c.NoSurgery() ==> r == KBBZ
  {
    if c.NoSurgery() then KBBZ
    else if c.mainOpt in adrgDisOpt[adrgName + "WB1_main_opt_list"]
            || c.mainOpt in adrgDisOpt[adrgName + "WB2_main_opt_list"]
            || c.mainOpt in adrgDisOpt[adrgName + "WB3_main_opt_list"] then adrgName
    else KBBZ
  }

  /** "is_contain_all_opt": some procedure of the case is in the global procedure list. */
  function IsContainAllOpt(c: DrgCase, allOpt: set<string>, adrgName: string): (r: string)
    ensures r == adrgName || r == KBBZ
    ensures adrgName != KBBZ ==> (r == adrgName <==>
              !c.NoSurgery() && Shares(c.allOpt, allOpt))
    ensures c.NoSurgery() ==> r == KBBZ
  {
    if c.NoSurgery() then KBBZ
    else if !(allOpt !! c.allOpt) then adrgName
    else KBBZ
  }

  // ---------------------------------------------------------------------------
  // Rules that look at procedures but never test for a principal procedure

  /** "is_contain_multi_opt3": principal diagnosis + principal procedure 1, or principal
      diagnosis + (principal procedure in slice 2 or some procedure in slice 2). */
  function IsContainMultiOpt3(c: DrgCase, adrgDisOpt: map<string, set<string>>, adrgName: string): (r: string)
    requires {adrgName + "_main_dis_list", adrgName + "_main_opt_list1", adrgName + "_other_opt_list2"}
             <= adrgDisOpt.Keys
    ensures r == adrgName || r == KBBZ
    ensures adrgName != KBBZ ==> (r == adrgName <==>
              c.mainDis in adrgDisOpt[adrgName + "_main_dis_list"]
                && (c.mainOpt in adrgDisOpt[adrgName + "_main_opt_list1"]
                    || c.mainOpt in adrgDisOpt[adrgName + "_other_opt_list2"]
                    || Shares(c.allOpt, adrgDisOpt[adrgName + "_other_opt_list2"])))
  {
    if c.mainDis in adrgDisOpt[adrgName + "_main_dis_list"]
       && c.mainOpt in adrgDisOpt[adrgName + "_main_opt_list1"] then adrgName
    else if c.mainDis in adrgDisOpt[adrgName + "_main_dis_list"]
            && (c.mainOpt in adrgDisOpt[adrgName + "_other_opt_list2"]
                || !(adrgDisOpt[adrgName + "_other_opt_list2"] !! c.allOpt)) then adrgName
    else KBBZ
  }

  /** "is_contain_multi_opt4": principal diagnosis 1 + principal procedure, or principal
      diagnosis 2 + an other diagnosis + principal procedure. */
  function IsContainMultiOpt4(c: DrgCase, adrgDisOpt: map<string, set<string>>, adrgName: string): (r: string)
    requires {adrgName + "_main_dis_list1", adrgName + "_main_dis_list2", adrgName + "_main_opt_list",
              adrgName + "_other_dis_list"} <= adrgDisOpt.Keys
    ensures r == adrgName || r == KBBZ
    ensures adrgName != KBBZ ==> (r == adrgName <==>
              c.mainOpt in adrgDisOpt[adrgName + "_main_opt_list"]
                && (c.mainDis in adrgDisOpt[adrgName + "_main_dis_list1"]
                    || (c.mainDis in adrgDisOpt[adrgName + "_main_dis_list2"]
                        && AnyIn(c.otherDis, adrgDisOpt[adrgName + "_other_dis_list"]))))
  {
    if c.mainDis in adrgDisOpt[adrgName + "_main_dis_list1"]
       && c.mainOpt in adrgDisOpt[adrgName + "_main_opt_list"] then adrgName
    else if c.mainDis in adrgDisOpt[adrgName + "_main_dis_list2"]
            && !(adrgDisOpt[adrgName + "_other_dis_list"] !! ElemSet(c.otherDis))
            && c.mainOpt in adrgDisOpt[adrgName + "_main_opt_list"] then adrgName
    else KBBZ
  }

  /** "is_dis_and_main_opt": some diagnosis in the diagnosis slice and the principal procedure
      in the procedure slice. */
  function IsContainDisAndMainOpt(c: DrgCase, adrgDisOpt: map<string, set<string>>, adrgName: string): (r: string)
    reads c
    requires {adrgName + "_main_dis_list", adrgName + "_main_opt_list"} <= adrgDisOpt.Keys
    ensures r == adrgName || r == KBBZ
    ensures adrgName != KBBZ ==> (r == adrgName <==>
              Shares(c.allDis, adrgDisOpt[adrgName + "_main_dis_list"])
                && c.mainOpt in adrgDisOpt[adrgName + "_main_opt_list"])
  {
    if !(adrgDisOpt[adrgName + "_main_dis_list"] !! c.allDis)
       && c.mainOpt in adrgDisOpt[adrgName + "_main_opt_list"] then adrgName
    else KBBZ
  }

  // ---------------------------------------------------------------------------
  // Multi-region injury: the count of body-region sheets the diagnoses touch

  /** The nine region sheets, in the order the count visits them. */
  const RegionSheets: seq<string> := [
    "belly_dis_sheet", "body_spine_dis_sheet", "chest_dis_sheet", "down_limb_dis_sheet",
    "genital_dis_sheet", "head_neck_dis_sheet", "pelvis_dis_sheet", "up_limb_dis_sheet",
    "urinary_dis_sheet"]

  predicate Touches(sheets: map<string, set<string>>, name: string, dis: set<string>)
    requires name in sheets
  {
    !(sheets[name] !! dis)
  }

  /** How many of the listed sheets share a diagnosis with `dis`. */
  function CountTouched(sheets: map<string, set<string>>, names: seq<string>, dis: set<string>): (n: nat)
    requires forall k :: k in names ==> k in sheets
    ensures n <= |names|
  {
    if names == [] then 0
    else CountTouched(sheets, names[..|names| - 1], dis)
         + (if Touches(sheets, names[|names| - 1], dis) then 1 else 0)
  }

  /** The count exceeds one exactly when two different positions of the list name sheets
      that the diagnoses touch. */
  lemma {:induction false} CountTouchedAboveOne(sheets: map<string, set<string>>, names: seq<string>, dis: set<string>)
    requires forall k :: k in names ==> k in sheets
    ensures CountTouched(sheets, names, dis) > 1 <==>
            exists i, j :: 0 <= i < j < |names| && Touches(sheets, names[i], dis) && Touches(sheets, names[j], dis)
  {
    if names != [] {
      var init := names[..|names| - 1];
      var last := |names| - 1;
      CountTouchedAboveOne(sheets, init, dis);
      CountTouchedPositive(sheets, init, dis);
      if CountTouched(sheets, names, dis) > 1 {
        if CountTouched(sheets, init, dis) > 1 {
          var i, j :| 0 <= i < j < |init| && Touches(sheets, init[i], dis) && Touches(sheets, init[j], dis);
          assert names[i] == init[i] && names[j] == init[j];
        } else {
          var i :| 0 <= i < |init| && Touches(sheets, init[i], dis);
          assert names[i] == init[i];
          assert Touches(sheets, names[last], dis);
        }
      }
      if exists i, j :: 0 <= i < j < |names| && Touches(sheets, names[i], dis) && Touches(sheets, names[j], dis) {
        var i, j :| 0 <= i < j < |names| && Touches(sheets, names[i], dis) && Touches(sheets, names[j], dis);
        assert init[i] == names[i];
        if j < last {
          assert init[j] == names[j];
        }
      }
    }
  }

  /** The count is positive exactly when some position names a touched sheet. */
  lemma {:induction false} CountTouchedPositive(sheets: map<string, set<string>>, names: seq<string>, dis: set<string>)
    requires forall k :: k in names ==> k in sheets
    ensures CountTouched(sheets, names, dis) > 0 <==> exists i :: 0 <= i < |names| && Touches(sheets, names[i], dis)
  {
    if names != [] {
      var init := names[..|names| - 1];
      CountTouchedPositive(sheets, init, dis);
      if exists i :: 0 <= i < |init| && Touches(sheets, init[i], dis) {
        var i :| 0 <= i < |init| && Touches(sheets, init[i], dis);
        assert names[i] == init[i];
      }
      if exists i :: 0 <= i < |names| && Touches(sheets, names[i], dis) {
        var i :| 0 <= i < |names| && Touches(sheets, names[i], dis);
        if i < |names| - 1 {
          assert init[i] == names[i];
        }
      }
    }
  }

  /** More diagnoses never lower the count. */
  lemma {:induction false} CountTouchedMonotone(sheets: map<string, set<string>>, names: seq<string>, dis: set<string>, dis': set<string>)
    requires forall k :: k in names ==> k in sheets
    requires dis <= dis'
    ensures CountTouched(sheets, names, dis) <= CountTouched(sheets, names, dis')
  {
    if names != [] {
      CountTouchedMonotone(sheets, names[..|names| - 1], dis, dis');
    }
  }

  /** "is_mdcz_dis": the diagnoses touch more than one region sheet. */
  function MdczDis(c: DrgCase, sheets: map<string, set<string>>, adrgName: string): (r: string)
    reads c
    requires forall k :: k in RegionSheets ==> k in sheets
    ensures r == adrgName || r == KBBZ
    ensures adrgName != KBBZ ==> (r == adrgName <==>
              exists i, j :: 0 <= i < j < |RegionSheets|
                             && Touches(sheets, RegionSheets[i], c.allDis) && Touches(sheets, RegionSheets[j], c.allDis))
  {
    CountTouchedAboveOne(sheets, RegionSheets, c.allDis);
    if CountTouched(sheets, RegionSheets, c.allDis) > 1 then adrgName else KBBZ
  }

  /** The counting loop of is_mdcz_dis. */
  method IsMdczDis(c: DrgCase, sheets: map<string, set<string>>, adrgName: string) returns (r: string)
    requires forall k :: k in RegionSheets ==> k in sheets
    ensures r == adrgName || r == KBBZ
    ensures r == adrgName <==> adrgName == KBBZ || CountTouched(sheets, RegionSheets, c.allDis) > 1
  {
    var counter := 0;
    var k := 0;
    while k < |RegionSheets|
      invariant 0 <= k <= |RegionSheets|
      invariant counter == CountTouched(sheets, RegionSheets[..k], c.allDis)
    {
      var cate := RegionSheets[k];
      assert RegionSheets[..k + 1][..k] == RegionSheets[..k];
      if !(sheets[cate] !! c.allDis) {
        counter := counter + 1;
      }
      k := k + 1;
    }
    assert RegionSheets[..k] == RegionSheets;
    if counter > 1 {
      r := adrgName;
    } else {
      r := KBBZ;
    }
  }
}
