/** Classifying a group code by its second letter, and rewriting a medical group
    into the "QY" group of its category when the case had a valid operation. */
module QyRules {
  import opened DrgCases
  import opened RuleTables

  /** Second letters of surgical, procedural and medical (internal) groups. */
  const SurgeryLetters: set<char> := {'A', 'B', 'C', 'D', 'E', 'F', 'G', 'H', 'I', 'J'}
  const OperationLetters: set<char> := {'K', 'L', 'M', 'N', 'O', 'P', 'Q'}
  const InternalLetters: set<char> := {'R', 'S', 'T', 'U', 'V', 'W', 'X', 'Y', 'Z'}

  /** A second letter belongs to at most one of the three kinds. */
  lemma LetterKindsDisjoint(ch: char)
    ensures ch in SurgeryLetters ==> ch !in OperationLetters && ch !in InternalLetters
    ensures ch in OperationLetters ==> ch !in InternalLetters
  {
  }

  /** is_qy: letters 1 and 2 of the code spell "QY". */
  function IsQy(adrgName: string): (b: bool)
    requires |adrgName| >= 3
    ensures b <==> adrgName[1] == 'Q' && adrgName[2] == 'Y'
  {
    adrgName[1..3] == "QY"
  }

  /** drg_type: the kind of group a code names. */
  function DrgType(adrgName: string): (t: string)
    requires adrgName == KBBZ || |adrgName| >= 3
    ensures t in {"KBBZ", "QY", "surgery", "operation", "internal", "other"}
    ensures t == "KBBZ" <==> adrgName == KBBZ
    ensures t == "QY" <==> adrgName != KBBZ && IsQy(adrgName)
    ensures t == "surgery" <==> adrgName != KBBZ && !IsQy(adrgName) && adrgName[1] in SurgeryLetters
    ensures t == "operation" <==> adrgName != KBBZ && !IsQy(adrgName) && adrgName[1] in OperationLetters
    ensures t == "internal" <==> adrgName != KBBZ && !IsQy(adrgName) && adrgName[1] in InternalLetters
    ensures t == "other" <==>
              adrgName != KBBZ && !IsQy(adrgName)
              && adrgName[1] !in SurgeryLetters && adrgName[1] !in OperationLetters && adrgName[1] !in InternalLetters
  {
    if adrgName == KBBZ then "KBBZ"
    else
      LetterKindsDisjoint(adrgName[1]);
      if IsQy(adrgName) then "QY"
      else if adrgName[1] in SurgeryLetters then "surgery"
      else if adrgName[1] in OperationLetters then "operation"
      else if adrgName[1] in InternalLetters then "internal"
      else "other"
  }

  /** The second letter of the code is read only when the case has a valid operation. */
  predicate QyReady(c: DrgCase, adrgName: string, allOptList: set<string>)
  {
    adrgName == KBBZ || !c.IsValidSurgery(allOptList) || |adrgName| >= 2
  }

  /** qy_judge: a case whose principal procedure is a valid operation but which landed in a
      medical group goes to the QY group of the same category instead. */
  function QyJudge(c: DrgCase, adrgName: string, allOptList: set<string>): (r: string)
    requires QyReady(c, adrgName, allOptList)
    ensures adrgName == KBBZ || !c.IsValidSurgery(allOptList) ==> r == adrgName
    ensures adrgName != KBBZ && c.IsValidSurgery(allOptList) ==>
              && |r| >= 2 && r[0] == adrgName[0] && r[1] !in InternalLetters
              && (adrgName[1] !in InternalLetters ==> r == adrgName)
              && (adrgName[1] in InternalLetters ==> r[1..] == "QY")
  {
    if adrgName == KBBZ then KBBZ
    else if c.IsValidSurgery(allOptList) then
      if adrgName[1] in InternalLetters then adrgName[..1] + "QY" else adrgName
    else adrgName
  }

  /** Rewriting twice is rewriting once. */
  lemma QyJudgeIdempotent(c: DrgCase, adrgName: string, allOptList: set<string>)
    requires QyReady(c, adrgName, allOptList)
    ensures QyReady(c, QyJudge(c, adrgName, allOptList), allOptList)
    ensures QyJudge(c, QyJudge(c, adrgName, allOptList), allOptList) == QyJudge(c, adrgName, allOptList)
  {
  }

  /** After the rewrite, a case with a valid operation is never classified as a medical group. */
  lemma QyJudgeNeverInternal(c: DrgCase, adrgName: string, allOptList: set<string>)
    requires adrgName == KBBZ || |adrgName| >= 3
    requires c.IsValidSurgery(allOptList)
    ensures DrgType(QyJudge(c, adrgName, allOptList)) != "internal"
  {
    var r := QyJudge(c, adrgName, allOptList);
    if adrgName != KBBZ && adrgName[1] in InternalLetters {
      assert r == adrgName[..1] + "QY";
      assert IsQy(r);
    }
  }
}
