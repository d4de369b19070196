/** The case record of the grouper: the raw fields of one admission and the two
    derived sets (every diagnosis, every procedure) built when the record is
    constructed. */
module DrgCases {

  /** The distinct elements of a list, as `HashSet::from_iter` collects them. */
  function ElemSet(s: seq<string>): set<string>
  {
    set x | x in s
  }

  /** Building the set from `others` with `principal` pushed at the end gives the
      union of both: the order of the pushes does not matter. */
  lemma PushedElemSet(others: seq<string>, principal: string)
    ensures ElemSet(others + [principal]) == ElemSet(others) + {principal}
  {
    assert forall x :: x in others + [principal] <==> x in others || x == principal;
  }

  /** A list and any permutation of it give the same set. */
  lemma ElemSetPermutation(s: seq<string>, s': seq<string>)
    requires multiset(s) == multiset(s')
    ensures ElemSet(s) == ElemSet(s')
  {
    forall x
      ensures x in s <==> x in s'
    {
      assert x in s <==> x in multiset(s);
      assert x in s' <==> x in multiset(s');
    }
  }

  class DrgCase {
    const id: string
    /** principal diagnosis; "" when the record has none */
    const mainDis: string
    /** principal procedure; "" when the case had no surgery */
    const mainOpt: string
    const otherDis: seq<string>
    const otherOpt: seq<string>
    /** 0 is female, 1 is male; any other value matches neither */
    const sex: int
    /** in years; under one year it is days of life / 365 */
    const age: real
    const weight: int
    /** every diagnosis of the case; the one field updated in place */
    var allDis: set<string>
    /** every procedure of the case, the principal one included even when it is "" */
    const allOpt: set<string>

    /** What construction establishes: the derived sets are the principal code plus the others. */
    ghost predicate Valid()
      reads this
    {
      && allDis == ElemSet(otherDis) + {mainDis}
      && allOpt == ElemSet(otherOpt) + {mainOpt}
    }

    constructor (admissionNumber: string, principalDiagnosis: string, principalOperation: string,
                 otherDiagnosis: seq<string>, otherOperation: seq<string>,
                 gender: int, years: real, mass: int)
      ensures id == admissionNumber && mainDis == principalDiagnosis && mainOpt == principalOperation
      ensures otherDis == otherDiagnosis && otherOpt == otherOperation
      ensures sex == gender && age == years && weight == mass
      ensures allDis == ElemSet(otherDiagnosis) + {principalDiagnosis}
      ensures allOpt == ElemSet(otherOperation) + {principalOperation}
      ensures Valid()
    {
      id := admissionNumber;
      mainDis := principalDiagnosis;
      mainOpt := principalOperation;
      otherDis := otherDiagnosis;
      otherOpt := otherOperation;
      sex := gender;
      age := years;
      weight := mass;
      // the principal code is pushed onto a copy of each list before it is collected
      allDis := ElemSet(otherDiagnosis + [principalDiagnosis]);
      allOpt := ElemSet(otherOperation + [principalOperation]);
      PushedElemSet(otherDiagnosis, principalDiagnosis);
      PushedElemSet(otherOperation, principalOperation);
    }

    predicate NoMainDiagnosis() { mainDis == "" }

    predicate NoSurgery() { mainOpt == "" }

    predicate NoOtherSurgery() { |otherOpt| == 0 }

    predicate NoOtherDiagnosis() { |otherDis| == 0 }

    /** The principal procedure is in the given list (the caller passes the global procedure list). */
    predicate IsValidSurgery(allList: set<string>) { mainOpt in allList }

    /** Inserts the principal diagnosis and then every other diagnosis into `allDis`. */
    method ConcatDis()
      modifies this`allDis
      ensures allDis == old(allDis) + {mainDis} + ElemSet(otherDis)
      ensures {mainDis} + ElemSet(otherDis) <= allDis
      ensures old(Valid()) ==> allDis == old(allDis) && Valid()
    {
      var tempDis := otherDis;
      allDis := allDis + {mainDis};
      var i := 0;
      while i < |tempDis|
        invariant 0 <= i <= |tempDis|
        invariant allDis == old(allDis) + {mainDis} + ElemSet(tempDis[..i])
      {
        assert tempDis[..i + 1] == tempDis[..i] + [tempDis[i]];
        PushedElemSet(tempDis[..i], tempDis[i]);
        allDis := allDis + {tempDis[i]};
        i := i + 1;
      }
      assert tempDis[..i] == tempDis;
    }
  }

  /** What the queries say about the derived sets of a constructed case. */
  lemma CaseQueries(c: DrgCase, allList: set<string>)
    requires c.Valid()
    ensures c.NoOtherDiagnosis() ==> c.allDis == {c.mainDis}
    ensures c.NoOtherSurgery() ==> c.allOpt == {c.mainOpt}
    ensures c.NoMainDiagnosis() ==> "" in c.allDis
    ensures c.NoSurgery() ==> "" in c.allOpt
    ensures c.IsValidSurgery(allList) ==> !(c.allOpt !! allList)
    ensures c.IsValidSurgery(allList) && "" !in allList ==> !c.NoSurgery()
  {
    if c.IsValidSurgery(allList) {
      assert c.mainOpt in c.allOpt;
    }
  }

  /** A second ConcatDis changes nothing: the state the first one leaves is a fixed point.
      A corollary of ConcatDis's postcondition, stated once for the set it describes. */
  lemma ConcatDisIdempotent(allDis: set<string>, mainDis: string, otherDis: seq<string>)
    ensures var once := allDis + {mainDis} + ElemSet(otherDis);
            once + {mainDis} + ElemSet(otherDis) == once
  {
  }
}
