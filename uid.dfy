/**
 * Babel's `scope.generateUidIdentifier("loopCounter")`: the first of
 * `_loopCounter`, `_loopCounter2`, `_loopCounter3`, ... that the ledger of
 * names already known to the scope does not hold. The caller adds the
 * returned name to the ledger, so the next request gets another one.
 */
module Uid {
  import opened Digits

  const UidBase := "loopCounter"

  /** The i-th name tried, counting from 1: only the first has no suffix. */
  function Candidate(i: nat): (c: string)
    requires i >= 1
    ensures |c| >= 12 && c[..12] == "_loopCounter"
    ensures c == "_loopCounter" <==> i == 1
  {
    "_" + UidBase + (if i > 1 then Decimal(i) else "")
  }

  /** Different indices give different names. */
  lemma CandidateInjective(i: nat, j: nat)
    requires i >= 1 && j >= 1
    ensures Candidate(i) == Candidate(j) ==> i == j
  {
    if i > 1 && j > 1 && Candidate(i) == Candidate(j) {
      assert Decimal(i) == Candidate(i)[12..];
      assert Decimal(j) == Candidate(j)[12..];
      ParseDecimalOfDecimal(i);
      ParseDecimalOfDecimal(j);
    }
  }

  /** An upper bound on the length of every name in the ledger. */
  ghost function MaxLen(used: set<string>): (m: nat)
    ensures forall x :: x in used ==> |x| <= m
    decreases used
  {
    if used == {} then 0
    else
      var x :| x in used;
      var m := MaxLen(used - {x});
      if |x| > m then |x| else m
  }

  /** The candidate at index 10^MaxLen is longer than every ledger name. */
  lemma CandidateBeyondLedger(used: set<string>)
    ensures Pow10(MaxLen(used)) >= 1
    ensures Candidate(Pow10(MaxLen(used))) !in used
  {
    var k := MaxLen(used);
    var p := Pow10(k);
    DecimalOfPow10Length(k);
    if k > 0 {
      assert p == 10 * Pow10(k - 1);
      assert |Candidate(p)| == 12 + k + 1;
    } else {
      assert |Candidate(p)| == 12;
    }
  }

  /** The index of the first candidate from `i` on that is not in the ledger. */
  function FirstFreeIndex(used: set<string>, i: nat): (j: nat)
    requires i >= 1
    requires forall k :: 1 <= k < i ==> Candidate(k) in used
    ensures j >= i && Candidate(j) !in used
    ensures forall k :: 1 <= k < j ==> Candidate(k) in used
    decreases Pow10(MaxLen(used)) - i
  {
    CandidateBeyondLedger(used);
    if Candidate(i) !in used then i else FirstFreeIndex(used, i + 1)
  }

  /** A name not in the ledger; the same ledger always yields the same name. */
  function GenerateUid(used: set<string>): (name: string)
    ensures name !in used
  {
    Candidate(FirstFreeIndex(used, 1))
  }

  /** The name chosen is the first free candidate: every earlier one was taken. */
  lemma GenerateUidIsFirstFree(used: set<string>)
    ensures exists j :: j >= 1 && GenerateUid(used) == Candidate(j) && forall k :: 1 <= k < j ==> Candidate(k) in used
  {
    var j := FirstFreeIndex(used, 1);
    assert GenerateUid(used) == Candidate(j);
  }

  /** With an empty ledger the name is `_loopCounter`; once that is taken, `_loopCounter2`. */
  lemma GenerateUidFirstNames()
    ensures GenerateUid({}) == "_loopCounter"
    ensures GenerateUid({"_loopCounter"}) == "_loopCounter2"
  {
    assert Candidate(1) == "_loopCounter";
    assert Decimal(2) == "2";
    assert Candidate(2) == "_loopCounter2";
    assert Candidate(1) != "_loopCounter2";
    assert FirstFreeIndex({"_loopCounter"}, 2) == 2;
  }
}
