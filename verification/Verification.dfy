/** The verification engine: no success without evidence. */
module Verification {

  datatype Verdict = Pending | Passed | Failed | Unknown

  datatype Check = Check(verdict: Verdict, evidence: seq<string>)

  function DeriveVerdict(checks: seq<Check>): Verdict {
    if checks == [] then Unknown
    else if exists c :: c in checks && c.verdict == Failed then Failed
    else if forall c | c in checks :: c.verdict == Passed then Passed
    else Unknown
  }

  function AllEvidence(checks: seq<Check>): seq<string> {
    if checks == [] then [] else checks[0].evidence + AllEvidence(checks[1..])
  }

  function Verify(checks: seq<Check>): Verdict {
    var verdict := DeriveVerdict(checks);
    if verdict == Passed && AllEvidence(checks) == [] then Unknown else verdict
  }

  lemma {:induction false} EvidenceExists(checks: seq<Check>)
    ensures AllEvidence(checks) != [] <==> exists c :: c in checks && c.evidence != []
  {
    if checks != [] {
      EvidenceExists(checks[1..]);
      assert checks == [checks[0]] + checks[1..];
    }
  }

  /** The verdict is "passed" exactly when there are checks, all of them passed, and one of them has evidence. */
  lemma {:induction false} PassedNeedsEvidence(checks: seq<Check>)
    ensures Verify(checks) == Passed <==>
            checks != [] && (forall c | c in checks :: c.verdict == Passed) && exists c :: c in checks
                                                                                 && c.evidence != []
  {
    EvidenceExists(checks);
    if checks != [] { assert checks[0] in checks; }
  }
}
