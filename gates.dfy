/** Fail-fast validation: a list of checks, each with the reason reported when it
    fails, where the first failing check decides the outcome. Both the handshake
    and the message relay are instances of this shape. */
module Gates {
  import opened Common

  datatype Check = Check(passes: bool, reason: string)

  /** Check `k` is the first one that fails. */
  predicate FirstFailing(cs: seq<Check>, k: nat) {
    k < |cs| && !cs[k].passes && forall j :: 0 <= j < k ==> cs[j].passes
  }

  /** The reason of the first failing check, or None when every check passes. */
  function FirstFailure(cs: seq<Check>): (r: Option<string>)
    ensures r.None? <==> forall i :: 0 <= i < |cs| ==> cs[i].passes
  {
    if cs == [] then None
    else if !cs[0].passes then Some(cs[0].reason)
    else FirstFailure(cs[1..])
  }

  /** The first failing check, and no later one, is the one reported. */
  lemma {:induction false} FirstFailureReportsFirst(cs: seq<Check>, k: nat)
    requires FirstFailing(cs, k)
    ensures FirstFailure(cs) == Some(cs[k].reason)
  {
    if k > 0 {
      assert cs[0].passes;
      assert FirstFailing(cs[1..], k - 1) by {
        forall j | 0 <= j < k - 1 ensures cs[1..][j].passes {
          assert cs[1..][j] == cs[j + 1];
        }
      }
      FirstFailureReportsFirst(cs[1..], k - 1);
    }
  }
}
