/** Resolution of several chains registered under the same server name.
  *
  * The configuration's tiebreak callback is given two candidate chains (the
  * current winner first, the next candidate second) and returns one of them;
  * the candidates registered under the requested name are reduced pairwise,
  * left to right in registration order, so the callback runs once fewer than
  * there are candidates. The test callback compares the int priorities stored
  * in the chains' context slots and counts its own invocations.
  */
module Tiebreak {
  import opened Wrappers
  import opened Certs
  import opened CertConfig

  /** Every candidate carries a priority in its context slot (the test callback
    * dereferences both contexts). */
  predicate HasPriorities(cands: seq<ChainAndKey>)
  {
    forall i :: 0 <= i < |cands| ==> cands[i].ctx.Some?
  }

  /** The comparison made by the test callback: keep the chain with the
    * strictly higher priority; on equal priorities keep the second argument. */
  function Prefer(cert1: ChainAndKey, cert2: ChainAndKey): (w: ChainAndKey)
    requires cert1.ctx.Some? && cert2.ctx.Some?
    ensures w == cert1 || w == cert2
    ensures w.ctx.Some?
    ensures w.ctx.value >= cert1.ctx.value && w.ctx.value >= cert2.ctx.value
    ensures cert1.ctx.value == cert2.ctx.value ==> w == cert2
  {
    if cert1.ctx.value > cert2.ctx.value then cert1 else cert2
  }

  /** The result of the left-to-right pairwise reduction of the candidates: one
    * of them, with the highest priority among them. */
  function Winner(cands: seq<ChainAndKey>): (w: ChainAndKey)
    requires |cands| > 0 && HasPriorities(cands)
    ensures w in cands && w.ctx.Some?
    ensures forall i :: 0 <= i < |cands| ==> cands[i].ctx.value <= w.ctx.value
    decreases |cands|
  {
    if |cands| == 1 then cands[0]
    else Prefer(Winner(cands[..|cands| - 1]), cands[|cands| - 1])
  }

  /** The winner is the LAST registered candidate among those of the highest
    * priority: a later candidate of equal priority displaces an earlier one. */
  lemma {:induction false} LastOfHighestWins(cands: seq<ChainAndKey>, k: nat)
    requires |cands| > 0 && HasPriorities(cands) && k < |cands|
    requires forall j :: 0 <= j < |cands| ==> cands[j].ctx.value <= cands[k].ctx.value
    requires forall j :: k < j < |cands| ==> cands[j].ctx.value < cands[k].ctx.value
    ensures Winner(cands) == cands[k]
    decreases |cands|
  {
    var n := |cands|;
    if n > 1 {
      var init := cands[..n - 1];
      if k == n - 1 {
        assert Winner(init).ctx.value <= cands[k].ctx.value;
      } else {
        LastOfHighestWins(init, k);
      }
    }
  }

  /** With strictly ascending priorities the last registered candidate wins. */
  lemma AscendingLastWins(cands: seq<ChainAndKey>)
    requires |cands| > 0 && HasPriorities(cands)
    requires forall i, j :: 0 <= i < j < |cands| ==> cands[i].ctx.value < cands[j].ctx.value
    ensures Winner(cands) == cands[|cands| - 1]
  {
    var k := |cands| - 1;
    forall j | 0 <= j < |cands|
      ensures cands[j].ctx.value <= cands[k].ctx.value
    {
      if j < k {
        assert cands[j].ctx.value < cands[k].ctx.value;
      }
    }
    LastOfHighestWins(cands, k);
  }

  /** The chains registered under `name`, in registration order. */
  function Candidates(chains: seq<ChainAndKey>, name: string): (r: seq<ChainAndKey>)
    ensures |r| <= |chains|
    ensures forall c :: c in r <==> c in chains && name in c.names
  {
    if chains == [] then []
    else (if name in chains[0].names then [chains[0]] else []) + Candidates(chains[1..], name)
  }

  /** Registering more chains extends the candidates of a name by exactly the
    * new chains that carry it. */
  lemma {:induction false} CandidatesAppend(a: seq<ChainAndKey>, b: seq<ChainAndKey>, name: string)
    ensures Candidates(a + b, name) == Candidates(a, name) + Candidates(b, name)
  {
    if a == [] {
      assert a + b == b;
    } else {
      assert (a + b)[0] == a[0];
      assert (a + b)[1..] == a[1..] + b;
      CandidatesAppend(a[1..], b, name);
    }
  }

  /** Chains that all carry the name are all candidates for it, in order. */
  lemma {:induction false} AllCandidates(chains: seq<ChainAndKey>, name: string)
    requires forall i :: 0 <= i < |chains| ==> name in chains[i].names
    ensures Candidates(chains, name) == chains
  {
    if chains != [] {
      AllCandidates(chains[1..], name);
    }
  }

  /** A chain under another name registered before the tied chains is not a
    * candidate: the candidates for the shared name are exactly the tied chains. */
  lemma TiedCandidates(other: ChainAndKey, tied: seq<ChainAndKey>, name: string)
    requires name !in other.names
    requires forall i :: 0 <= i < |tied| ==> name in tied[i].names
    ensures Candidates([other] + tied, name) == tied
  {
    assert Candidates([other], name) == [] by {
      assert [other][1..] == [];
    }
    CandidatesAppend([other], tied, name);
    AllCandidates(tied, name);
  }

  /** The test's tiebreak callback, with its invocation counter. */
  class TiebreakCallback {
    var numTimesCbExecuted: nat

    constructor ()
      ensures numTimesCbExecuted == 0
    {
      numTimesCbExecuted := 0;
    }

    /** `test_cert_tiebreak_cb`: counts the call and keeps the higher priority.
      * The requested name is passed along and not used. */
    method Invoke(cert1: ChainAndKey, cert2: ChainAndKey, name: string) returns (w: ChainAndKey)
      requires cert1.ctx.Some? && cert2.ctx.Some?
      modifies this
      ensures numTimesCbExecuted == old(numTimesCbExecuted) + 1
      ensures w == Prefer(cert1, cert2)
    {
      var priority1 := cert1.ctx.value;
      var priority2 := cert2.ctx.value;
      numTimesCbExecuted := numTimesCbExecuted + 1;
      w := if priority1 > priority2 then cert1 else cert2;
    }
  }

  /** Reduces the candidates through the callback, left to right: exactly one
    * callback invocation per candidate after the first. */
  method ResolveTies(cb: TiebreakCallback, cands: seq<ChainAndKey>, name: string)
    returns (winner: ChainAndKey)
    requires |cands| > 0 && HasPriorities(cands)
    modifies cb
    ensures cb.numTimesCbExecuted == old(cb.numTimesCbExecuted) + |cands| - 1
    ensures winner == Winner(cands)
  {
    winner := cands[0];
    var i := 1;
    while i < |cands|
      invariant 1 <= i <= |cands|
      invariant winner == Winner(cands[..i])
      invariant cb.numTimesCbExecuted == old(cb.numTimesCbExecuted) + i - 1
    {
      assert cands[..i + 1][..i] == cands[..i];
      winner := cb.Invoke(winner, cands[i], name);
      i := i + 1;
    }
    assert cands[..i] == cands;
  }

  /** Selects the chain for a requested server name among the configuration's
    * registered chains: None when no chain is registered under the name (the
    * per-type default is then used, which this model leaves out); the lone
    * candidate, without a callback run, when only one chain carries the name;
    * otherwise the winner of the candidates, after one run per candidate
    * beyond the first. Only a tie needs the candidates' priorities. */
  method SelectCert(config: Config, cb: TiebreakCallback, name: string)
    returns (selected: Option<ChainAndKey>)
    requires |Candidates(config.chains, name)| > 1 ==> HasPriorities(Candidates(config.chains, name))
    modifies cb
    ensures selected.None? <==> Candidates(config.chains, name) == []
    ensures |Candidates(config.chains, name)| == 1 ==> selected == Some(Candidates(config.chains, name)[0])
    ensures |Candidates(config.chains, name)| > 1 ==> selected == Some(Winner(Candidates(config.chains, name)))
    ensures cb.numTimesCbExecuted ==
              old(cb.numTimesCbExecuted) + if selected.None? then 0 else |Candidates(config.chains, name)| - 1
  {
    var cands := Candidates(config.chains, name);
    if cands == [] {
      return None;
    }
    if |cands| == 1 {
      return Some(cands[0]);
    }
    var w := ResolveTies(cb, cands, name);
    selected := Some(w);
  }
}
