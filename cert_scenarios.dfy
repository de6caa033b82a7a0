/** The sequences of calls made by the certificate chain-and-key unit test,
  * each with the outcomes and states the test asserts as its postcondition. */
module CertScenarios {
  import opened Wrappers
  import opened Certs
  import opened CertConfig
  import opened Tiebreak

  const NumTiedCerts := 100
  const AlligatorName := "www.alligator.com"

  /** The registration loop of the tied-certificates sequence: NumTiedCerts
    * distinct chain objects loaded from one certificate, the i-th given
    * priority i in its context, each added to the store. */
  method AddTiedCerts(config: Config, alligator: ChainAndKey, numTiedCerts: nat) returns (tiedCerts: seq<ChainAndKey>)
    requires config.ownership != LibOwned
    modifies config
    ensures |tiedCerts| == numTiedCerts
    ensures forall k :: 0 <= k < numTiedCerts ==> tiedCerts[k] == alligator.(id := k + 1, ctx := Some(k))
    ensures config.chains == old(config.chains) + tiedCerts
    ensures config.ownership == if numTiedCerts == 0 then old(config.ownership) else AppOwned
    ensures config.defaults ==
              if numTiedCerts == 0 || alligator.auth in old(config.defaults) then old(config.defaults)
              else old(config.defaults)[alligator.auth := tiedCerts[0]]
  {
    var priorities := new int[numTiedCerts];
    var tied := new ChainAndKey[numTiedCerts](_ => alligator);
    var i := 0;
    while i < numTiedCerts
      invariant 0 <= i <= numTiedCerts
      invariant forall k :: 0 <= k < i ==> priorities[k] == k
      invariant forall k :: 0 <= k < i ==> tied[k] == alligator.(id := k + 1, ctx := Some(priorities[k]))
      invariant config.ownership == if i == 0 then old(config.ownership) else AppOwned
      invariant config.ownership != LibOwned
      invariant config.chains == old(config.chains) + tied[..i]
      invariant config.defaults ==
                  if i == 0 || alligator.auth in old(config.defaults) then old(config.defaults)
                  else old(config.defaults)[alligator.auth := tied[0]]
    {
      tied[i] := alligator.(id := i + 1);
      priorities[i] := i;
      tied[i] := tied[i].(ctx := Some(priorities[i]));
      var r := config.AddCertChainAndKeyToStore(tied[i]);
      assert tied[..i + 1] == tied[..i] + [tied[i]];
      i := i + 1;
    }
    tiedCerts := tied[..];
    assert tied[..i] == tiedCerts;
  }

  /** The tied-certificates sequence: one chain under another name is added to
    * the store first, then the numTiedCerts tied chains; selecting the shared
    * name then runs the callback numTiedCerts - 1 times and picks the last
    * chain added, whose priority is numTiedCerts - 1. */
  method TiedCertsScenario(defaultCert: ChainAndKey, alligator: ChainAndKey, numTiedCerts: nat)
    returns (tiedCerts: seq<ChainAndKey>, calls: nat, selected: Option<ChainAndKey>)
    requires numTiedCerts > 0
    requires AlligatorName !in defaultCert.names && AlligatorName in alligator.names
    ensures |tiedCerts| == numTiedCerts
    ensures calls == numTiedCerts - 1
    ensures selected == Some(tiedCerts[numTiedCerts - 1])
    ensures selected.value.ctx == Some(numTiedCerts - 1)
  {
    var config := new Config();
    var cb := new TiebreakCallback();
    var r := config.AddCertChainAndKeyToStore(defaultCert);
    tiedCerts := AddTiedCerts(config, alligator, numTiedCerts);
    TiedCandidates(defaultCert, tiedCerts, AlligatorName);
    assert Candidates(config.chains, AlligatorName) == tiedCerts;
    assert HasPriorities(tiedCerts);
    AscendingLastWins(tiedCerts);
    assert tiedCerts[numTiedCerts - 1].ctx == Some(numTiedCerts - 1);
    ghost var last := tiedCerts[numTiedCerts - 1];
    assert Winner(tiedCerts) == last;
    selected := SelectCert(config, cb, AlligatorName);
    assert selected == Some(last) by {
      if numTiedCerts == 1 {
        assert tiedCerts[0] == last;
      }
    }
    calls := cb.numTimesCbExecuted;
  }

  /** The test's instance: NUM_TIED_CERTS = 100 chains for www.alligator.com;
    * 99 callback runs, and the chain registered last, of priority 99, wins. */
  method AlligatorTiebreak(defaultCert: ChainAndKey, alligator: ChainAndKey)
    returns (tiedCerts: seq<ChainAndKey>, calls: nat, selected: Option<ChainAndKey>)
    requires AlligatorName !in defaultCert.names && AlligatorName in alligator.names
    ensures |tiedCerts| == NumTiedCerts && calls == 99
    ensures selected == Some(tiedCerts[99]) && selected.value.ctx == Some(99)
  {
    tiedCerts, calls, selected := TiedCertsScenario(defaultCert, alligator, NumTiedCerts);
  }

  /** The library-first sequence: a new configuration is not owned; the first
    * library add succeeds and makes it library-owned; a second library add of
    * the same type fails as a duplicate default; a store add then fails as an
    * ownership conflict; the owner stays the library throughout. */
  method LibraryOwnsScenario(chain: ChainAndKey, storeChain: ChainAndKey)
    returns (outcomes: seq<Outcome>, owners: seq<Ownership>)
    ensures outcomes == [Success, Failure(ErrMultipleDefaultCertificatesPerAuthType), Failure(ErrCertOwnership)]
    ensures owners == [NotOwned, LibOwned, LibOwned, LibOwned]
  {
    var config := new Config();
    owners := [config.ownership];
    var r1 := config.AddCertChainAndKey(chain);
    owners := owners + [config.ownership];
    var r2 := config.AddCertChainAndKey(chain);
    owners := owners + [config.ownership];
    var r3 := config.AddCertChainAndKeyToStore(storeChain);
    owners := owners + [config.ownership];
    outcomes := [r1, r2, r3];
  }

  /** The store-first sequence: a new configuration is not owned; the first
    * store add makes it application-owned; adding the same chain again
    * succeeds; a library add then fails as an ownership conflict; the owner
    * stays the application throughout. */
  method ApplicationOwnsScenario(chain: ChainAndKey, libChain: ChainAndKey)
    returns (outcomes: seq<Outcome>, owners: seq<Ownership>)
    ensures outcomes == [Success, Success, Failure(ErrCertOwnership)]
    ensures owners == [NotOwned, AppOwned, AppOwned, AppOwned]
  {
    var config := new Config();
    owners := [config.ownership];
    var r1 := config.AddCertChainAndKeyToStore(chain);
    owners := owners + [config.ownership];
    var r2 := config.AddCertChainAndKeyToStore(chain);
    owners := owners + [config.ownership];
    var r3 := config.AddCertChainAndKey(libChain);
    owners := owners + [config.ownership];
    outcomes := [r1, r2, r3];
  }
}
