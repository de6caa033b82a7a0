/** The certificate-ownership guard of a configuration.
  *
  * Two entry points register a chain-and-key on a configuration:
  *  - the library API (`s2n_config_add_cert_chain_and_key`): the library builds
  *    the chain from PEM text and owns it; at most one such chain per
  *    authentication type, since the library frees exactly its default chains;
  *  - the store API (`s2n_config_add_cert_chain_and_key_to_store`): the
  *    application built the chain and keeps owning it; any number may be added.
  * The first successful call fixes which API owns the configuration's chains,
  * and from then on the other API is refused.
  */
module CertConfig {
  import opened Certs

  datatype Ownership = NotOwned | LibOwned | AppOwned

  datatype Api = LibraryApi | StoreApi

  datatype Error = ErrCertOwnership | ErrMultipleDefaultCertificatesPerAuthType

  datatype Outcome = Success | Failure(error: Error)

  /** One registration call: which API, with which chain-and-key. */
  datatype AddCall = AddCall(api: Api, chain: ChainAndKey)

  /** The registration state of a configuration: who owns its chains, the
    * default chain of each authentication type, and every chain registered,
    * in registration order. */
  datatype ConfigState = ConfigState(
    ownership: Ownership,
    defaults: map<AuthType, ChainAndKey>,
    chains: seq<ChainAndKey>)

  /** A configuration fresh from `s2n_config_new`. */
  const NewConfig := ConfigState(NotOwned, map[], [])

  /** The ownership a successful call through `api` establishes. */
  function OwnerOf(api: Api): Ownership
  {
    match api
    case LibraryApi => LibOwned
    case StoreApi => AppOwned
  }

  /** The ownership state that makes `api` a mixing of APIs. */
  function RivalOf(api: Api): Ownership
  {
    match api
    case LibraryApi => AppOwned
    case StoreApi => LibOwned
  }

  /** The consistency of a configuration's registration state:
    * - no chain is registered while nobody owns them;
    * - each default slot holds a registered chain of its own type;
    * - when the library owns the chains, every one of them is the default of
    *   its type, so freeing the defaults on teardown frees them all. */
  ghost predicate Valid(s: ConfigState)
  {
    (s.ownership == NotOwned <==> s.chains == []) &&
    (s.ownership == NotOwned ==> s.defaults == map[]) &&
    (forall a :: a in s.defaults ==> s.defaults[a].auth == a && s.defaults[a] in s.chains) &&
    (s.ownership == LibOwned ==>
      forall i :: 0 <= i < |s.chains| ==>
        s.chains[i].auth in s.defaults && s.defaults[s.chains[i].auth] == s.chains[i])
  }

  /** Registration shared by both APIs: append the chain to the store, and make
    * it the default of its type if that slot is empty. */
  function Register(s: ConfigState, c: ChainAndKey, owner: Ownership): (r: ConfigState)
    ensures r.ownership == owner && r.chains == s.chains + [c]
    ensures c.auth in r.defaults && r.defaults[c.auth] == (if c.auth in s.defaults then s.defaults[c.auth] else c)
    ensures forall a :: a != c.auth ==> (a in r.defaults <==> a in s.defaults)
    ensures forall a :: a != c.auth && a in s.defaults ==> r.defaults[a] == s.defaults[a]
  {
    var defaults := if c.auth in s.defaults then s.defaults else s.defaults[c.auth := c];
    ConfigState(owner, defaults, s.chains + [c])
  }

  /** `s2n_config_add_cert_chain_and_key`: refused on an application-owned
    * configuration; refused when a default of the chain's type exists; otherwise
    * registers the chain as that default and makes the library the owner. */
  function AddChainAndKey(s: ConfigState, c: ChainAndKey): (r: (ConfigState, Outcome))
    ensures r.1 == Failure(ErrCertOwnership) <==> s.ownership == AppOwned
    ensures r.1 == Failure(ErrMultipleDefaultCertificatesPerAuthType) <==>
              s.ownership != AppOwned && c.auth in s.defaults
    ensures r.1.Failure? ==> r.0 == s
    ensures r.1.Success? ==>
              r.0.ownership == LibOwned && r.0.chains == s.chains + [c] &&
              r.0.defaults == s.defaults[c.auth := c]
  {
    if s.ownership == AppOwned then (s, Failure(ErrCertOwnership))
    else if c.auth in s.defaults then (s, Failure(ErrMultipleDefaultCertificatesPerAuthType))
    else (Register(s, c, LibOwned), Success)
  }

  /** `s2n_config_add_cert_chain_and_key_to_store`: refused on a library-owned
    * configuration; otherwise always registers the chain (even one already
    * registered) and makes the application the owner. */
  function AddChainAndKeyToStore(s: ConfigState, c: ChainAndKey): (r: (ConfigState, Outcome))
    ensures r.1.Failure? <==> s.ownership == LibOwned
    ensures r.1.Failure? ==> r.1.error == ErrCertOwnership && r.0 == s
    ensures r.1.Success? ==>
              r.0.ownership == AppOwned && r.0.chains == s.chains + [c] &&
              c.auth in r.0.defaults
    ensures r.1.Success? ==>
              r.0.defaults == if c.auth in s.defaults then s.defaults else s.defaults[c.auth := c]
  {
    if s.ownership == LibOwned then (s, Failure(ErrCertOwnership))
    else (Register(s, c, AppOwned), Success)
  }

  /** Dispatches one registration call to its API. */
  function Apply(s: ConfigState, call: AddCall): (r: (ConfigState, Outcome))
  {
    match call.api
    case LibraryApi => AddChainAndKey(s, call.chain)
    case StoreApi => AddChainAndKeyToStore(s, call.chain)
  }

  /** Either API fails with the ownership error exactly when the configuration
    * is owned through the other one; a failed call changes nothing, and a
    * successful one leaves the configuration owned through its API. */
  lemma ApplyGuard(s: ConfigState, call: AddCall)
    ensures Apply(s, call).1 == Failure(ErrCertOwnership) <==> s.ownership == RivalOf(call.api)
    ensures Apply(s, call).1.Failure? ==> Apply(s, call).0 == s
    ensures Apply(s, call).1.Success? ==> Apply(s, call).0.ownership == OwnerOf(call.api)
  {
  }

  /** Every registration call keeps the configuration consistent. */
  lemma ApplyKeepsValid(s: ConfigState, call: AddCall)
    requires Valid(s)
    ensures Valid(Apply(s, call).0)
  {
  }

  /** The state after a sequence of registration calls, made in order. */
  function Run(s: ConfigState, calls: seq<AddCall>): ConfigState
    decreases |calls|
  {
    if calls == [] then s
    else Run(Apply(s, calls[0]).0, calls[1..])
  }

  /** The outcome of the call at position i of a sequence of calls. */
  function OutcomeAt(s: ConfigState, calls: seq<AddCall>, i: nat): Outcome
    requires i < |calls|
  {
    Apply(Run(s, calls[..i]), calls[i]).1
  }

  lemma {:induction false} RunAppend(s: ConfigState, a: seq<AddCall>, b: seq<AddCall>)
    ensures Run(s, a + b) == Run(Run(s, a), b)
    decreases |a|
  {
    if a == [] {
      assert a + b == b;
    } else {
      assert (a + b)[1..] == a[1..] + b;
      RunAppend(Apply(s, a[0]).0, a[1..], b);
    }
  }

  /** Any sequence of registration calls keeps a consistent state consistent. */
  lemma {:induction false} RunKeepsValid(s: ConfigState, calls: seq<AddCall>)
    requires Valid(s)
    ensures Valid(Run(s, calls))
    decreases |calls|
  {
    if calls != [] {
      ApplyKeepsValid(s, calls[0]);
      RunKeepsValid(Apply(s, calls[0]).0, calls[1..]);
    }
  }

  /** Once a configuration is owned, no sequence of calls changes its owner. */
  lemma {:induction false} OwnershipIsFinal(s: ConfigState, calls: seq<AddCall>)
    requires s.ownership != NotOwned
    ensures Run(s, calls).ownership == s.ownership
    decreases |calls|
  {
    if calls != [] {
      ApplyGuard(s, calls[0]);
      OwnershipIsFinal(Apply(s, calls[0]).0, calls[1..]);
    }
  }

  /** The two APIs are never mixed: on any configuration, two calls of a
    * sequence that both succeed went through the same API. */
  lemma NeverMixed(s: ConfigState, calls: seq<AddCall>, i: nat, j: nat)
    requires i < j < |calls|
    requires OutcomeAt(s, calls, i).Success? && OutcomeAt(s, calls, j).Success?
    ensures calls[i].api == calls[j].api
  {
    var before := Run(s, calls[..i]);
    var after := Apply(before, calls[i]).0;
    ApplyGuard(before, calls[i]);
    assert calls[..j] == calls[..i] + [calls[i]] + calls[i + 1..j];
    RunAppend(s, calls[..i] + [calls[i]], calls[i + 1..j]);
    RunAppend(s, calls[..i], [calls[i]]);
    assert Run(before, [calls[i]]) == after;
    OwnershipIsFinal(after, calls[i + 1..j]);
    ApplyGuard(Run(s, calls[..j]), calls[j]);
  }

  /** A configuration object: its ownership guard, its default chain per
    * authentication type, and the store of registered chains. */
  class Config {
    var ownership: Ownership
    var defaults: map<AuthType, ChainAndKey>
    var chains: seq<ChainAndKey>

    ghost function State(): ConfigState
      reads this
    {
      ConfigState(ownership, defaults, chains)
    }

    /** `s2n_config_new`: nothing registered, nobody owns the chains. */
    constructor ()
      ensures State() == NewConfig && Valid(State())
      ensures ownership == NotOwned
    {
      ownership := NotOwned;
      defaults := map[];
      chains := [];
    }

    /** Library API: the configuration takes ownership of the chain. */
    method AddCertChainAndKey(c: ChainAndKey) returns (r: Outcome)
      modifies this
      ensures (State(), r) == AddChainAndKey(old(State()), c)
      ensures r.Failure? ==> ownership == old(ownership)
      ensures r.Success? ==> ownership == LibOwned
      ensures Valid(old(State())) ==> Valid(State())
    {
      if ownership == AppOwned {
        return Failure(ErrCertOwnership);
      }
      if c.auth in defaults {
        return Failure(ErrMultipleDefaultCertificatesPerAuthType);
      }
      defaults := defaults[c.auth := c];
      chains := chains + [c];
      ownership := LibOwned;
      r := Success;
      if Valid(old(State())) {
        ApplyKeepsValid(old(State()), AddCall(LibraryApi, c));
      }
    }

    /** Store API: the application keeps ownership of the chain. */
    method AddCertChainAndKeyToStore(c: ChainAndKey) returns (r: Outcome)
      modifies this
      ensures (State(), r) == AddChainAndKeyToStore(old(State()), c)
      ensures r.Failure? ==> ownership == old(ownership)
      ensures r.Success? ==> ownership == AppOwned
      ensures Valid(old(State())) ==> Valid(State())
    {
      if ownership == LibOwned {
        return Failure(ErrCertOwnership);
      }
      if c.auth !in defaults {
        defaults := defaults[c.auth := c];
      }
      chains := chains + [c];
      ownership := AppOwned;
      r := Success;
      if Valid(old(State())) {
        ApplyKeepsValid(old(State()), AddCall(StoreApi, c));
      }
    }
  }
}
