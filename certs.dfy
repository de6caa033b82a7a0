/** Certificates, certificate chains and chain-and-key pairs.
  *
  * A loaded chain is a singly linked list of certificates, leaf first:
  * leaf -> intermediate(s) -> root, where the root's `next` is null. The list
  * is modelled as a sequence of per-certificate info records; the node at
  * index i links to index i + 1, and the last node links to nothing.
  */
module Certs {
  import opened Wrappers

  /** Opaque identifiers (signature NID, digest NID, authentication type). */
  type Nid = nat
  type AuthType = nat

  /** The info record every certificate of a loaded chain carries. */
  datatype CertInfo = CertInfo(selfSigned: bool, signatureNid: Nid, signatureDigestNid: Nid)

  /** A chain-and-key object: its identity (the object's address), its
    * certificates leaf first, the authentication type of its key, the server
    * names it covers, and the caller's context slot (an int priority when set). */
  datatype ChainAndKey = ChainAndKey(
    id: nat,
    certs: seq<CertInfo>,
    auth: AuthType,
    names: set<string>,
    ctx: Option<int>)

  /** The `next` pointer of the certificate at index i: the following node,
    * or null (None) for the last one. */
  function Next(certs: seq<CertInfo>, i: nat): (r: Option<nat>)
    requires i < |certs|
    ensures r.Some? <==> i + 1 < |certs|
    ensures r.Some? ==> r.value < |certs| && r.value == i + 1
  {
    if i + 1 < |certs| then Some(i + 1) else None
  }

  /** The node reached from the head after `hops` steps along `next`
    * (None once a null `next` has been followed). */
  function Follow(certs: seq<CertInfo>, hops: nat): (r: Option<nat>)
    requires |certs| > 0
    ensures r.Some? ==> r.value < |certs|
  {
    if hops == 0 then Some(0)
    else match Follow(certs, hops - 1)
      case None => None
      case Some(i) => Next(certs, i)
  }

  /** Walking the list from the head visits node k after exactly k hops, and
    * the root's `next` is null: the linked list holds exactly |certs| nodes. */
  lemma {:induction false} FollowVisitsInOrder(certs: seq<CertInfo>, hops: nat)
    requires |certs| > 0
    ensures hops < |certs| ==> Follow(certs, hops) == Some(hops)
    ensures hops >= |certs| ==> Follow(certs, hops) == None
  {
    if hops > 0 {
      FollowVisitsInOrder(certs, hops - 1);
    }
  }

  /** Every certificate except the root is issued by another one; only the
    * root may be self-signed, and in a chain loaded with its root it is. */
  predicate RootedChain(certs: seq<CertInfo>)
  {
    |certs| > 0 &&
    certs[|certs| - 1].selfSigned &&
    forall i :: 0 <= i < |certs| - 1 ==> !certs[i].selfSigned
  }

  /** Every certificate of the chain is signed with the same algorithm. */
  predicate UniformSignature(certs: seq<CertInfo>, sigNid: Nid, digestNid: Nid)
  {
    forall i :: 0 <= i < |certs| ==>
      certs[i].signatureNid == sigNid && certs[i].signatureDigestNid == digestNid
  }

  /** Finds the root by following `next` pointers from the leaf until a null
    * one, counting the hops. */
  method FindRoot(certs: seq<CertInfo>) returns (root: nat, hops: nat)
    requires |certs| > 0
    ensures root == |certs| - 1 && hops == |certs| - 1
    ensures Follow(certs, hops) == Some(root) && Next(certs, root) == None
    ensures RootedChain(certs) ==> certs[root].selfSigned
  {
    root, hops := 0, 0;
    var next := Next(certs, root);
    while next.Some?
      invariant root < |certs| && hops == root
      invariant Follow(certs, hops) == Some(root)
      invariant next == Next(certs, root)
      decreases |certs| - root
    {
      root, hops := next.value, hops + 1;
      next := Next(certs, root);
    }
  }

  /** The node-by-node shape the server test asserts for the chain it loads.
    * Loading is not modelled: the chain's shape (three nodes, only the root
    * self-signed, one signature algorithm) is assumed here, not derived from
    * certificate data. From it follow what the test checks along the `next`
    * pointers: leaf and intermediate not self-signed, a non-null root that is
    * self-signed with a null `next`, and the same signature and digest ids on
    * each. (The test's non-null check after reaching the root names the
    * intermediate again; `Follow(certs, 2) == Some(2)` is the check on the
    * root that it evidently means.) */
  lemma LoadedServerChainShape(certs: seq<CertInfo>, sigNid: Nid, digestNid: Nid)
    requires |certs| == 3 && RootedChain(certs) && UniformSignature(certs, sigNid, digestNid)
    ensures Follow(certs, 0) == Some(0) && !certs[0].selfSigned
    ensures Follow(certs, 1) == Some(1) && !certs[1].selfSigned
    ensures Follow(certs, 2) == Some(2) && certs[2].selfSigned
    ensures Follow(certs, 3) == None
    ensures forall i :: 0 <= i < 3 ==>
      certs[i].signatureNid == sigNid && certs[i].signatureDigestNid == digestNid
  {
  }
}
