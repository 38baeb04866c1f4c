/**
 Chains of keyed digests, shared by the v21 audit log and the artifact audit chain.

 The keyed hash is a free constructor: `Mac(prev, body)` is the digest of the message that
 joins `prev` to the canonical text of a record. Distinct messages therefore have distinct
 digests and the genesis digest is never the digest of a record. `Raw` stands for any other
 text that somebody may have stored in place of a digest.
 */
module HashChain {

  datatype Digest<C> =
    | Genesis
    | Mac(prev: Digest<C>, body: C)
    | Raw(text: string)

  /** One link: the canonical content of a record and the digest stored with it. */
  datatype Link<C> = Link(body: C, hash: Digest<C>)

  /** The digest stored just before position `i`. */
  function HashBefore<C>(links: seq<Link<C>>, i: nat): Digest<C>
    requires i <= |links|
  {
    if i == 0 then Genesis else links[i - 1].hash
  }

  /** The digest stored at `i` is that of its own content after its predecessor's digest. */
  predicate Joined<C(==)>(links: seq<Link<C>>, i: nat)
    requires i < |links|
  {
    links[i].hash == Mac(HashBefore(links, i), links[i].body)
  }

  predicate Intact<C(==)>(links: seq<Link<C>>) {
    forall i | 0 <= i < |links| :: Joined(links, i)
  }

  /** How many records a digest has absorbed. */
  function Depth<C>(d: Digest<C>): nat {
    match d
    case Mac(prev, _) => 1 + Depth(prev)
    case _ => 0
  }

  /** A digest in an intact chain tells its own position. */
  lemma {:induction false} DepthIsPosition<C>(links: seq<Link<C>>, i: nat)
    requires Intact(links) && i <= |links|
    ensures Depth(HashBefore(links, i)) == i
  {
    if i > 0 {
      assert Joined(links, i - 1);
      DepthIsPosition(links, i - 1);
    }
  }

  /** No digest of an intact chain occurs at two positions: the chain has no cycle. */
  lemma NoCycle<C>(links: seq<Link<C>>, i: nat, j: nat)
    requires Intact(links) && i < j <= |links|
    ensures HashBefore(links, i) != HashBefore(links, j)
  {
    DepthIsPosition(links, i);
    DepthIsPosition(links, j);
  }

  lemma {:induction false} DigestBindsPrefix<C>(a: seq<Link<C>>, b: seq<Link<C>>, n: nat)
    requires Intact(a) && Intact(b) && n <= |a| && n <= |b|
    requires HashBefore(a, n) == HashBefore(b, n)
    ensures forall i | 0 <= i < n :: a[i] == b[i]
  {
    if n > 0 {
      assert Joined(a, n - 1) && Joined(b, n - 1);
      DigestBindsPrefix(a, b, n - 1);
    }
  }

  /** The last digest of an intact chain determines the whole chain. */
  lemma LastDigestBinds<C>(a: seq<Link<C>>, b: seq<Link<C>>)
    requires Intact(a) && Intact(b)
    requires HashBefore(a, |a|) == HashBefore(b, |b|)
    ensures a == b
  {
    DepthIsPosition(a, |a|);
    DepthIsPosition(b, |b|);
    DigestBindsPrefix(a, b, |a|);
  }
}
