/**
 Values shared by every part of the replica: digests, signatures, certificates and the four
 consensus messages, with the digest and verification rules of each message.

 Hashing is ideal: a digest is a term that names what was hashed, so digests are injective, never
 equal to the default hash, and never contain themselves.  Proposals, votes and timeouts hash byte
 strings of different fixed lengths, so their digests never coincide either.  Signatures are ideal:
 a signature verifies for a key and a digest exactly when it is that key's signature of that digest.
 */
module Types {

  datatype Option<+T> = None | Some(value: T)

  /** A public key.  The weight beside it in the source's authority list is never read. */
  type Authority = nat

  type View = nat

  datatype HotstuffError =
    | AuthorityReuse(who: Authority)
    | InsufficientQuorum
    | InvalidSignature(who: Authority)
    | NullSignature
    | UnknownAuthority(who: Authority)
    | NotAuthority
    | WrongProposer
    | ExpiredVote
    | InvalidTC
    | ClientError

  /** Result<(), HotstuffError> */
  datatype Outcome = Pass | Fail(error: HotstuffError)

  /** Result<T, HotstuffError> */
  datatype Result<+T> = Success(value: T) | Failure(error: HotstuffError)

  datatype Digest =
    | Zero                                   // the default hash
    | EmptyPayload                           // hash of the empty-payload marker
    | BlockHash(id: nat)                     // hash of a Substrate block header
    | OfProposal(author: Authority, payload: Payload, view: View, parent: Digest)
    | OfVote(proposal: Digest, view: View)   // also the digest of a QC
    | OfTimeout(view: View, highQCView: View)

  datatype Payload = Payload(blockHash: Digest, blockNumber: nat)

  datatype Signature = Sig(signer: Authority, digest: Digest) | Garbage(bytes: nat)

  predicate SignatureVerifies(s: Signature, d: Digest, who: Authority) {
    s == Sig(who, d)
  }

  /** One line of a certificate: who signed, the signature, and the digest it must match. */
  datatype Ballot = Ballot(who: Authority, sig: Signature, digest: Digest)

  /** Quorum certificate. */
  datatype QC = QC(proposalHash: Digest, view: View, votes: seq<(Authority, Signature)>) {
    function Digest(): Digest { OfVote(proposalHash, view) }

    /** Equality of certificates in the source ignores the votes. */
    predicate IsDefault() { proposalHash == Zero && view == 0 }

    function Ballots(): seq<Ballot> {
      seq(|votes|, i requires 0 <= i < |votes| => Ballot(votes[i].0, votes[i].1, Digest()))
    }
  }

  const DEFAULT_QC := QC(Zero, 0, [])

  /** Timeout certificate; the third component of a vote is read as the signed high-QC view. */
  datatype TC = TC(view: View, votes: seq<(Authority, Signature, View)>) {
    function Ballots(): seq<Ballot> {
      seq(|votes|, i requires 0 <= i < |votes| =>
        Ballot(votes[i].0, votes[i].1, OfTimeout(view, votes[i].2)))
    }
  }

  datatype Proposal = Proposal(
    qc: QC,
    tc: Option<TC>,
    payload: Payload,
    view: View,
    author: Authority,
    signature: Option<Signature>)
  {
    function Digest(): Digest { OfProposal(author, payload, view, qc.proposalHash) }
  }

  datatype Vote = Vote(proposalHash: Digest, view: View, voter: Authority, signature: Option<Signature>) {
    function Digest(): Digest { OfVote(proposalHash, view) }
  }

  datatype Timeout = Timeout(highQC: QC, view: View, voter: Authority, signature: Option<Signature>) {
    function Digest(): Digest { OfTimeout(view, highQC.view) }
  }

  datatype Message =
    | ProposeMsg(proposal: Proposal)
    | VoteMsg(vote: Vote)
    | TimeoutMsg(timeout: Timeout)
    | TCMsg(tc: TC)
    | SyncRequest(hash: Digest, who: Authority)
    | Phantom

  /** A best block waiting for finality. */
  datatype BlockInfo = BlockInfo(hash: Option<Digest>, number: nat)
}
