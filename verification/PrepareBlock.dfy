/** Preparing an L1 block's deposits for the payload builder: two lists that must stay aligned. */
module PrepareBlock {
  import opened Prelude
  import opened Deposits
  import opened DepositQueue

  /** A proof that the sequencer shares a secret with a deposit's ephemeral key. */
  datatype DecryptionData = DecryptionData(sharedSecret: Hash, parity: nat, s: Hash, c: Hash)

  datatype Opened = Opened(to: L1Address, proof: DecryptionData)

  /** Stands in for a proof when the ephemeral key is invalid. */
  const ZEROED: DecryptionData := DecryptionData(ZERO_HASH, 0x02, ZERO_HASH, ZERO_HASH)

  datatype QueuedDeposit = QueuedDeposit(data: DepositData, rejected: bool)

  datatype Prepared = Prepared(queued: seq<QueuedDeposit>, decryptions: seq<DecryptionData>)

  /**
    What the sequencer's key and the policy lookup answer: decryption of a deposit, whether a
    token may be minted to a recipient (or a lookup failure), and the bare shared-secret proof.
   */
  datatype Oracles = Oracles(decrypt: EncryptedDeposit -> Option<Opened>,
                             authorized: (L1Address, L1Address) -> Option<bool>,
                             prove: EncryptedDeposit -> Option<DecryptionData>)

  // ---- what becomes of a deposit ---------------------------------------------------------

  datatype Fate = Minted | Bounced | Proved(proof: DecryptionData) | LookupFailed

  function FateOf(o: Oracles, d: L1Deposit): Fate {
    match d
    case Regular(_) => Minted
    case Encrypted(e) =>
      match o.decrypt(e)
      case Some(plain) =>
        (match o.authorized(e.token, plain.to)
         case None => LookupFailed
         case Some(true) => Proved(plain.proof)
         case Some(false) => Bounced)
      case None =>
        match o.prove(e)
        case Some(proof) => Proved(proof)
        case None => Proved(ZEROED)
  }

  /** Positions of the queued deposits for which the inbox takes a decryption, in order. */
  function Open(queued: seq<QueuedDeposit>): seq<nat> {
    if queued == [] then []
    else
      var last := |queued| - 1;
      Open(queued[..last]) + (if queued[last].data.EncryptedData? && !queued[last].rejected then [last] else [])
  }

  ghost predicate OpenPositions(queued: seq<QueuedDeposit>, open: seq<nat>) {
    && (forall k :: 0 <= k < |open| ==>
          open[k] < |queued| && queued[open[k]].data.EncryptedData? && !queued[open[k]].rejected)
    && (forall j, k :: 0 <= j < k < |open| ==> open[j] < open[k])
    && (forall i :: 0 <= i < |queued| && queued[i].data.EncryptedData? && !queued[i].rejected ==> i in open)
  }

  lemma {:induction false} OpenIsExact(queued: seq<QueuedDeposit>)
    ensures OpenPositions(queued, Open(queued))
  {
    if queued != [] {
      var last := |queued| - 1;
      OpenIsExact(queued[..last]);
      var open := Open(queued[..last]);
      assert forall i :: 0 <= i < last && queued[i].data.EncryptedData? && !queued[i].rejected ==>
                           queued[..last][i] == queued[i] && i in open;
      forall i | 0 <= i < |queued| && queued[i].data.EncryptedData? && !queued[i].rejected ensures i in Open(queued) {
        if i < last {
          assert i in open;
        }
      }
    }
  }

  /**
    One queued deposit per deposit, in order and with its data; only bounced ones are rejected,
    regular ones never; and the k-th decryption belongs to the k-th deposit that needs one.
   */
  ghost predicate AlignedWith(o: Oracles, ds: seq<L1Deposit>, p: Prepared) {
    && |p.queued| == |ds|
    && (forall i :: 0 <= i < |ds| ==> p.queued[i] == QueuedDeposit(DataOf(ds[i]), FateOf(o, ds[i]).Bounced?))
    && |p.decryptions| == |Open(p.queued)|
    && (forall k :: 0 <= k < |p.decryptions| ==>
          Open(p.queued)[k] < |ds| && FateOf(o, ds[Open(p.queued)[k]]) == Proved(p.decryptions[k]))
  }

  lemma AlignStep(o: Oracles, ds: seq<L1Deposit>, p: Prepared, d: L1Deposit)
    requires AlignedWith(o, ds, p) && !FateOf(o, d).LookupFailed?
    ensures var q := QueuedDeposit(DataOf(d), FateOf(o, d).Bounced?);
            var proofs := if FateOf(o, d).Proved? then [FateOf(o, d).proof] else [];
            AlignedWith(o, ds + [d], Prepared(p.queued + [q], p.decryptions + proofs))
  {
    var q := QueuedDeposit(DataOf(d), FateOf(o, d).Bounced?);
    assert (p.queued + [q])[..|p.queued|] == p.queued;
  }

  /** Only an encrypted deposit that decrypts to a recipient the policy refuses is rejected. */
  predicate Refused(o: Oracles, d: L1Deposit) {
    && d.Encrypted? && o.decrypt(d.sealed).Some?
    && o.authorized(d.sealed.token, o.decrypt(d.sealed).value.to) == Some(false)
  }

  /** The policy cannot be looked up for the recipient a deposit decrypts to. */
  predicate PolicyUnknown(o: Oracles, d: L1Deposit) {
    && d.Encrypted? && o.decrypt(d.sealed).Some?
    && o.authorized(d.sealed.token, o.decrypt(d.sealed).value.to) == None
  }

  /** The proof handed over for a deposit: of its decryption, or of the shared secret alone, or none. */
  predicate ProofFor(o: Oracles, e: EncryptedDeposit, proof: DecryptionData) {
    && (o.decrypt(e).Some? ==> proof == o.decrypt(e).value.proof)
    && (o.decrypt(e).None? && o.prove(e).Some? ==> proof == o.prove(e).value)
    && (o.decrypt(e).None? && o.prove(e).None? ==>
          proof.sharedSecret == 0 && proof.parity == 2 && proof.s == 0 && proof.c == 0)
  }

  /** The data of a deposit, field by field; fees are not part of it. */
  predicate CarriesData(d: L1Deposit, x: DepositData) {
    match d
    case Regular(p) =>
      && x.RegularData? && x.token == p.token && x.sender == p.sender && x.to == p.to && x.amount == p.amount
      && x.bouncebackRecipient == p.bouncebackRecipient && x.memo == p.memo
    case Encrypted(e) =>
      && x.EncryptedData? && x.token == e.token && x.sender == e.sender && x.amount == e.amount
      && x.bouncebackRecipient == e.bouncebackRecipient && x.keyIndex == e.keyIndex
      && x.ephemeralX == e.ephemeralX && x.ephemeralParity == e.ephemeralParity
      && x.ciphertext == e.ciphertext && x.nonce == e.nonce && x.tag == e.tag
  }

  /**
    What the two lists say, in terms of the answers of key and policy: the i-th queued deposit
    carries the i-th deposit and is rejected exactly when the policy refuses its recipient, and
    the k-th decryption is the proof for the k-th encrypted deposit that is not rejected.
   */
  ghost predicate TellsTheTruth(o: Oracles, ds: seq<L1Deposit>, p: Prepared) {
    && |p.queued| == |ds|
    && (forall i :: 0 <= i < |ds| ==> CarriesData(ds[i], p.queued[i].data))
    && (forall i :: 0 <= i < |ds| ==> (p.queued[i].rejected <==> Refused(o, ds[i])))
    && |p.decryptions| == |Open(p.queued)|
    && (forall k :: 0 <= k < |p.decryptions| ==>
          var i := Open(p.queued)[k];
          i < |ds| && ds[i].Encrypted? && ProofFor(o, ds[i].sealed, p.decryptions[k]))
  }

  lemma AlignedTellsTheTruth(o: Oracles, ds: seq<L1Deposit>, p: Prepared)
    requires AlignedWith(o, ds, p)
    ensures TellsTheTruth(o, ds, p)
  {
    forall k | 0 <= k < |p.decryptions|
      ensures var i := Open(p.queued)[k];
              i < |ds| && ds[i].Encrypted? && ProofFor(o, ds[i].sealed, p.decryptions[k])
    {
      var i := Open(p.queued)[k];
      assert FateOf(o, ds[i]) == Proved(p.decryptions[k]);
    }
  }

  /** The loop over deposits; a failed policy lookup aborts the whole preparation. */
  method Prepare(o: Oracles, ds: seq<L1Deposit>) returns (r: Option<Prepared>)
    ensures r.Some? ==> AlignedWith(o, ds, r.value) && TellsTheTruth(o, ds, r.value)
    ensures r.None? <==> exists i :: 0 <= i < |ds| && PolicyUnknown(o, ds[i])
  {
    var p := Prepared([], []);
    for i := 0 to |ds|
      invariant AlignedWith(o, ds[..i], p)
      invariant forall j :: 0 <= j < i ==> !PolicyUnknown(o, ds[j])
    {
      hide AlignedWith, TellsTheTruth;
      assert ds[..i + 1] == ds[..i] + [ds[i]];
      var d := ds[i];
      match d
      case Regular(_) =>
        AlignStep(o, ds[..i], p, d);
        assert p.decryptions + [] == p.decryptions;
        p := p.(queued := p.queued + [QueuedDeposit(DataOf(d), false)]);
      case Encrypted(e) =>
        var plain := o.decrypt(e);
        if plain.Some? {
          var authorized := o.authorized(e.token, plain.value.to);
          if authorized.None? {
            assert PolicyUnknown(o, ds[i]);
            return None;
          }
          AlignStep(o, ds[..i], p, d);
          if !authorized.value {
            assert p.decryptions + [] == p.decryptions;
            p := p.(queued := p.queued + [QueuedDeposit(DataOf(d), true)]);
            continue;
          }
          p := Prepared(p.queued + [QueuedDeposit(DataOf(d), false)], p.decryptions + [plain.value.proof]);
          continue;
        }
        AlignStep(o, ds[..i], p, d);
        var proof := o.prove(e);
        if proof.Some? {
          p := Prepared(p.queued + [QueuedDeposit(DataOf(d), false)], p.decryptions + [proof.value]);
          continue;
        }
        p := Prepared(p.queued + [QueuedDeposit(DataOf(d), false)], p.decryptions + [ZEROED]);
    }
    assert ds[..|ds|] == ds;
    AlignedTellsTheTruth(o, ds, p);
    hide AlignedWith, TellsTheTruth;
    return Some(p);
  }

  // ---- the hash chain over prepared data -------------------------------------------------

  /** The chain as the inbox recomputes it, from queued data alone. */
  function ChainOverQueued(h: ChainHash, prev: Hash, queued: seq<QueuedDeposit>): Hash {
    if queued == [] then prev else h(queued[|queued| - 1].data, ChainOverQueued(h, prev, queued[..|queued| - 1]))
  }

  /** Folding the queued data from the value before the block gives the value after it. */
  lemma {:induction false} PreparedChain(h: ChainHash, prev: Hash, ds: seq<L1Deposit>, queued: seq<QueuedDeposit>)
    requires |queued| == |ds| && forall i :: 0 <= i < |ds| ==> queued[i].data == DataOf(ds[i])
    ensures ChainOverQueued(h, prev, queued) == ChainOver(h, prev, ds)
  {
    if ds != [] {
      PreparedChain(h, prev, ds[..|ds| - 1], queued[..|queued| - 1]);
    }
  }

  /** For any block waiting in the queue, its prepared data leads from its before value to its after value. */
  lemma PreparedMatchesQueue(h: ChainHash, q: Queue, i: nat, o: Oracles, p: Prepared)
    requires QueueOk(h, q) && i < |q.pending| && AlignedWith(o, q.pending[i].block.deposits, p)
    ensures ChainOverQueued(h, q.pending[i].before, p.queued) == q.pending[i].after
  {
    assert ChainedAt(h, q, i);
    PreparedChain(h, q.pending[i].before, q.pending[i].block.deposits, p.queued);
  }
}
