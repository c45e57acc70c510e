/** L1 deposits and the hash chain over them. The hash itself is a parameter. */
module Deposits {
  import opened Prelude

  type Hash = nat
  type L1Address = nat

  const ZERO_HASH: Hash := 0

  datatype Deposit = Deposit(token: L1Address, sender: L1Address, to: L1Address, amount: u128, fee: u128,
                             bouncebackRecipient: L1Address, memo: Hash)

  datatype EncryptedDeposit = EncryptedDeposit(token: L1Address, sender: L1Address, amount: u128, fee: u128,
                                               bouncebackRecipient: L1Address, keyIndex: nat, ephemeralX: Hash,
                                               ephemeralParity: nat, ciphertext: seq<bv8>, nonce: seq<bv8>,
                                               tag: seq<bv8>)

  datatype L1Deposit = Regular(plain: Deposit) | Encrypted(sealed: EncryptedDeposit)

  /** The ABI form of a deposit, tagged with its type; fees are not part of it. */
  datatype DepositData =
    | RegularData(token: L1Address, sender: L1Address, to: L1Address, amount: u128, bouncebackRecipient: L1Address,
                  memo: Hash)
    | EncryptedData(token: L1Address, sender: L1Address, amount: u128, bouncebackRecipient: L1Address, keyIndex: nat,
                    ephemeralX: Hash, ephemeralParity: nat, ciphertext: seq<bv8>, nonce: seq<bv8>, tag: seq<bv8>)

  function DataOf(d: L1Deposit): DepositData {
    match d
    case Regular(p) => RegularData(p.token, p.sender, p.to, p.amount, p.bouncebackRecipient, p.memo)
    case Encrypted(s) => EncryptedData(s.token, s.sender, s.amount, s.bouncebackRecipient, s.keyIndex, s.ephemeralX,
                                       s.ephemeralParity, s.ciphertext, s.nonce, s.tag)
  }

  /** Digest of a deposit's data together with the previous chain value. */
  type ChainHash = (DepositData, Hash) -> Hash

  function HashChain(h: ChainHash, d: L1Deposit, prev: Hash): Hash {
    h(DataOf(d), prev)
  }

  /** The chain value after a list of deposits. */
  function ChainOver(h: ChainHash, prev: Hash, ds: seq<L1Deposit>): Hash {
    if ds == [] then prev else HashChain(h, ds[|ds| - 1], ChainOver(h, prev, ds[..|ds| - 1]))
  }

  lemma {:induction false} ChainOverConcat(h: ChainHash, prev: Hash, a: seq<L1Deposit>, b: seq<L1Deposit>)
    ensures ChainOver(h, prev, a + b) == ChainOver(h, ChainOver(h, prev, a), b)
  {
    if b == [] {
      assert a + b == a;
    } else {
      assert (a + b)[..|a + b| - 1] == a + b[..|b| - 1];
      ChainOverConcat(h, prev, a, b[..|b| - 1]);
    }
  }
}
