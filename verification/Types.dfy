/** Values shared by the whole model: block identifiers, votes, validators and ideal signatures. */
module Types {

  newtype byte = x: int | 0 <= x < 256

  type Bytes = seq<byte>

  datatype Option<+T> = None | Some(value: T)

  const HASH_SIZE: nat := 32

  const MAX_INT32: int := 0x7fff_ffff

  const U32: nat := 0x1_0000_0000

  /** Positions (height, round, step) in the order they are reached. */
  predicate LexLe(h: int, r: int, s: int, h': int, r': int, s': int) {
    h < h' || (h == h' && (r < r' || (r == r' && s <= s')))
  }

  predicate LexLt(h: int, r: int, s: int, h': int, r': int, s': int) {
    h < h' || (h == h' && (r < r' || (r == r' && s < s')))
  }

  lemma Inhabited<T>(s: seq<T>)
    ensures s != [] ==> exists x :: x in s
  {
    if s != [] { assert s[0] in s; }
  }

  datatype PartSetHeader = PartSetHeader(total: nat, hash: Bytes)

  const ZERO_PARTS := PartSetHeader(0, [])

  /** `BlockID.Key()` is injective on validated identifiers, so the identifier itself serves as the key. */
  datatype BlockID = BlockID(hash: Bytes, parts: PartSetHeader) {
    predicate IsZero() { hash == [] && parts == ZERO_PARTS }

    predicate IsComplete() { |hash| == HASH_SIZE && parts.total > 0 && |parts.hash| == HASH_SIZE }
  }

  const NIL_BLOCK := BlockID([], ZERO_PARTS)

  datatype VoteType = Prepare | Commit

  /** What a key signs. Validator address, index and signature are not part of the signed bytes. */
  datatype SignBytes =
    | VoteBytes(chainID: string, kind: VoteType, height: int, round: int, blockID: BlockID, time: int)
    | ProposalBytes(chainID: string, height: int, round: int, polRound: int, blockID: BlockID, time: int)

  datatype Vote = Vote(kind: VoteType, height: int, round: int, blockID: BlockID, time: int,
                       address: Bytes, index: int, signature: Bytes) {
    function SignBytes(chainID: string): SignBytes {
      VoteBytes(chainID, kind, height, round, blockID, time)
    }
  }

  /** A public key together with the address derived from it. */
  datatype PubKey = PubKey(address: Bytes, material: Bytes)

  datatype Validator = Validator(address: Bytes, pubKey: PubKey, power: real)

  /** One signature that exists: `key` signed `msg`, giving `signature`. */
  datatype SigFact = SigFact(key: PubKey, msg: SignBytes, signature: Bytes)

  /** Ideal signature verification: exactly the signatures that were made verify. */
  predicate Verify(scheme: set<SigFact>, key: PubKey, msg: SignBytes, signature: Bytes) {
    SigFact(key, msg, signature) in scheme
  }

  function FindAddress(vals: seq<Validator>, address: Bytes): (index: int)
    ensures index == -1 <==> forall i | 0 <= i < |vals| :: vals[i].address != address
    ensures index != -1 ==> 0 <= index < |vals| && vals[index].address == address
    ensures forall i | 0 <= i < index :: vals[i].address != address
  {
    FindFrom(vals, address, 0)
  }

  function FindFrom(vals: seq<Validator>, address: Bytes, from: nat): (index: int)
    requires from <= |vals|
    requires forall i | 0 <= i < from :: vals[i].address != address
    ensures index == -1 <==> forall i | 0 <= i < |vals| :: vals[i].address != address
    ensures index != -1 ==> 0 <= index < |vals| && vals[index].address == address
    ensures forall i | 0 <= i < index :: vals[i].address != address
    decreases |vals| - from
  {
    if from == |vals| then -1
    else if vals[from].address == address then from
    else FindFrom(vals, address, from + 1)
  }
}
