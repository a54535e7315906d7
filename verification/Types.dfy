/** Byte-level identities shared by the consensus modules: keys, value ids and signatures. */
module Types {

  newtype byte = x: int | 0 <= x < 256

  function Zeros(n: nat): (s: seq<byte>)
    ensures |s| == n
    ensures forall i :: 0 <= i < n ==> s[i] == 0
  {
    seq(n, _ => 0)
  }

  type Bytes32 = s: seq<byte> | |s| == 32 witness Zeros(32)
  type Bytes64 = s: seq<byte> | |s| == 64 witness Zeros(64)

  datatype Option<+T> = None | Some(value: T)

  datatype PubKey = PubKey(bytes: Bytes32)
  datatype ValueId = ValueId(bytes: Bytes32)
  datatype Sig = Sig(bytes: Bytes64)

  const NIL_ID: ValueId := ValueId(Zeros(32))
  const NIL_SIG: Sig := Sig(Zeros(64))
}
