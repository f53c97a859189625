/** Byte strings, and how a transfer cuts them into pieces. */
module Bytes {
  type Byte = b: int | 0 <= b < 0x100

  type Bytes = seq<Byte>

  /** A hash function, as hexadecimal text. */
  type Hash = Bytes -> string

  const FILE_CHUNK_BYTES: nat := 256 * 1024
  const MAX_FILE_BYTES: nat := 50 * 1024 * 1024

  function Flatten(pieces: seq<Bytes>): Bytes {
    if pieces == [] then [] else Flatten(pieces[..|pieces| - 1]) + pieces[|pieces| - 1]
  }

  /** Pieces of at most FILE_CHUNK_BYTES bytes, in order. */
  function Cut(bytes: Bytes): seq<Bytes> {
    if bytes == [] then []
    else if |bytes| <= FILE_CHUNK_BYTES then [bytes]
    else [bytes[..FILE_CHUNK_BYTES]] + Cut(bytes[FILE_CHUNK_BYTES..])
  }

  lemma ThreeJoin(a: Bytes, b: Bytes, c: Bytes)
    ensures (a + b) + c == a + (b + c)
  {
  }

  lemma FlattenOne(pieces: seq<Bytes>, piece: Bytes)
    ensures Flatten(pieces + [piece]) == Flatten(pieces) + piece
  {
    assert (pieces + [piece])[..|pieces|] == pieces;
  }

  lemma {:induction false} FlattenAppend(a: seq<Bytes>, b: seq<Bytes>)
    ensures Flatten(a + b) == Flatten(a) + Flatten(b)
    decreases |b|
  {
    if b == [] {
      assert a + b == a;
    } else {
      assert (a + b)[..|a + b| - 1] == a + b[..|b| - 1];
      FlattenAppend(a, b[..|b| - 1]);
    }
  }

  lemma FlattenHead(pieces: seq<Bytes>)
    requires pieces != []
    ensures Flatten(pieces) == pieces[0] + Flatten(pieces[1..])
  {
    FlattenAppend([pieces[0]], pieces[1..]);
    assert pieces == [pieces[0]] + pieces[1..];
    assert Flatten([pieces[0]]) == Flatten([]) + pieces[0];
  }

  /** Any first pieces flatten to a prefix. */
  lemma FlattenPrefix(pieces: seq<Bytes>, k: nat)
    requires k <= |pieces|
    ensures Flatten(pieces[..k]) <= Flatten(pieces)
  {
    FlattenAppend(pieces[..k], pieces[k..]);
    assert pieces == pieces[..k] + pieces[k..];
  }

  /** Cutting loses nothing, and every piece fits a frame and holds something. */
  lemma {:induction false} CutKeepsAll(bytes: Bytes)
    ensures Flatten(Cut(bytes)) == bytes
    ensures forall piece :: piece in Cut(bytes) ==> 0 < |piece| <= FILE_CHUNK_BYTES
    decreases |bytes|
  {
    if |bytes| > FILE_CHUNK_BYTES {
      var rest := bytes[FILE_CHUNK_BYTES..];
      CutKeepsAll(rest);
      FlattenHead(Cut(bytes));
      assert Cut(bytes)[1..] == Cut(rest);
    } else if bytes != [] {
      FlattenOne([], bytes);
      assert [] + [bytes] == [bytes];
    }
  }
}
