/** The program tree the inspector walks: a CLVM value is either an atom (a
    byte string) or a pair of two values. Decoding serialized bytes into a
    tree, back-references included, is done by the clvmr library and is not
    part of this model; every operation here starts from a decoded tree. */
module Clvm {
  import opened Hex

  datatype Node = Atom(bytes: seq<byte>) | Pair(left: Node, right: Node)

  /** The quote operator's encoding: the one-byte atom 0x01. */
  const QuoteAtom: seq<byte> := [1]

  /** Every atom occurring in a tree. */
  function Atoms(n: Node): set<seq<byte>>
  {
    match n
    case Atom(b) => {b}
    case Pair(l, r) => Atoms(l) + Atoms(r)
  }
}
