/** Instruction words and their decoding.

    An instruction is one 16-bit word laid out as four 4-bit fields `CXYD`:
    C the operation class, X and Y register indices, D a sub-selector.
    The word is taken apart with masks and shifts, as bit-vector operations;
    each field is then held as an unsigned byte, as the interpreter does. */
module Opcode {

  /** An unsigned 8-bit integer: a register value or a decoded field. */
  newtype uint8 = x: int | 0 <= x < 0x100

  /** The four fields of an instruction word, most significant first. */
  datatype Nibbles = Nibbles(c: uint8, x: uint8, y: uint8, d: uint8)

  /** Splits a word into its four nibbles by masking and shifting. */
  function Decode(opcode: bv16): (n: Nibbles)
    ensures FieldsInRange(n)
  {
    Nibbles((((opcode & 0xF000) >> 12) as bv8) as uint8,
            (((opcode & 0x0F00) >> 8) as bv8) as uint8,
            (((opcode & 0x00F0) >> 4) as bv8) as uint8,
            (((opcode & 0x000F) >> 0) as bv8) as uint8)
  }

  /** The fields of a decoded word are nibbles: each is below 16. */
  predicate FieldsInRange(n: Nibbles)
  {
    n.c < 0x10 && n.x < 0x10 && n.y < 0x10 && n.d < 0x10
  }

  /** The nibbles reconstruct the word exactly: no bit is lost or duplicated
      by the masks and shifts. */
  lemma DecodeValue(opcode: bv16)
    ensures var n := Decode(opcode);
      n.c as int * 0x1000 + n.x as int * 0x100 + n.y as int * 0x10 + n.d as int == opcode as int
  {
  }

  /** Two words with the same four fields are the same word. */
  lemma DecodeInjective(a: bv16, b: bv16)
    requires Decode(a) == Decode(b)
    ensures a == b
  {
    EncodeDecode(a);
    EncodeDecode(b);
  }

  /** Lays four nibbles out as an instruction word, C in the top four bits
      and D in the bottom four: the layout the entry point spells out for
      `0x8014` (class 8, registers 0 and 1, sub-selector 4). */
  function Encode(n: Nibbles): (w: bv16)
    requires FieldsInRange(n)
  {
    Join(n.c as bv8, n.x as bv8, n.y as bv8, n.d as bv8)
  }

  /** The bit-level layout of four nibbles in one word. */
  function Join(c: bv8, x: bv8, y: bv8, d: bv8): bv16
  {
    ((c as bv16) << 12) | ((x as bv16) << 8) | ((y as bv16) << 4) | (d as bv16)
  }

  /** A byte value survives a trip through its bit pattern. */
  lemma ByteBitsRoundTrip(u: uint8)
    ensures (u as bv8) as uint8 == u
  {
  }

  /** A bit pattern survives a trip through its byte value. */
  lemma BitsByteRoundTrip(b: bv8)
    ensures (b as uint8) as bv8 == b
  {
  }

  /** A byte below 16 has a bit pattern below 16. */
  lemma NibbleBits(u: uint8)
    requires u < 0x10
    ensures u as bv8 < 0x10
  {
  }

  /** Joining the masked fields of a word gives the word back. */
  lemma JoinFields(opcode: bv16)
    ensures Join(((opcode & 0xF000) >> 12) as bv8, ((opcode & 0x0F00) >> 8) as bv8,
                 ((opcode & 0x00F0) >> 4) as bv8, ((opcode & 0x000F) >> 0) as bv8) == opcode
  {
  }

  /** Masking the fields of a joined word gives the nibbles back. */
  lemma FieldsOfJoin(c: bv8, x: bv8, y: bv8, d: bv8)
    requires c < 0x10 && x < 0x10 && y < 0x10 && d < 0x10
    ensures var w := Join(c, x, y, d);
      ((w & 0xF000) >> 12) as bv8 == c && ((w & 0x0F00) >> 8) as bv8 == x &&
      ((w & 0x00F0) >> 4) as bv8 == y && ((w & 0x000F) >> 0) as bv8 == d
  {
  }

  /** Encoding the fields of a word gives the word back. */
  lemma EncodeDecode(opcode: bv16)
    ensures Encode(Decode(opcode)) == opcode
  {
    BitsByteRoundTrip(((opcode & 0xF000) >> 12) as bv8);
    BitsByteRoundTrip(((opcode & 0x0F00) >> 8) as bv8);
    BitsByteRoundTrip(((opcode & 0x00F0) >> 4) as bv8);
    BitsByteRoundTrip(((opcode & 0x000F) >> 0) as bv8);
    JoinFields(opcode);
  }

  /** Decoding an encoded word gives the nibbles back. */
  lemma DecodeEncode(n: Nibbles)
    requires FieldsInRange(n)
    ensures Decode(Encode(n)) == n
  {
    NibbleBits(n.c); NibbleBits(n.x); NibbleBits(n.y); NibbleBits(n.d);
    ByteBitsRoundTrip(n.c); ByteBitsRoundTrip(n.x); ByteBitsRoundTrip(n.y); ByteBitsRoundTrip(n.d);
    var c, x, y, d := n.c as bv8, n.x as bv8, n.y as bv8, n.d as bv8;
    FieldsOfJoin(c, x, y, d);
    var w := Join(c, x, y, d);
    assert Encode(n) == w;
    assert Decode(w) == Nibbles(c as uint8, x as uint8, y as uint8, d as uint8);
  }

  /** The outcome of matching the field tuple: the only implemented pattern
      is `8XY4`, add register Y into register X; every other word is
      unimplemented and is kept for the diagnostic. */
  datatype Instruction = Add(x: uint8, y: uint8) | Unimplemented(opcode: bv16)

  /** The match on `(c, x, y, d)`: `(8, _, _, 4)` selects the addition,
      anything else falls to the catch-all arm. */
  function Dispatch(opcode: bv16): (i: Instruction)
    ensures i.Add? ==> i.x < 0x10 && i.y < 0x10
    ensures i.Unimplemented? ==> i.opcode == opcode
  {
    var n := Decode(opcode);
    if n.c == 8 && n.d == 4 then Add(n.x, n.y) else Unimplemented(opcode)
  }

  /** The addition is selected exactly for the words whose top and bottom
      nibbles are 8 and 4, whatever the middle nibbles hold. */
  lemma DispatchByMask(opcode: bv16)
    ensures Dispatch(opcode).Add? <==> opcode & 0xF00F == 0x8004
  {
  }

  /** A word that selects the addition is `0x8004` with the two register
      indices in its middle nibbles. */
  lemma AddWord(opcode: bv16)
    requires Dispatch(opcode).Add?
    ensures var i := Dispatch(opcode);
      opcode as int == 0x8004 + i.x as int * 0x100 + i.y as int * 0x10
  {
  }

  /** Every addition `8XY4` whose indices are nibbles is selected by some
      word: the match leaves no register pair unreachable. */
  lemma AddReachable(x: uint8, y: uint8)
    requires x < 0x10 && y < 0x10
    ensures exists opcode :: Dispatch(opcode) == Add(x, y)
  {
    var n := Nibbles(8, x, y, 4);
    DecodeEncode(n);
    assert Dispatch(Encode(n)) == Add(x, y);
  }
}
