/**
 * The stream layer that WorkflowStatus writes to and reads from.
 *
 * java.io.DataOutput/DataInput are modelled as a sequence of tokens. The
 * primitives the status uses directly, writeInt and writeLong, are spelled out
 * byte by byte (big-endian two's complement, as the DataOutput contract
 * prescribes). The two codecs that belong to other classes, Hadoop's
 * Text.writeString/readString and WorkflowID.write/readFields, are kept
 * opaque: each emits one token that its reader gives back unchanged.
 *
 * A reader takes the remaining input and returns the value together with the
 * input that is left after it; running out of input, or meeting a token of
 * another kind, is a decode error (None).
 */
module DataIO {

  datatype Option<T> = None | Some(value: T)

  /** The workflow identifier; its own encoding is not part of this model. */
  type WorkflowId(==)

  type UInt8 = b: int | 0 <= b < 256

  const INT_MIN: int := -0x8000_0000
  const INT_MAX: int := 0x7fff_ffff
  const LONG_MIN: int := -0x8000_0000_0000_0000
  const LONG_MAX: int := 0x7fff_ffff_ffff_ffff

  /** Java's int and long. */
  type Int32 = x: int | INT_MIN <= x <= INT_MAX
  type Int64 = x: int | LONG_MIN <= x <= LONG_MAX

  datatype Token =
    | Octet(b: UInt8)              // one byte written by a DataOutput primitive
    | Text(s: string)              // one string written by Text.writeString
    | Id(id: WorkflowId)           // one identifier written by WorkflowID.write

  /** The four bytes of a 32-bit pattern, high byte first. */
  function Octets4(u: int): (ts: seq<Token>)
    requires 0 <= u < 0x1_0000_0000
  {
    [Octet(u / 0x100_0000 % 256), Octet(u / 0x1_0000 % 256), Octet(u / 0x100 % 256), Octet(u % 256)]
  }

  /** Four bytes at the head of the input are a 32-bit pattern, high byte first. */
  predicate HasOctets4(input: seq<Token>)
  {
    |input| >= 4 && input[0].Octet? && input[1].Octet? && input[2].Octet? && input[3].Octet?
  }

  /** The 32-bit pattern of the four bytes at the head of the input. */
  function Value4(input: seq<Token>): (u: int)
    requires HasOctets4(input)
    ensures 0 <= u < 0x1_0000_0000
  {
    input[0].b * 0x100_0000 + input[1].b * 0x1_0000 + input[2].b * 0x100 + input[3].b
  }

  /** DataOutput.writeInt: the 32-bit pattern of x, high byte first. */
  function WriteInt(x: Int32): (ts: seq<Token>)
  {
    Octets4(x % 0x1_0000_0000)
  }

  /** DataInput.readInt: four bytes, high byte first, as a signed int; fails unless four bytes follow. */
  function ReadInt(input: seq<Token>): (r: Option<(Int32, seq<Token>)>)
    ensures r.Some? <==> HasOctets4(input)
    ensures r.Some? ==> r.value.1 == input[4..]
  {
    if HasOctets4(input) then
      var u := Value4(input);
      Some((if u < 0x8000_0000 then u else u - 0x1_0000_0000, input[4..]))
    else
      None
  }

  /** DataOutput.writeLong: the 64-bit pattern of x, high byte first, that is its high half and then its low half. */
  function WriteLong(x: Int64): (ts: seq<Token>)
  {
    var u := x % 0x1_0000_0000_0000_0000;
    Octets4(u / 0x1_0000_0000) + Octets4(u % 0x1_0000_0000)
  }

  /** DataInput.readLong: eight bytes, high byte first, as a signed long; fails unless eight bytes follow. */
  function ReadLong(input: seq<Token>): (r: Option<(Int64, seq<Token>)>)
    ensures r.Some? <==> HasOctets4(input) && HasOctets4(input[4..])
    ensures r.Some? ==> r.value.1 == input[8..]
  {
    if HasOctets4(input) && HasOctets4(input[4..]) then
      var u := Value4(input) * 0x1_0000_0000 + Value4(input[4..]);
      Some((if u < 0x8000_0000_0000_0000 then u else u - 0x1_0000_0000_0000_0000, input[8..]))
    else
      None
  }

  /** Text.writeString, kept opaque. */
  function WriteString(s: string): (ts: seq<Token>)
  {
    [Text(s)]
  }

  /** WorkflowID.write, kept opaque. */
  function WriteId(id: WorkflowId): (ts: seq<Token>)
  {
    [Id(id)]
  }

  /** Text.readString, kept opaque: fails unless a string token follows. */
  function ReadString(input: seq<Token>): (r: Option<(string, seq<Token>)>)
    ensures r.Some? <==> (|input| > 0 && input[0].Text?)
    ensures r.Some? ==> input[0] == Text(r.value.0) && r.value.1 == input[1..]
  {
    if |input| > 0 && input[0].Text? then Some((input[0].s, input[1..])) else None
  }

  /** WorkflowID.readFields, kept opaque: fails unless an identifier token follows. */
  function ReadId(input: seq<Token>): (r: Option<(WorkflowId, seq<Token>)>)
    ensures r.Some? <==> (|input| > 0 && input[0].Id?)
    ensures r.Some? ==> input[0] == Id(r.value.0) && r.value.1 == input[1..]
  {
    if |input| > 0 && input[0].Id? then Some((input[0].id, input[1..])) else None
  }

  /** The four bytes of a 32-bit pattern, high first, weighted back together, give the pattern. */
  lemma FourBytes(u: int)
    requires 0 <= u < 0x1_0000_0000
    ensures u / 0x100_0000 % 256 * 0x100_0000 + u / 0x1_0000 % 256 * 0x1_0000
            + u / 0x100 % 256 * 0x100 + u % 256 == u
  {
    var q1 := u / 0x100;
    var q2 := q1 / 0x100;
    var q3 := q2 / 0x100;
    assert u == q1 * 0x100 + u % 0x100;
    assert q1 == q2 * 0x100 + q1 % 0x100;
    assert q2 == q3 * 0x100 + q2 % 0x100;
    assert u / 0x1_0000 == q2;
    assert u / 0x100_0000 == q3;
    assert q3 < 0x100;
  }

  /** The four bytes of a 32-bit pattern read back give the pattern. */
  lemma Value4OfOctets4(u: int, rest: seq<Token>)
    requires 0 <= u < 0x1_0000_0000
    ensures HasOctets4(Octets4(u) + rest) && Value4(Octets4(u) + rest) == u
  {
    FourBytes(u);
  }

  /** Four bytes read as a pattern and written again are the same four bytes. */
  lemma Octets4OfValue4(input: seq<Token>)
    requires HasOctets4(input)
    ensures Octets4(Value4(input)) == input[..4]
  {
    var b0: int, b1: int, b2: int, b3: int := input[0].b, input[1].b, input[2].b, input[3].b;
    var u := Value4(input);
    assert u / 0x100 == b0 * 0x1_0000 + b1 * 0x100 + b2;
    assert u / 0x1_0000 == b0 * 0x100 + b1;
    assert u / 0x100_0000 == b0;
    var written := Octets4(u);
    assert written[0] == input[0] && written[1] == input[1];
    assert written[2] == input[2] && written[3] == input[3];
  }

  /** readInt gives back what writeInt wrote, and leaves what follows. */
  lemma ReadIntOfWriteInt(x: Int32, rest: seq<Token>)
    ensures ReadInt(WriteInt(x) + rest) == Some((x, rest))
  {
    Value4OfOctets4(x % 0x1_0000_0000, rest);
    assert (WriteInt(x) + rest)[4..] == rest;
  }

  /** readInt accepts only what writeInt can produce: four bytes determine the int and are determined by it. */
  lemma WriteIntOfReadInt(input: seq<Token>)
    requires ReadInt(input).Some?
    ensures WriteInt(ReadInt(input).value.0) + ReadInt(input).value.1 == input
  {
    var x := ReadInt(input).value.0;
    assert (x as int) % 0x1_0000_0000 == Value4(input);
    Octets4OfValue4(input);
    assert input == input[..4] + input[4..];
  }

  /** readLong gives back what writeLong wrote, and leaves what follows. */
  lemma ReadLongOfWriteLong(x: Int64, rest: seq<Token>)
    ensures ReadLong(WriteLong(x) + rest) == Some((x, rest))
  {
    var u := x % 0x1_0000_0000_0000_0000;
    var high, low := u / 0x1_0000_0000, u % 0x1_0000_0000;
    var input := WriteLong(x) + rest;
    assert input == Octets4(high) + (Octets4(low) + rest);
    assert input[4..] == Octets4(low) + rest;
    Value4OfOctets4(high, Octets4(low) + rest);
    Value4OfOctets4(low, rest);
    assert u == high * 0x1_0000_0000 + low;
    assert (if u < 0x8000_0000_0000_0000 then u else u - 0x1_0000_0000_0000_0000) == x;
    assert input[8..] == rest;
  }

  /** readLong accepts only what writeLong can produce: eight bytes determine the long and are determined by it. */
  lemma WriteLongOfReadLong(input: seq<Token>)
    requires ReadLong(input).Some?
    ensures WriteLong(ReadLong(input).value.0) + ReadLong(input).value.1 == input
  {
    var high, low := Value4(input), Value4(input[4..]);
    var u := high * 0x1_0000_0000 + low;
    var x := ReadLong(input).value.0;
    assert (x as int) % 0x1_0000_0000_0000_0000 == u;
    assert u / 0x1_0000_0000 == high && u % 0x1_0000_0000 == low;
    Octets4OfValue4(input);
    Octets4OfValue4(input[4..]);
    assert input[4..][..4] == input[4..8];
    assert input == input[..4] + input[4..8] + input[8..];
  }

  /** Text.readString gives back the string Text.writeString wrote, and leaves what follows. */
  lemma ReadStringOfWriteString(s: string, rest: seq<Token>)
    ensures ReadString(WriteString(s) + rest) == Some((s, rest))
  {
  }

  /** WorkflowID.readFields gives back the identifier WorkflowID.write wrote, and leaves what follows. */
  lemma ReadIdOfWriteId(id: WorkflowId, rest: seq<Token>)
    ensures ReadId(WriteId(id) + rest) == Some((id, rest))
  {
  }
}
