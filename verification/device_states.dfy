/** The pipeline state key of the geometry stage (src/Device/GeometryProcessor.hpp):
    the `States` record, its per-slot `Input` descriptors, the `State` record that adds
    a hash word, and an abstract account of the 32-bit words the record occupies in memory.
 */
module DeviceStates {

  /** MAX_INTERFACE_COMPONENTS of the Vulkan configuration: 32 vec4 interface locations. */
  const MaxInterfaceComponents: nat := 32 * 4

  /** Number of `Input` slots, one per group of four interface components. */
  const InputSlots: nat := MaxInterfaceComponents / 4

  /** A VkFormat code, a 32-bit enumeration. */
  type Format = bv32

  /** VK_FORMAT_UNDEFINED. */
  const FormatUndefined: Format := 0

  /** SpirvShader::AttribType. */
  datatype AttribType = Float | Int | UInt | Unused {
    /** The enumerator's numeric value; only Unused lies past ATTRIBTYPE_LAST. */
    function Code(): (n: nat)
      ensures this != Unused <==> n <= AttribTypeLast
      ensures n <= AttribTypeLast + 1
    {
      match this
      case Float => 0
      case Int => 1
      case UInt => 2
      case Unused => 3
    }
  }

  /** SpirvShader::ATTRIBTYPE_LAST, taken to alias ATTRIBTYPE_UINT. The header that defines
      it is not part of this model; AttribFieldWide shows that the field width is the same
      if it aliases ATTRIBTYPE_UNUSED instead. */
  const AttribTypeLast: nat := 2

  function Pow2(n: nat): (p: nat)
    ensures p >= 1
  {
    if n == 0 then 1 else 2 * Pow2(n - 1)
  }

  /** The BITS(x) macro: the number of bits needed to hold every value up to x,
      that is, the smallest n with x < 2^n. */
  function Bits(x: nat): (n: nat)
    ensures x < Pow2(n)
    ensures n > 0 ==> Pow2(n - 1) <= x
  {
    if x == 0 then 0 else 1 + Bits(x / 2)
  }

  /** `attribType` is a bit-field of BITS(ATTRIBTYPE_LAST) = 2 bits. */
  type AttribField = bv2

  /** Storing an AttribType into the bit-field: an unsigned bit-field assignment keeps the
      low BITS(ATTRIBTYPE_LAST) bits of the value. */
  function StoreAttribType(t: AttribType): (f: AttribField)
    ensures f as nat == t.Code()
  {
    AttribFieldWide();
    (t.Code() % 4) as bv2
  }

  /** The bit-field is BITS(ATTRIBTYPE_LAST) = 2 bits wide, whether ATTRIBTYPE_LAST is
      ATTRIBTYPE_UINT (2) or ATTRIBTYPE_UNUSED (3); its 4 values hold every AttribType,
      Unused included, so storing one never truncates it (StoreAttribType's contract). */
  lemma AttribFieldWide()
    ensures Bits(AttribTypeLast) == 2 && Bits(AttribTypeLast + 1) == 2
    ensures Pow2(Bits(AttribTypeLast)) == 4
    ensures forall t: AttribType :: t.Code() < Pow2(Bits(AttribTypeLast))
  {
  }

  /** One interface slot: the stream's format and the shader's attribute class. */
  datatype Input = Input(format: Format, attribType: AttribField) {
    /** `operator bool`: the stream contains data, that is, its format is not
        VK_FORMAT_UNDEFINED; a zero-filled slot never does. */
    predicate Present()
      ensures Present() ==> this != ZeroInput
    {
      format != FormatUndefined
    }
  }

  const ZeroInput: Input := Input(FormatUndefined, 0)

  /** The fixed-length `input` array of `States`. */
  type InputArray = s: seq<Input> | |s| == InputSlots witness seq(InputSlots, _ => ZeroInput)

  /** The hashed part of the key; `robustBufferAccess` and `isPoint` are 1-bit fields. */
  datatype States = States(shaderID: bv64, input: InputArray, robustBufferAccess: bool, isPoint: bool)

  /** `State` is `States` plus the hash word, which is not part of the hashed storage. */
  datatype State = State(states: States, hash: bv32)

  /** The `States()` constructor: `Memset(this, 0)` fills the record with zero bytes. */
  function ZeroStates(): (s: States)
    ensures forall j | 0 <= j < WordCount :: Encode(s)[j] == 0
  {
    var s := States(0, seq(InputSlots, _ => ZeroInput), false, false);
    assert forall j | 0 <= j < WordCount :: Encode(s)[j] == 0 by {
      forall j | 0 <= j < WordCount ensures Encode(s)[j] == 0 {
        if 2 <= j < 2 + 2 * InputSlots {
          assert s.input[(j - 2) / 2] == ZeroInput;
        }
      }
    }
    s
  }

  /** A zero-filled record is the only record whose storage is all zero words, and in it
      no slot is present, every attribute class is 0, and both flags are clear. */
  lemma ZeroStorageIsZeroStates(s: States)
    ensures (forall j | 0 <= j < WordCount :: Encode(s)[j] == 0) <==> s == ZeroStates()
    ensures s == ZeroStates() ==>
      s.shaderID == 0 && !s.robustBufferAccess && !s.isPoint &&
      forall k | 0 <= k < InputSlots :: !s.input[k].Present() && s.input[k].attribType == 0
  {
    var z := ZeroStates();
    if forall j | 0 <= j < WordCount :: Encode(s)[j] == 0 {
      forall j | 0 <= j < WordCount ensures Encode(s)[j] == Encode(z)[j] {
      }
      assert Encode(s) == Encode(z);
      EncodeInjective(s, z);
    }
  }

  // ---------------------------------------------------------------------------
  // The storage of a `States` record as 32-bit words. The byte layout is chosen by
  // the compiler; the model fixes one little-endian layout with 8-byte alignment:
  //   word 0, 1          the low and high halves of shaderID
  //   word 2+2k, 3+2k    input[k].format and the unit holding input[k].attribType
  //   word 2+2*slots     the unit holding robustBufferAccess (bit 0) and isPoint (bit 1)
  //   word 3+2*slots     tail padding
  // Bits of a unit outside its bit-fields, and the padding, stay zero from the Memset.
  // ---------------------------------------------------------------------------

  /** sizeof(States) / sizeof(uint32_t). */
  const WordCount: nat := 2 * InputSlots + 4

  const FlagsWord: nat := 2 + 2 * InputSlots

  function Low(x: bv64): bv32 {
    (x & 0xFFFF_FFFF) as bv32
  }

  function High(x: bv64): bv32 {
    (x >> 32) as bv32
  }

  function Flags(robustBufferAccess: bool, isPoint: bool): bv32 {
    (if robustBufferAccess then 1 else 0) | (if isPoint then 2 else 0)
  }

  function Word(s: States, j: nat): bv32
    requires j < WordCount
  {
    if j == 0 then Low(s.shaderID)
    else if j == 1 then High(s.shaderID)
    else if j < FlagsWord then
      var k := (j - 2) / 2;
      if j % 2 == 0 then s.input[k].format else s.input[k].attribType as bv32
    else if j == FlagsWord then Flags(s.robustBufferAccess, s.isPoint)
    else 0
  }

  /** The words `computeHash` reads through its `uint32_t *` view of the record. */
  function Encode(s: States): (w: seq<bv32>)
    ensures |w| == WordCount
  {
    seq(WordCount, j requires 0 <= j < WordCount => Word(s, j))
  }

  /** Slot `k` occupies words 2+2k (format) and 3+2k (attribute class). */
  lemma EncodeSlot(s: States, k: nat)
    requires k < InputSlots
    ensures Encode(s)[2 + 2 * k] == s.input[k].format
    ensures Encode(s)[3 + 2 * k] == s.input[k].attribType as bv32
  {
  }

  /** The shader id occupies words 0 (low half) and 1 (high half). */
  lemma EncodeShaderId(s: States)
    ensures Encode(s)[0] == Low(s.shaderID) && Encode(s)[1] == High(s.shaderID)
  {
  }

  /** An id is its high half shifted up, joined with its low half. */
  lemma SplitJoin(x: bv64)
    ensures (High(x) as bv64 << 32) | Low(x) as bv64 == x
  {
  }

  /** A slot is present exactly when its format word in the storage is nonzero. */
  lemma SlotPresentIffFormatWord(s: States, k: nat)
    requires k < InputSlots
    ensures s.input[k].Present() <==> Encode(s)[2 + 2 * k] != 0
  {
    EncodeSlot(s, k);
  }

  /** Reads one slot back from its two storage words. */
  function DecodeInput(format: bv32, unit: bv32): Input {
    Input(format, (unit & 3) as bv2)
  }

  /** Reads a record back from its storage words. */
  function Decode(w: seq<bv32>): (s: States)
    requires |w| == WordCount
  {
    States(
      (w[1] as bv64 << 32) | w[0] as bv64,
      seq(InputSlots, k requires 0 <= k < InputSlots => DecodeInput(w[2 + 2 * k], w[3 + 2 * k])),
      w[FlagsWord] & 1 != 0,
      w[FlagsWord] & 2 != 0)
  }

  /** Every field of the record can be read back from its storage. */
  lemma DecodeEncode(s: States)
    ensures Decode(Encode(s)) == s
  {
  }

  /** Byte-wise equality of two records' storage is memberwise equality of the records. */
  lemma EncodeInjective(a: States, b: States)
    ensures Encode(a) == Encode(b) <==> a == b
  {
    if Encode(a) == Encode(b) {
      DecodeEncode(a);
      DecodeEncode(b);
    }
  }
}
