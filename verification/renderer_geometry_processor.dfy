/** The geometry shader's constant registers (src/Renderer/GeometryProcessor.hpp and .cpp):
    float4 rows `c`, int4 rows `i` and booleans `b`, written by bounds-checked setters.
 */
module RendererGeometryProcessor {

  /** VERTEX_UNIFORM_VECTORS of the renderer's configuration. */
  const VertexUniformVectors: nat := 259

  /** Rows of `i` and entries of `b`. */
  const IntegerRegisters: nat := 16
  const BooleanRegisters: nat := 16

  /** A float carried as its 32-bit IEEE-754 pattern: the setters copy floats, never compute
      with them. The pattern 0 is +0.0. */
  type FloatBits = bv32

  newtype int32 = x: int | -0x8000_0000 <= x < 0x8000_0000

  /** How a setter ends: it wrote, or it hit `ASSERT(false)` on an out-of-range index
      and wrote nothing. */
  datatype Outcome = Written | OutOfRange

  /** The register file as a value: `c`, `i` and `b` row by row. */
  datatype Registers = Registers(c: seq<seq<FloatBits>>, i: seq<seq<int32>>, b: seq<bool>)

  const ZeroRow: seq<FloatBits> := [0, 0, 0, 0]

  /** The declared array sizes: VERTEX_UNIFORM_VECTORS + 1 float4 rows, 16 int4 rows,
      16 booleans. */
  predicate Shaped(r: Registers) {
    |r.c| == VertexUniformVectors + 1 && (forall k | 0 <= k < |r.c| :: |r.c[k]| == 4) &&
    |r.i| == IntegerRegisters && (forall k | 0 <= k < |r.i| :: |r.i[k]| == 4) &&
    |r.b| == BooleanRegisters
  }

  /** The extra row `c[VERTEX_UNIFORM_VECTORS]` holds {0, 0, 0, 0}. */
  predicate ReservedRowZero(r: Registers)
    requires Shaped(r)
  {
    r.c[VertexUniformVectors] == ZeroRow
  }

  predicate WellFormed(r: Registers) {
    Shaped(r) && ReservedRowZero(r)
  }

  /** `setFloatConstant` on the value: row `index` becomes `value` when it is one of the
      VERTEX_UNIFORM_VECTORS settable rows; any other index writes nothing. */
  function SetFloat(r: Registers, index: nat, value: seq<FloatBits>): (r': Registers)
    requires Shaped(r) && |value| == 4
    ensures Shaped(r')
    ensures ReservedRowZero(r') == ReservedRowZero(r)
    ensures r'.i == r.i && r'.b == r.b
  {
    if index < VertexUniformVectors then r.(c := r.c[index := value]) else r
  }

  /** `setIntegerConstant` on the value. */
  function SetInteger(r: Registers, index: nat, value: seq<int32>): (r': Registers)
    requires Shaped(r) && |value| == 4
    ensures Shaped(r')
    ensures r'.c == r.c && r'.b == r.b
  {
    if index < IntegerRegisters then r.(i := r.i[index := value]) else r
  }

  /** `setBooleanConstant` on the value: any nonzero integer stores true. */
  function SetBoolean(r: Registers, index: nat, boolean: int32): (r': Registers)
    requires Shaped(r)
    ensures Shaped(r')
    ensures r'.c == r.c && r'.i == r.i
  {
    if index < BooleanRegisters then r.(b := r.b[index := boolean != 0]) else r
  }

  /** What a float write does: exactly row `index` changes, to `value`, when `index` is
      in range; otherwise nothing changes, the reserved row included. */
  lemma SetFloatEffect(r: Registers, index: nat, value: seq<FloatBits>)
    requires Shaped(r) && |value| == 4
    ensures index < VertexUniformVectors ==> SetFloat(r, index, value).c[index] == value
    ensures forall k | 0 <= k < |r.c| && k != index :: SetFloat(r, index, value).c[k] == r.c[k]
    ensures index >= VertexUniformVectors ==> SetFloat(r, index, value) == r
    ensures SetFloat(r, index, value).c[VertexUniformVectors] == r.c[VertexUniformVectors]
  {
  }

  lemma SetIntegerEffect(r: Registers, index: nat, value: seq<int32>)
    requires Shaped(r) && |value| == 4
    ensures index < IntegerRegisters ==> SetInteger(r, index, value).i[index] == value
    ensures forall k | 0 <= k < |r.i| && k != index :: SetInteger(r, index, value).i[k] == r.i[k]
    ensures index >= IntegerRegisters ==> SetInteger(r, index, value) == r
  {
  }

  lemma SetBooleanEffect(r: Registers, index: nat, boolean: int32)
    requires Shaped(r)
    ensures index < BooleanRegisters ==> SetBoolean(r, index, boolean).b[index] == (boolean != 0)
    ensures forall k | 0 <= k < |r.b| && k != index :: SetBoolean(r, index, boolean).b[k] == r.b[k]
    ensures index >= BooleanRegisters ==> SetBoolean(r, index, boolean) == r
  {
  }

  /** Repeating a setter with the same arguments leaves the same registers. */
  lemma SettersIdempotent(r: Registers, index: nat, f: seq<FloatBits>, n: seq<int32>, boolean: int32)
    requires Shaped(r) && |f| == 4 && |n| == 4
    ensures SetFloat(SetFloat(r, index, f), index, f) == SetFloat(r, index, f)
    ensures SetInteger(SetInteger(r, index, n), index, n) == SetInteger(r, index, n)
    ensures SetBoolean(SetBoolean(r, index, boolean), index, boolean) == SetBoolean(r, index, boolean)
  {
  }

  /** Writes to different float rows do not interfere, whichever comes first. */
  lemma SetFloatCommutes(r: Registers, j: nat, f: seq<FloatBits>, k: nat, g: seq<FloatBits>)
    requires Shaped(r) && |f| == 4 && |g| == 4 && j != k
    ensures SetFloat(SetFloat(r, j, f), k, g) == SetFloat(SetFloat(r, k, g), j, f)
  {
  }

  /** The constructor as written initialises only `context`: the registers keep whatever
      the memory held. */
  function ConstructedAsWritten(memory: Registers): Registers {
    memory
  }

  /** So the reserved row is not zero when the memory it is built in was not. */
  lemma AsWrittenReservedRowNotZero()
    ensures exists memory :: Shaped(memory) && !ReservedRowZero(ConstructedAsWritten(memory))
  {
    var memory := Registers(
      seq(VertexUniformVectors + 1, _ => [1, 0, 0, 0]),
      seq(IntegerRegisters, _ => [0, 0, 0, 0]),
      seq(BooleanRegisters, _ => false));
    assert memory.c[VertexUniformVectors][0] == 1;
    assert Shaped(memory) && !ReservedRowZero(ConstructedAsWritten(memory));
  }

  class GeometryProcessor {
    /** `Context *const context`: set by the constructor, never reassigned. */
    const context: object?
    /** float4 c[VERTEX_UNIFORM_VECTORS + 1], as rows of 4 components. */
    const c: array2<FloatBits>
    /** int4 i[16]. */
    const i: array2<int32>
    /** bool b[16]. */
    const b: array<bool>

    ghost predicate Valid()
      reads this, c
    {
      c.Length0 == VertexUniformVectors + 1 && c.Length1 == 4 &&
      i.Length0 == IntegerRegisters && i.Length1 == 4 &&
      b.Length == BooleanRegisters &&
      forall j | 0 <= j < 4 :: c[VertexUniformVectors, j] == 0
    }

    ghost function FloatRow(k: nat): (row: seq<FloatBits>)
      reads this, c
      requires k < c.Length0 && c.Length1 == 4
      ensures |row| == 4
    {
      [c[k, 0], c[k, 1], c[k, 2], c[k, 3]]
    }

    ghost function IntegerRow(k: nat): (row: seq<int32>)
      reads this, i
      requires k < i.Length0 && i.Length1 == 4
      ensures |row| == 4
    {
      [i[k, 0], i[k, 1], i[k, 2], i[k, 3]]
    }

    /** The registers as a value. */
    ghost function Contents(): (r: Registers)
      reads this, c, i, b
      requires Valid()
      ensures WellFormed(r)
    {
      var r := Registers(
        seq(c.Length0, k requires 0 <= k < c.Length0 reads this, c => FloatRow(k)),
        seq(i.Length0, k requires 0 <= k < i.Length0 reads this, i => IntegerRow(k)),
        b[..]);
      assert r.c[VertexUniformVectors] == ZeroRow;
      r
    }

    /** Builds the register file for `context`, with the reserved row zeroed; the other
        registers are left as the fresh storage holds them. */
    constructor (context: object?)
      ensures Valid() && this.context == context
      ensures fresh(c) && fresh(i) && fresh(b)
    {
      this.context := context;
      c := new FloatBits[VertexUniformVectors + 1, 4];
      i := new int32[IntegerRegisters, 4];
      b := new bool[BooleanRegisters];
      new;
      c[VertexUniformVectors, 0] := 0;
      c[VertexUniformVectors, 1] := 0;
      c[VertexUniformVectors, 2] := 0;
      c[VertexUniformVectors, 3] := 0;
    }

    /** `setFloatConstant`. */
    method SetFloatConstant(index: nat, value: seq<FloatBits>) returns (outcome: Outcome)
      requires Valid() && |value| == 4
      modifies c
      ensures Valid()
      ensures outcome == if index < VertexUniformVectors then Written else OutOfRange
      ensures Contents() == SetFloat(old(Contents()), index, value)
    {
      ghost var before := Contents();
      if index < VertexUniformVectors {
        c[index, 0] := value[0];
        c[index, 1] := value[1];
        c[index, 2] := value[2];
        c[index, 3] := value[3];
        outcome := Written;
        assert FloatRow(index) == value;
        assert Contents().c == before.c[index := value];
      } else {
        outcome := OutOfRange;
      }
    }

    /** `setIntegerConstant`. */
    method SetIntegerConstant(index: nat, integer: seq<int32>) returns (outcome: Outcome)
      requires Valid() && |integer| == 4
      modifies i
      ensures Valid()
      ensures outcome == if index < IntegerRegisters then Written else OutOfRange
      ensures Contents() == SetInteger(old(Contents()), index, integer)
    {
      ghost var before := Contents();
      if index < IntegerRegisters {
        i[index, 0] := integer[0];
        i[index, 1] := integer[1];
        i[index, 2] := integer[2];
        i[index, 3] := integer[3];
        outcome := Written;
        assert IntegerRow(index) == integer;
        assert Contents().i == before.i[index := integer];
      } else {
        outcome := OutOfRange;
      }
    }

    /** `setBooleanConstant`. */
    method SetBooleanConstant(index: nat, boolean: int32) returns (outcome: Outcome)
      requires Valid()
      modifies b
      ensures Valid()
      ensures outcome == if index < BooleanRegisters then Written else OutOfRange
      ensures Contents() == SetBoolean(old(Contents()), index, boolean)
    {
      if index < BooleanRegisters {
        b[index] := boolean != 0;
        outcome := Written;
      } else {
        outcome := OutOfRange;
      }
    }
  }
}
