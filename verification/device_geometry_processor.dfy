/** Deriving the geometry stage's pipeline state key from a rendering context, and
    hashing it (src/Device/GeometryProcessor.cpp).
 */
module DeviceGeometryProcessor {
  import opened DeviceStates

  datatype Option<+T> = None | Some(value: T)

  /** VkPrimitiveTopology. */
  datatype Topology =
    | PointList | LineList | LineStrip
    | TriangleList | TriangleStrip | TriangleFan
    | LineListWithAdjacency | LineStripWithAdjacency
    | TriangleListWithAdjacency | TriangleStripWithAdjacency
    | PatchList

  /** The attribute class of each interface component a compiled shader declares as input. */
  type ComponentArray = s: seq<AttribType> | |s| == MaxInterfaceComponents
    witness seq(MaxInterfaceComponents, _ => Unused)

  /** What the key reads from a compiled geometry shader: its serial id and `inputs[..].Type`. */
  datatype Shader = Shader(serialID: bv64, inputs: ComponentArray)

  /** A vertex input stream of the context; only its format enters the key. */
  datatype Stream = Stream(format: Format)

  type StreamArray = s: seq<Stream> | |s| == InputSlots
    witness seq(InputSlots, _ => Stream(FormatUndefined))

  /** The part of sw::Context that `update` reads. */
  datatype Context = Context(
    geometryShader: Option<Shader>,
    robustBufferAccess: bool,
    topology: Topology,
    input: StreamArray)

  // ---------------------------------------------------------------------------
  // The hash: an XOR fold over the words of the States storage
  // ---------------------------------------------------------------------------

  /** The XOR of all words of `w`. */
  function XorFold(w: seq<bv32>): bv32 {
    if |w| == 0 then 0 else XorFold(w[..|w| - 1]) ^ w[|w| - 1]
  }

  /** The value `computeHash` promises: the fold over the storage of `States` only. */
  function Hash(s: States): bv32 {
    XorFold(Encode(s))
  }

  lemma {:induction false} XorFoldOfZeros(w: seq<bv32>)
    requires forall j | 0 <= j < |w| :: w[j] == 0
    ensures XorFold(w) == 0
  {
    if |w| > 0 {
      XorFoldOfZeros(w[..|w| - 1]);
    }
  }

  /** Replacing one word changes the fold by exactly the XOR of the old and new word. */
  lemma {:induction false} XorFoldUpdate(w: seq<bv32>, k: nat, x: bv32)
    requires k < |w|
    ensures XorFold(w[k := x]) == XorFold(w) ^ w[k] ^ x
  {
    var n := |w|;
    if k == n - 1 {
      assert w[k := x][..n - 1] == w[..n - 1];
    } else {
      assert w[k := x][..n - 1] == w[..n - 1][k := x];
      XorFoldUpdate(w[..n - 1], k, x);
    }
  }

  /** `States::computeHash`: XOR of every 32-bit word of the `States` part of the record. */
  method ComputeHash(s: States) returns (hash: bv32)
    ensures hash == XorFold(Encode(s))
  {
    var state := Encode(s);
    hash := 0;
    var i := 0;
    while i < WordCount
      invariant 0 <= i <= WordCount
      invariant hash == XorFold(state[..i])
    {
      assert state[..i + 1][..i] == state[..i];
      hash := hash ^ state[i];
      i := i + 1;
    }
    assert state[..i] == state;
  }

  /** A zero-filled record hashes to 0. */
  lemma ZeroStatesHash()
    ensures Hash(ZeroStates()) == 0
  {
    XorFoldOfZeros(Encode(ZeroStates()));
  }

  /** Two records whose storage differs in exactly one word have different hashes. */
  lemma HashSeparatesOneWord(a: States, b: States, j: nat)
    requires j < WordCount && Encode(a)[j] != Encode(b)[j]
    requires forall i | 0 <= i < WordCount && i != j :: Encode(a)[i] == Encode(b)[i]
    ensures Hash(a) != Hash(b)
  {
    assert Encode(b) == Encode(a)[j := Encode(b)[j]];
    XorFoldUpdate(Encode(a), j, Encode(b)[j]);
  }

  /** The record with the format of slot `k` replaced by `f`. */
  function WithFormat(s: States, k: nat, f: Format): States
    requires k < InputSlots
  {
    s.(input := s.input[k := s.input[k].(format := f)])
  }

  /** Writing one slot's format writes exactly that slot's format word. */
  lemma EncodeWithFormat(s: States, k: nat, f: Format)
    requires k < InputSlots
    ensures Encode(WithFormat(s, k, f)) == Encode(s)[2 + 2 * k := f]
  {
  }

  /** Writing one slot's format changes the hash by the XOR of the old and new format. */
  lemma HashWithFormat(s: States, k: nat, f: Format)
    requires k < InputSlots
    ensures Hash(WithFormat(s, k, f)) == Hash(s) ^ s.input[k].format ^ f
  {
    EncodeWithFormat(s, k, f);
    EncodeSlot(s, k);
    XorFoldUpdate(Encode(s), 2 + 2 * k, f);
  }

  /** Changing only the format of one slot changes the hash. */
  lemma FormatChangeChangesHash(s: States, k: nat, f: Format)
    requires k < InputSlots && f != s.input[k].format
    ensures Hash(WithFormat(s, k, f)) != Hash(s)
  {
    HashWithFormat(s, k, f);
  }

  /** Changing only one of the two flags changes the hash. */
  lemma FlagChangeChangesHash(s: States)
    ensures Hash(s.(robustBufferAccess := !s.robustBufferAccess)) != Hash(s)
    ensures Hash(s.(isPoint := !s.isPoint)) != Hash(s)
  {
    var t := s.(robustBufferAccess := !s.robustBufferAccess);
    var u := s.(isPoint := !s.isPoint);
    forall i | 0 <= i < WordCount && i != FlagsWord
      ensures Encode(t)[i] == Encode(s)[i] && Encode(u)[i] == Encode(s)[i]
    {
    }
    HashSeparatesOneWord(t, s, FlagsWord);
    HashSeparatesOneWord(u, s, FlagsWord);
  }

  /** Changing only the attribute class of one slot changes the hash. */
  lemma AttribChangeChangesHash(s: States, k: nat, t: AttribField)
    requires k < InputSlots && t != s.input[k].attribType
    ensures Hash(s.(input := s.input[k := s.input[k].(attribType := t)])) != Hash(s)
  {
    var u := s.(input := s.input[k := s.input[k].(attribType := t)]);
    forall i | 0 <= i < WordCount && i != 3 + 2 * k ensures Encode(u)[i] == Encode(s)[i] {
    }
    EncodeSlot(s, k);
    EncodeSlot(u, k);
    HashSeparatesOneWord(u, s, 3 + 2 * k);
  }

  /** Two ids with the same low and high halves are the same id. */
  lemma HalvesDetermineId(x: bv64, y: bv64)
    requires Low(x) == Low(y) && High(x) == High(y)
    ensures x == y
  {
    SplitJoin(x);
    SplitJoin(y);
  }

  /** Changing the shader id in only one of its 32-bit halves changes the hash. */
  lemma ShaderIdHalfChangeChangesHash(s: States, id: bv64)
    requires id != s.shaderID
    requires Low(id) == Low(s.shaderID) || High(id) == High(s.shaderID)
    ensures Hash(s.(shaderID := id)) != Hash(s)
  {
    var u := s.(shaderID := id);
    if Low(id) == Low(s.shaderID) && High(id) == High(s.shaderID) {
      HalvesDetermineId(id, s.shaderID);
      assert false;
    }
    var j := if Low(id) != Low(s.shaderID) then 0 else 1;
    forall i | 0 <= i < WordCount && i != j ensures Encode(u)[i] == Encode(s)[i] {
    }
    EncodeShaderId(s);
    EncodeShaderId(u);
    HashSeparatesOneWord(u, s, j);
  }

  /** The fold is a pre-filter, not an identity: a shader id whose two halves are equal
      cancels out, so these two different keys hash alike. */
  lemma ShaderIdCollision()
    ensures ZeroStates().(shaderID := 0x1_0000_0001) != ZeroStates()
    ensures Hash(ZeroStates().(shaderID := 0x1_0000_0001)) == Hash(ZeroStates())
  {
    var z := ZeroStates();
    var s := z.(shaderID := 0x1_0000_0001);
    assert Encode(s) == Encode(z)[0 := 1][1 := 1];
    XorFoldUpdate(Encode(z), 0, 1);
    XorFoldUpdate(Encode(z)[0 := 1], 1, 1);
  }

  /** Writing the formats of two different slots, one after the other. */
  lemma HashWithTwoFormats(s: States, j: nat, f: Format, k: nat, g: Format)
    requires j < InputSlots && k < InputSlots && j != k
    ensures Hash(WithFormat(WithFormat(s, j, f), k, g))
         == Hash(s) ^ s.input[j].format ^ f ^ s.input[k].format ^ g
  {
    var a := WithFormat(s, j, f);
    assert a.input[k] == s.input[k];
    HashWithFormat(s, j, f);
    HashWithFormat(a, k, g);
  }

  /** Nor is the fold order-sensitive: exchanging the formats of two slots keeps the hash. */
  lemma SlotSwapCollision(s: States, f: Format, g: Format)
    requires f != g
    ensures WithFormat(WithFormat(s, 0, f), 1, g) != WithFormat(WithFormat(s, 0, g), 1, f)
    ensures Hash(WithFormat(WithFormat(s, 0, f), 1, g)) == Hash(WithFormat(WithFormat(s, 0, g), 1, f))
  {
    assert WithFormat(WithFormat(s, 0, f), 1, g).input[0].format == f;
    HashWithTwoFormats(s, 0, f, 1, g);
    HashWithTwoFormats(s, 0, g, 1, f);
  }

  // ---------------------------------------------------------------------------
  // Deriving the key
  // ---------------------------------------------------------------------------

  /** What `update` promises about the key it returns for `ctx`: a zero-filled record
      when no geometry shader is bound, otherwise the shader's id, the robustness flag,
      `isPoint` set for triangle lists (as the code is written), and each slot's format
      from the context with the attribute class of the slot's first shader component;
      in either case the hash word is the hash of the returned fields. */
  ghost predicate DerivedFrom(ctx: Context, state: State) {
    state.hash == Hash(state.states) &&
    match ctx.geometryShader
    case None => state.states == ZeroStates()
    case Some(shader) =>
      state.states.shaderID == shader.serialID &&
      state.states.robustBufferAccess == ctx.robustBufferAccess &&
      state.states.isPoint == (ctx.topology == TriangleList) &&
      forall k | 0 <= k < InputSlots ::
        state.states.input[k] == Input(ctx.input[k].format, StoreAttribType(shader.inputs[4 * k]))
  }

  /** `GeometryProcessor::update`. */
  method Update(ctx: Context) returns (state: State)
    ensures DerivedFrom(ctx, state)
    ensures ctx.geometryShader.None? ==> state.hash == 0
    ensures forall k | 0 <= k < InputSlots ::
      state.states.input[k].Present() <==> ctx.geometryShader.Some? && ctx.input[k].format != FormatUndefined
  {
    var states := ZeroStates();
    if ctx.geometryShader.Some? {
      var shader := ctx.geometryShader.value;
      states := states.(shaderID := shader.serialID);
      states := states.(robustBufferAccess := ctx.robustBufferAccess);
      states := states.(isPoint := ctx.topology == TriangleList);
      var i := 0;
      while i < InputSlots
        invariant 0 <= i <= InputSlots
        invariant states.shaderID == shader.serialID
        invariant states.robustBufferAccess == ctx.robustBufferAccess
        invariant states.isPoint == (ctx.topology == TriangleList)
        invariant forall k | 0 <= k < i ::
          states.input[k] == Input(ctx.input[k].format, StoreAttribType(shader.inputs[4 * k]))
      {
        states := states.(input := states.input[i := states.input[i].(format := ctx.input[i].format)]);
        states := states.(input := states.input[i := states.input[i].(attribType := StoreAttribType(shader.inputs[i * 4]))]);
        i := i + 1;
      }
    } else {
      ZeroStatesHash();
      ZeroStorageIsZeroStates(states);
    }
    var hash := ComputeHash(states);
    state := State(states, hash);
  }

  /** `update` is deterministic: the same context admits exactly one key. */
  lemma DerivedFromUnique(ctx: Context, a: State, b: State)
    requires DerivedFrom(ctx, a) && DerivedFrom(ctx, b)
    ensures a == b
  {
  }

  /** With no geometry shader bound the key is all zero, hash included. */
  lemma UnboundShaderKey(ctx: Context, state: State)
    requires ctx.geometryShader.None? && DerivedFrom(ctx, state)
    ensures state.hash == 0 && state.states.shaderID == 0
    ensures !state.states.robustBufferAccess && !state.states.isPoint
    ensures forall k | 0 <= k < InputSlots ::
      state.states.input[k].format == FormatUndefined && state.states.input[k].attribType == 0
  {
    ZeroStatesHash();
    ZeroStorageIsZeroStates(state.states);
  }

  /** `State::operator==`: the hash is compared first as a cheap filter, then the whole
      storage of `States`. For keys whose hash is not stale this is exactly equality of
      keys; whatever the hash words, it never equates keys with different fields. */
  function Equals(a: State, b: State): (r: bool)
    ensures r ==> a.states == b.states
    ensures a.hash == Hash(a.states) && b.hash == Hash(b.states) ==> (r <==> a == b)
  {
    EncodeInjective(a.states, b.states);
    a.hash == b.hash && Encode(a.states) == Encode(b.states)
  }

  /** `GeometryProcessor` of the device: it has no data members, because its routine
      cache is commented out. */
  class GeometryProcessor {
    constructor () {
    }

    /** `setRoutineCacheSize`: not implemented in the source; its frame is empty, so it
        changes nothing. */
    method SetRoutineCacheSize(cacheSize: int)
      ensures unchanged(this)
    {
    }
  }
}
