/**
 * The OpenGL 4 sampler-state cache
 * (Siv3D/src/Siv3D-Platform/OpenGL4/Siv3D/Renderer/GL4/SamplerState/GL4SamplerState.cpp).
 *
 * The cache keeps, per texture slot, the sampler state last bound there
 * (initially the sentinel NullSamplerState, so that the first bind of a slot
 * always reaches the driver), and a map from sampler-state values to native
 * sampler objects that is cleared wholesale when it holds 1024 or more entries
 * before an insert. The driver calls (`glBindSampler`, the
 * `glSamplerParameter*` calls made while creating a sampler) are recorded in a
 * call log; native sampler names are drawn from a counter.
 *
 * The pure functions InitialModel, CreateModel, SetPSModel and SetNoneModel
 * state what the operations do to the whole cache; the class GL4SamplerState
 * holds the same state in an array and a map and its methods are proved to
 * follow those functions.
 */
module GL4Sampler {
  import opened Wrappers

  datatype TextureAddressMode = Repeat | Mirror | Clamp | BorderColor

  datatype TextureFilter = Nearest | Linear

  /** Floating-point values are kept as opaque IEEE-754 bit patterns. */
  datatype Float4 = Float4(x: bv32, y: bv32, z: bv32, w: bv32)

  /** The bit pattern of FLT_MIN, the smallest positive normal float. */
  const FltMin: bv32 := 0x0080_0000

  /**
   * A sampler state value; two states are equal exactly when all fields are
   * equal. The two numeric fields are the anisotropy and level-of-detail bias
   * in the order of SamplerState's constructor, kept opaque.
   */
  datatype SamplerState = SamplerState(
    addressU: TextureAddressMode, addressV: TextureAddressMode, addressW: TextureAddressMode,
    min: TextureFilter, mag: TextureFilter, mip: TextureFilter,
    maxAnisotropy: int, lodBias: int, borderColor: Float4)

  /** The sentinel recorded for a slot that has no sampler bound. */
  const NullSamplerState := SamplerState(Repeat, Repeat, Repeat, Linear, Linear, Linear, 0, -1,
                                         Float4(FltMin, FltMin, FltMin, FltMin))

  /** The cache is cleared before an insert once it holds this many entries. */
  const MaxCachedStates := 1024

  // ---------------------------------------------------------------------------
  // The OpenGL parameter tables of create()

  datatype GLMinFilter = NearestMipmapNearest | NearestMipmapLinear | LinearMipmapNearest | LinearMipmapLinear

  datatype GLMagFilter = GLNearest | GLLinear

  datatype GLWrap = GLRepeat | GLMirroredRepeat | GLClampToEdge | GLClampToBorder

  /** GL_TEXTURE_COMPARE_MODE values. */
  datatype GLCompareMode = GLNone | GLCompareRefToTexture

  /** detail::minmipTable */
  const MinMipTable: seq<GLMinFilter> := [NearestMipmapNearest, NearestMipmapLinear, LinearMipmapNearest, LinearMipmapLinear]

  /** The static `wraps` table of create(). */
  const Wraps: seq<GLWrap> := [GLRepeat, GLMirroredRepeat, GLClampToEdge, GLClampToBorder]

  /** static_cast<int32> of a TextureFilter. */
  function FilterBit(f: TextureFilter): nat {
    match f
    case Nearest => 0
    case Linear => 1
  }

  /** static_cast<int32> of a TextureAddressMode: it indexes the 4-entry wrap table. */
  function AddressIndex(m: TextureAddressMode): (i: nat)
    ensures i < |Wraps|
  {
    match m
    case Repeat => 0
    case Mirror => 1
    case Clamp => 2
    case BorderColor => 3
  }

  /** `(min << 1) | mip`: an index into the 4-entry min/mip table, one bit per filter. */
  function MinMipIndex(min: TextureFilter, mip: TextureFilter): (i: nat)
    ensures i < |MinMipTable|
    ensures i == 2 * FilterBit(min) + FilterBit(mip)
  {
    (((FilterBit(min) as bv2) << 1) | (FilterBit(mip) as bv2)) as nat
  }

  /** The GL_TEXTURE_MIN_FILTER value: linear minification exactly when min is Linear, linear mip blending exactly when mip is Linear. */
  function MinFilterParam(min: TextureFilter, mip: TextureFilter): (f: GLMinFilter)
    ensures (f == LinearMipmapNearest || f == LinearMipmapLinear) <==> min == Linear
    ensures (f == NearestMipmapLinear || f == LinearMipmapLinear) <==> mip == Linear
  {
    MinMipTable[MinMipIndex(min, mip)]
  }

  /** The GL wrap mode for an address mode. */
  function WrapParam(m: TextureAddressMode): (g: GLWrap)
    ensures m == Repeat <==> g == GLRepeat
    ensures m == Mirror <==> g == GLMirroredRepeat
    ensures m == Clamp <==> g == GLClampToEdge
    ensures m == BorderColor <==> g == GLClampToBorder
  {
    Wraps[AddressIndex(m)]
  }

  /** The parameters create() sets on a new native sampler. */
  datatype SamplerParams = SamplerParams(
    minFilter: GLMinFilter, magFilter: GLMagFilter,
    wrapS: GLWrap, wrapT: GLWrap, wrapR: GLWrap,
    lodBias: int, compareMode: GLCompareMode, maxAnisotropy: int, border: Float4, minLod: int, maxLod: int)

  /**
   * The parameters for `state`, with `border` the colour held by the static
   * `border` array of create() (initialised on the first call only).
   */
  function Params(state: SamplerState, border: Float4): (p: SamplerParams)
    ensures p.minFilter == MinFilterParam(state.min, state.mip)
    ensures p.magFilter == GLLinear <==> state.mag == Linear
    ensures p.wrapS == WrapParam(state.addressU) && p.wrapT == WrapParam(state.addressV) && p.wrapR == WrapParam(state.addressW)
    ensures p.lodBias == state.lodBias && p.maxAnisotropy == state.maxAnisotropy && p.compareMode == GLNone
    ensures p.border == border && p.minLod == -1000 && p.maxLod == 1000
  {
    SamplerParams(
      MinMipTable[MinMipIndex(state.min, state.mip)],
      if state.mag == Linear then GLLinear else GLNearest,
      Wraps[AddressIndex(state.addressU)], Wraps[AddressIndex(state.addressV)], Wraps[AddressIndex(state.addressW)],
      state.lodBias, GLNone, state.maxAnisotropy, border, -1000, 1000)
  }

  // ---------------------------------------------------------------------------
  // The whole cache as a value

  /** Driver calls: creating a configured sampler object, and glBindSampler (sampler 0 unbinds). */
  datatype GLCall = CreateSampler(sampler: nat, params: SamplerParams) | BindSampler(slot: nat, sampler: nat)

  datatype CacheModel = CacheModel(
    current: seq<SamplerState>,       // m_currentStates
    states: map<SamplerState, nat>,   // m_states, to native sampler names
    border: Option<Float4>,           // the static border array of create()
    nextSampler: nat,                 // the next native sampler name the driver hands out
    calls: seq<GLCall>)

  /** The invariant the clear-before-insert policy keeps. */
  predicate Bounded(c: CacheModel) {
    |c.states| <= MaxCachedStates
  }

  /**
   * The cache just after construction: every slot holds the sentinel. The
   * static border array belongs to the process, not to the cache: `border`
   * is None before any cache has created a sampler, and otherwise the colour
   * the first create of any cache captured.
   */
  function InitialModel(slotCount: nat, border: Option<Float4>): (c: CacheModel)
    ensures |c.current| == slotCount
    ensures forall i :: 0 <= i < |c.current| ==> c.current[i] == NullSamplerState
    ensures c.states == map[] && c.calls == [] && Bounded(c)
    ensures c.border == border
  {
    CacheModel(seq(slotCount, _ => NullSamplerState), map[], border, 1, [])
  }

  /**
   * The border array is static: a cache constructed after another cache's
   * first create reuses that colour, whatever the border of its own first state.
   */
  lemma StaticBorderShared(n: nat, m: nat, first: SamplerState, later: SamplerState)
    ensures var a := CreateModel(InitialModel(n, None), first).0;
      var b := CreateModel(InitialModel(m, a.border), later);
      && b.0.border == Some(first.borderColor)
      && b.0.calls == [CreateSampler(b.1, Params(later, first.borderColor))]
  {
  }

  /** create(state): a new native sampler, then the cache cleared if full, then the insert. */
  function CreateModel(c: CacheModel, state: SamplerState): (r: (CacheModel, nat))
    requires state !in c.states
    ensures r.1 == c.nextSampler && r.0.nextSampler == c.nextSampler + 1
    ensures r.0.current == c.current
    ensures r.0.states == (if |c.states| >= MaxCachedStates then map[] else c.states)[state := r.1]
    ensures |c.states| >= MaxCachedStates ==> |r.0.states| == 1
    ensures |c.states| < MaxCachedStates ==> |r.0.states| == |c.states| + 1
    ensures Bounded(c) ==> Bounded(r.0)
    ensures r.0.border == Some(if c.border.Some? then c.border.value else state.borderColor)
    ensures r.0.calls == c.calls + [CreateSampler(r.1, Params(state, r.0.border.value))]
  {
    var border := if c.border.Some? then c.border.value else state.borderColor;
    var sampler := c.nextSampler;
    var kept := if |c.states| >= MaxCachedStates then map[] else c.states;
    assert kept[state := sampler].Keys == kept.Keys + {state};
    (CacheModel(c.current, kept[state := sampler], Some(border), sampler + 1,
                c.calls + [CreateSampler(sampler, Params(state, border))]),
     sampler)
  }

  /** setPS(slot, state) */
  function SetPSModel(c: CacheModel, slot: nat, state: SamplerState): (r: CacheModel)
    requires slot < |c.current|
    ensures |r.current| == |c.current|
    ensures state == c.current[slot] ==> r == c
    ensures state != c.current[slot] ==>
      && r.current == c.current[slot := state]
      && state in r.states
      && |r.calls| > |c.calls|
      && r.calls[|r.calls| - 1] == BindSampler(slot, r.states[state])
    ensures state != c.current[slot] && state in c.states ==>
      && r.states == c.states && r.nextSampler == c.nextSampler
      && r.calls == c.calls + [BindSampler(slot, c.states[state])]
    ensures state != c.current[slot] && state !in c.states ==>
      r.border.Some? &&
      r.calls == c.calls + [CreateSampler(c.nextSampler, Params(state, r.border.value)), BindSampler(slot, c.nextSampler)]
    ensures Bounded(c) ==> Bounded(r)
  {
    if state == c.current[slot] then c
    else if state in c.states then
      c.(current := c.current[slot := state], calls := c.calls + [BindSampler(slot, c.states[state])])
    else
      var (created, sampler) := CreateModel(c, state);
      created.(current := created.current[slot := state], calls := created.calls + [BindSampler(slot, sampler)])
  }

  /** setPS(slot, None): always unbinds and records the sentinel. */
  function SetNoneModel(c: CacheModel, slot: nat): (r: CacheModel)
    requires slot < |c.current|
    ensures r.current == c.current[slot := NullSamplerState]
    ensures r.calls == c.calls + [BindSampler(slot, 0)]
    ensures r.states == c.states && r.nextSampler == c.nextSampler && r.border == c.border
  {
    c.(current := c.current[slot := NullSamplerState], calls := c.calls + [BindSampler(slot, 0)])
  }

  /** Binding the same state to the same slot twice in a row reaches the driver at most once. */
  lemma SetPSIdempotent(c: CacheModel, slot: nat, state: SamplerState)
    requires slot < |c.current|
    ensures SetPSModel(SetPSModel(c, slot, state), slot, state) == SetPSModel(c, slot, state)
  {
  }

  /** After an unbind, binding any real state to that slot issues a bind again. */
  lemma BindAfterUnbind(c: CacheModel, slot: nat, state: SamplerState)
    requires slot < |c.current| && state != NullSamplerState
    ensures var r := SetPSModel(SetNoneModel(c, slot), slot, state);
      |r.calls| > |c.calls| + 1 && r.calls[|r.calls| - 1] == BindSampler(slot, r.states[state]) && r.current[slot] == state
  {
  }

  /** A binding changes no other slot. */
  lemma SetPSOtherSlots(c: CacheModel, slot: nat, state: SamplerState, other: nat)
    requires slot < |c.current| && other < |c.current| && other != slot
    ensures SetPSModel(c, slot, state).current[other] == c.current[other]
    ensures SetNoneModel(c, slot).current[other] == c.current[other]
  {
  }

  // ---------------------------------------------------------------------------
  // Any sequence of operations

  datatype Op = Bind(slot: nat, state: SamplerState) | Unbind(slot: nat)

  predicate SlotsBelow(ops: seq<Op>, slotCount: nat) {
    forall i :: 0 <= i < |ops| ==> ops[i].slot < slotCount
  }

  /** The cache after performing `ops` in order. */
  function Run(c: CacheModel, ops: seq<Op>): (r: CacheModel)
    requires SlotsBelow(ops, |c.current|)
    ensures |r.current| == |c.current|
    decreases |ops|
  {
    if ops == [] then c
    else
      var next := match ops[0]
        case Bind(slot, state) => SetPSModel(c, slot, state)
        case Unbind(slot) => SetNoneModel(c, slot);
      Run(next, ops[1..])
  }

  /** However the cache is used, it never holds more than 1024 native samplers. */
  lemma {:induction false} RunKeepsBound(c: CacheModel, ops: seq<Op>)
    requires Bounded(c) && SlotsBelow(ops, |c.current|)
    ensures Bounded(Run(c, ops))
    decreases |ops|
  {
    if ops != [] {
      var next := match ops[0]
        case Bind(slot, state) => SetPSModel(c, slot, state)
        case Unbind(slot) => SetNoneModel(c, slot);
      assert SlotsBelow(ops[1..], |next.current|);
      RunKeepsBound(next, ops[1..]);
    }
  }

  /** The call log only grows: every operation appends to it. */
  lemma {:induction false} RunExtendsLog(c: CacheModel, ops: seq<Op>)
    requires SlotsBelow(ops, |c.current|)
    ensures |Run(c, ops).calls| >= |c.calls| && Run(c, ops).calls[..|c.calls|] == c.calls
    decreases |ops|
  {
    if ops != [] {
      var next := match ops[0]
        case Bind(slot, state) => SetPSModel(c, slot, state)
        case Unbind(slot) => SetNoneModel(c, slot);
      assert |next.calls| >= |c.calls| && next.calls[..|c.calls|] == c.calls;
      assert SlotsBelow(ops[1..], |next.current|);
      RunExtendsLog(next, ops[1..]);
      assert Run(c, ops) == Run(next, ops[1..]);
    }
  }

  // ---------------------------------------------------------------------------
  // The cache object

  /**
   * The function-local static `border` array of create(): one per process,
   * shared by every cache, and set by the first create of any of them.
   */
  class StaticBorder {
    var value: Option<Float4>

    /** Before any create the static is not yet initialised. */
    constructor ()
      ensures value == None
    {
      value := None;
    }
  }

  class GL4SamplerState {
    /** SamplerState::MaxSamplerCount */
    const slotCount: nat
    var currentStates: array<SamplerState>
    var states: map<SamplerState, nat>
    /** The process-wide static border array, shared with every other cache. */
    const border: StaticBorder
    var nextSampler: nat
    ghost var calls: seq<GLCall>

    ghost predicate Valid()
      reads this
    {
      currentStates.Length == slotCount && |states| <= MaxCachedStates
    }

    ghost function Model(): CacheModel
      reads this, currentStates, border
    {
      CacheModel(currentStates[..], states, border.value, nextSampler, calls)
    }

    /**
     * GL4SamplerState(): every slot starts at the sentinel. `border` is the
     * process-wide static, in whatever state earlier caches left it.
     */
    constructor (maxSamplerCount: nat, border: StaticBorder)
      ensures Valid() && fresh(currentStates) && this.border == border
      ensures Model() == InitialModel(maxSamplerCount, border.value)
    {
      slotCount := maxSamplerCount;
      currentStates := new SamplerState[maxSamplerCount](_ => NullSamplerState);
      states := map[];
      this.border := border;
      nextSampler := 1;
      calls := [];
    }

    /** setPS(slot, state) */
    method SetPS(slot: nat, state: SamplerState)
      requires Valid() && slot < slotCount
      modifies this, currentStates, border
      ensures Valid() && currentStates == old(currentStates)
      ensures Model() == SetPSModel(old(Model()), slot, state)
    {
      if state == currentStates[slot] {
        return;
      }
      var sampler: nat;
      if state in states {
        sampler := states[state];
      } else {
        sampler := Create(state);
      }
      calls := calls + [BindSampler(slot, sampler)];
      currentStates[slot] := state;
    }

    /** setPS(slot, None) */
    method SetPSNone(slot: nat)
      requires Valid() && slot < slotCount
      modifies this, currentStates
      ensures Valid() && currentStates == old(currentStates)
      ensures Model() == SetNoneModel(old(Model()), slot)
    {
      calls := calls + [BindSampler(slot, 0)];
      currentStates[slot] := NullSamplerState;
    }

    /** create(state): only called for a state the cache does not hold. */
    method Create(state: SamplerState) returns (sampler: nat)
      requires Valid() && state !in states
      modifies this, border
      ensures Valid() && currentStates == old(currentStates)
      ensures (Model(), sampler) == CreateModel(old(Model()), state)
    {
      sampler := nextSampler;
      nextSampler := nextSampler + 1;
      if border.value.None? {
        border.value := Some(state.borderColor);
      }
      calls := calls + [CreateSampler(sampler, Params(state, border.value.value))];
      if |states| >= MaxCachedStates {
        states := map[];
      }
      states := states[state := sampler];
    }
  }
  /**
   * Two caches built before either has created a sampler share the static:
   * the first create of `a` sets it, and the first sampler of `b` then gets
   * that colour rather than its own state's border.
   */
  method TwoCachesShareBorder(n: nat, first: SamplerState, later: SamplerState) returns (a: GL4SamplerState, b: GL4SamplerState)
    ensures a.border == b.border && a.border.value == Some(first.borderColor)
    ensures b.calls == [CreateSampler(1, Params(later, first.borderColor))]
  {
    var shared := new StaticBorder();
    a := new GL4SamplerState(n, shared);
    b := new GL4SamplerState(n, shared);
    var _ := a.Create(first);
    var _ := b.Create(later);
  }
}
