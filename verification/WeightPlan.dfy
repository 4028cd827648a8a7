/** The weights a resolved graph asks for: one request after another, layer by layer.  The
    requests are given as functions of the specification; `PlanBuilder` pushes them. */
module WeightPlan {
  import opened KvSharing
  import opened Options

  datatype WeightKind = Scale | OnePlusScale | NoWeight

  datatype Norm = Norm(perHead: bool, kind: WeightKind)

  datatype Gate = Gate(packed: bool, headWise: bool)

  datatype Factors = Factors(queryRank: int, valueHeadDim: int)

  datatype State =
    | OrdinaryKv
    | Latent(rank: int, ropeDim: int, nopeDim: int, decoupled: bool, factors: Option<Factors>)

  datatype AttentionSpec = AttentionSpec(
    queryHeads: int, kvHeads: int, headDim: int,
    queryNorm: Option<Norm>, keyNorm: Option<Norm>, valueNorm: Option<Norm>,
    sharing: Sharing, gate: Option<Gate>, relativeBuckets: Option<int>, state: State, external: bool)

  datatype Mixer =
    | Attend(attention: AttentionSpec)
    | ShortConv(cacheLength: int)
    | DeltaNet(kernel: int, keyDim: int, valueDim: int, keyHeads: int, valueHeads: int, vectorDecay: bool,
               factorized: bool)
    | Mamba(kernel: int, intermediate: int, state: int, heads: int, groups: int)
    | MlpBlock(width: int)

  datatype MoeSpec = MoeSpec(intermediate: int, experts: int, bias: bool, shared: Option<int>)

  datatype FeedForward = NoFeedForward | Dense(intermediate: int, parallel: int) | Moe(moe: MoeSpec)

  datatype LayerSpec = LayerSpec(
    mixer: Mixer, feedForward: FeedForward,
    mixerBefore: Option<Norm>, mixerAfter: Option<Norm>, ffBefore: Option<Norm>, ffAfter: Option<Norm>)

  /** `physical` maps layers to checkpoint layers unless it is empty. */
  datatype Graph = Graph(hidden: int, vocab: int, layers: seq<LayerSpec>, finalNorm: Norm, perLayerInput: Option<int>,
                         physical: seq<int>)

  /** What the checkpoint's names answer: where routed experts are packed, and where a gate
      for the shared expert is bound. */
  datatype Naming = Naming(packed: set<int>, gated: set<int>)

  datatype Role =
    | TokenEmbedding | FinalNorm | LanguageModelHead | PerLayerEmbedding | PerLayerContextProjection
    | PerLayerProjectionNorm
    | AttentionInputNorm | AttentionQuery | AttentionQueryNorm | AttentionKey | AttentionValue | AttentionKeyNorm
    | AttentionValueNorm | AttentionOutput | LatentQueryProjection | LatentQueryExpansion | LatentQueryNorm
    | LatentKeyProjection | LatentKeyNorm | LatentExpansion | LatentQuery | LatentQueryRope | LatentKey | LatentValue
    | LatentKeyRope | LatentOutput | AttentionGate | RelativePositionBias
    | ConvInput | ConvKernel | ConvOutput
    | DeltaQuery | DeltaKey | DeltaValue | DeltaDecay | DeltaOutputGate | DeltaQueryConv | DeltaKeyConv | DeltaValueConv
    | DeltaQkv | DeltaZ | DeltaAlpha | DeltaBeta | DeltaDtBias | DeltaALog | DeltaConv | DeltaNorm | DeltaOutput
    | MambaInput | MambaConv | MambaConvBias | MambaDtBias | MambaALog | MambaD | MambaNorm | MambaOutput
    | FfnInputNorm | FfnGate | FfnUp | FfnDown | ParallelGate | ParallelUp | ParallelDown
    | MoeRouter | MoeRouterBias | PackedGateUp | PackedDown | ExpertGate | ExpertUp | ExpertDown
    | SharedGate | SharedUp | SharedDown | SharedGateWeight
    | AttentionPostNorm | FfnOutputNorm | PerLayerInputGate | PerLayerProjection | PerLayerInputNorm | LayerScalar

  datatype Request = Request(role: Role, layer: int, expert: int, shape: seq<int>, physical: int, normKind: WeightKind)

  /** Where a request belongs. */
  datatype Place = Place(layer: int, physical: int)

  function Ask(at: Place, role: Role, shape: seq<int>): seq<Request> {
    [Request(role, at.layer, -1, shape, at.physical, Scale)]
  }

  function AskIf(c: bool, at: Place, role: Role, shape: seq<int>): seq<Request> {
    if c then Ask(at, role, shape) else []
  }

  /** A norm without weights asks for none. */
  function AskNorm(at: Place, role: Role, norm: Option<Norm>, shape: seq<int>): seq<Request> {
    if norm.None? || norm.value.kind.NoWeight? then []
    else [Request(role, at.layer, -1, shape, at.physical, norm.value.kind)]
  }

  function NormWidth(norm: Option<Norm>, perHead: int, whole: int): int {
    if norm.Some? && norm.value.perHead then perHead else whole
  }

  // ----- attention

  function QueryWidth(a: AttentionSpec): int { a.queryHeads * a.headDim }

  function KvWidth(a: AttentionSpec): int { a.kvHeads * a.headDim }

  function QueryProjectionWidth(a: AttentionSpec): int {
    if a.gate.Some? && a.gate.value.packed then QueryWidth(a) * 2 else QueryWidth(a)
  }

  function LatentContentWidth(a: AttentionSpec): int { if a.state.Latent? then a.queryHeads * a.state.rank else 0 }

  function LatentRopeWidth(a: AttentionSpec): int {
    if a.state.Latent? && a.state.decoupled then a.queryHeads * a.state.ropeDim else 0
  }

  function LatentOutputWidth(a: AttentionSpec): int {
    if a.state.Latent? && a.state.factors.Some? then a.queryHeads * a.state.factors.value.valueHeadDim
    else LatentContentWidth(a)
  }

  function GateWidth(a: AttentionSpec): int {
    if a.gate.None? || a.gate.value.packed then 0
    else if a.gate.value.headWise then a.queryHeads
    else if a.state.Latent? then LatentOutputWidth(a)
    else QueryWidth(a)
  }

  function QueryRequests(h: int, a: AttentionSpec, at: Place): seq<Request> {
    Ask(at, AttentionQuery, [QueryProjectionWidth(a), h])
    + AskNorm(at, AttentionQueryNorm, a.queryNorm, [NormWidth(a.queryNorm, a.headDim, QueryWidth(a))])
  }

  function KeyValueRequests(h: int, a: AttentionSpec, at: Place): seq<Request> {
    if a.sharing.Consumer? then []
    else
      Ask(at, AttentionKey, [KvWidth(a), h])
      + Ask(at, AttentionValue, [KvWidth(a), h])
      + AskNorm(at, AttentionKeyNorm, a.keyNorm, [NormWidth(a.keyNorm, a.headDim, KvWidth(a))])
      + AskNorm(at, AttentionValueNorm, a.valueNorm, [NormWidth(a.valueNorm, a.headDim, KvWidth(a))])
  }

  function FactorizedRequests(h: int, a: AttentionSpec, f: Factors, at: Place): seq<Request>
    requires a.state.Latent?
  {
    Ask(at, LatentQueryProjection, [f.queryRank, h])
      + Ask(at, LatentQueryExpansion, [a.queryHeads * (a.state.nopeDim + a.state.ropeDim), f.queryRank])
      + Ask(at, LatentQueryNorm, [f.queryRank])
      + Ask(at, LatentKeyProjection, [a.state.rank + a.state.ropeDim, h])
      + Ask(at, LatentKeyNorm, [a.state.rank])
      + Ask(at, LatentExpansion, [a.queryHeads * (a.state.nopeDim + f.valueHeadDim), a.state.rank])
      + Ask(at, LatentOutput, [h, LatentOutputWidth(a)])
  }

  function DirectLatentRequests(h: int, a: AttentionSpec, at: Place): seq<Request>
    requires a.state.Latent?
  {
    Ask(at, LatentQuery, [LatentContentWidth(a), h])
    + AskIf(LatentRopeWidth(a) != 0, at, LatentQueryRope, [LatentRopeWidth(a), h])
    + Ask(at, LatentKey, [a.state.rank, h])
    + Ask(at, LatentValue, [a.state.rank, h])
    + AskIf(a.state.decoupled && a.state.ropeDim != 0, at, LatentKeyRope, [a.state.ropeDim, h])
    + Ask(at, LatentOutput, [h, LatentContentWidth(a)])
  }

  function AttentionCore(h: int, a: AttentionSpec, at: Place): seq<Request> {
    if a.external then QueryRequests(h, a, at) + Ask(at, AttentionOutput, [h, QueryWidth(a)])
    else if a.state.Latent? then
      match a.state.factors
      case Some(f) => FactorizedRequests(h, a, f, at)
      case None => DirectLatentRequests(h, a, at)
    else QueryRequests(h, a, at) + KeyValueRequests(h, a, at) + Ask(at, AttentionOutput, [h, QueryWidth(a)])
  }

  function AttentionRequests(h: int, a: AttentionSpec, at: Place): seq<Request> {
    AttentionCore(h, a, at)
    + AskIf(a.gate.Some? && !a.gate.value.packed, at, AttentionGate, [GateWidth(a), h])
    + match a.relativeBuckets
      case None => []
      case Some(n) => Ask(at, RelativePositionBias, [a.queryHeads * n])
  }

  // ----- the other mixers

  function DeltaKeyWidth(m: Mixer): int
    requires m.DeltaNet?
  {
    m.keyHeads * m.keyDim
  }

  function DeltaValueWidth(m: Mixer): int
    requires m.DeltaNet?
  {
    m.valueHeads * m.valueDim
  }

  function DeltaDecayWidth(m: Mixer): int
    requires m.DeltaNet?
  {
    if m.vectorDecay then DeltaKeyWidth(m) else m.valueHeads
  }

  function DeltaQkvWidth(m: Mixer): int
    requires m.DeltaNet?
  {
    2 * m.keyHeads * m.keyDim + m.valueHeads * m.valueDim
  }

  function DeltaProjections(h: int, m: Mixer, at: Place): seq<Request>
    requires m.DeltaNet?
  {
    if m.factorized then
      Ask(at, DeltaQuery, [DeltaKeyWidth(m), h])
      + Ask(at, DeltaKey, [DeltaKeyWidth(m), h])
      + Ask(at, DeltaValue, [DeltaValueWidth(m), h])
      + Ask(at, DeltaDecay, [DeltaDecayWidth(m), h])
      + Ask(at, DeltaOutputGate, [DeltaValueWidth(m), h])
      + Ask(at, DeltaQueryConv, [DeltaKeyWidth(m), 1, m.kernel])
      + Ask(at, DeltaKeyConv, [DeltaKeyWidth(m), 1, m.kernel])
      + Ask(at, DeltaValueConv, [DeltaValueWidth(m), 1, m.kernel])
    else
      Ask(at, DeltaQkv, [DeltaQkvWidth(m), h])
      + Ask(at, DeltaZ, [DeltaValueWidth(m), h])
      + Ask(at, DeltaAlpha, [m.valueHeads, h])
  }

  function DeltaCommon(h: int, m: Mixer, at: Place): seq<Request>
    requires m.DeltaNet?
  {
    Ask(at, DeltaBeta, [m.valueHeads, h])
      + Ask(at, DeltaDtBias, [DeltaDecayWidth(m)])
      + Ask(at, DeltaALog, [m.valueHeads])
      + Ask(at, DeltaConv, [DeltaQkvWidth(m), 1, m.kernel])
      + Ask(at, DeltaNorm, [m.valueDim])
      + Ask(at, DeltaOutput, [h, DeltaValueWidth(m)])
  }

  function MambaConvDim(m: Mixer): int
    requires m.Mamba?
  {
    m.intermediate + 2 * m.groups * m.state
  }

  function MambaInputWidth(m: Mixer): int
    requires m.Mamba?
  {
    2 * m.intermediate + 2 * m.groups * m.state + m.heads
  }

  function MambaRequests(h: int, m: Mixer, at: Place): seq<Request>
    requires m.Mamba?
  {
    Ask(at, MambaInput, [MambaInputWidth(m), h])
      + Ask(at, MambaConv, [MambaConvDim(m), 1, m.kernel])
      + Ask(at, MambaConvBias, [MambaConvDim(m)])
      + Ask(at, MambaDtBias, [m.heads])
      + Ask(at, MambaALog, [m.heads])
      + Ask(at, MambaD, [m.heads])
      + Ask(at, MambaNorm, [m.intermediate])
      + Ask(at, MambaOutput, [h, m.intermediate])
  }

  function MixerRequests(h: int, m: Mixer, at: Place): seq<Request> {
    match m
    case Attend(a) => AttentionRequests(h, a, at)
    case ShortConv(n) => Ask(at, ConvInput, [3 * h, h])
      + Ask(at, ConvKernel, [h, 1, n])
      + Ask(at, ConvOutput, [h, h])
    case DeltaNet(_, _, _, _, _, _, _) => DeltaProjections(h, m, at) + DeltaCommon(h, m, at)
    case Mamba(_, _, _, _, _) => MambaRequests(h, m, at)
    case MlpBlock(w) => Ask(at, FfnUp, [w, h]) + Ask(at, FfnDown, [h, w])
  }

  // ----- feed-forward

  function DenseRequests(h: int, n: int, parallel: int, at: Place): seq<Request> {
    Ask(at, FfnGate, [n, h]) + Ask(at, FfnUp, [n, h]) + Ask(at, FfnDown, [h, n])
    + AskIf(parallel > 0, at, ParallelGate, [parallel, h])
    + AskIf(parallel > 0, at, ParallelUp, [parallel, h])
    + AskIf(parallel > 0, at, ParallelDown, [h, parallel])
  }

  function ExpertRequest(role: Role, expert: int, shape: seq<int>, at: Place): Request {
    Request(role, at.layer, expert, shape, at.physical, Scale)
  }

  function OneExpert(h: int, n: int, expert: int, at: Place): seq<Request> {
    [ExpertRequest(ExpertGate, expert, [n, h], at), ExpertRequest(ExpertUp, expert, [n, h], at),
     ExpertRequest(ExpertDown, expert, [h, n], at)]
  }

  function Experts(h: int, n: int, count: nat, at: Place): seq<Request> {
    if count == 0 then [] else Experts(h, n, count - 1, at) + OneExpert(h, n, count - 1, at)
  }

  function Count(n: int): nat { if n < 0 then 0 else n }

  function RoutedRequests(h: int, moe: MoeSpec, packed: bool, at: Place): seq<Request> {
    if packed then
      Ask(at, PackedGateUp, [moe.experts, 2 * moe.intermediate, h])
        + Ask(at, PackedDown, [moe.experts, h, moe.intermediate])
    else Experts(h, moe.intermediate, Count(moe.experts), at)
  }

  function SharedRequests(h: int, moe: MoeSpec, gated: bool, at: Place): seq<Request> {
    match moe.shared
    case None => []
    case Some(n) =>
      Ask(at, SharedGate, [n, h]) + Ask(at, SharedUp, [n, h]) + Ask(at, SharedDown, [h, n])
      + AskIf(gated, at, SharedGateWeight, [1, h])
  }

  function MoeRequests(h: int, moe: MoeSpec, naming: Naming, at: Place): seq<Request> {
    Ask(at, MoeRouter, [moe.experts, h])
    + AskIf(moe.bias, at, MoeRouterBias, [moe.experts])
    + RoutedRequests(h, moe, at.layer in naming.packed, at)
    + SharedRequests(h, moe, at.layer in naming.gated, at)
  }

  function FeedForwardRequests(h: int, f: FeedForward, naming: Naming, at: Place): seq<Request> {
    match f
    case NoFeedForward => []
    case Dense(n, parallel) => DenseRequests(h, n, parallel, at)
    case Moe(moe) => MoeRequests(h, moe, naming, at)
  }

  // ----- the whole plan

  function PlaceOf(g: Graph, i: nat): Place { Place(i, if i < |g.physical| then g.physical[i] else i) }

  function PerLayerRequests(h: int, n: int, at: Place): seq<Request> {
    Ask(at, PerLayerInputGate, [n, h])
    + Ask(at, PerLayerProjection, [h, n])
    + Ask(at, PerLayerInputNorm, [h])
    + Ask(at, LayerScalar, [1])
  }

  function TailRequests(g: Graph, l: LayerSpec, at: Place): seq<Request> {
    AskNorm(at, AttentionPostNorm, l.mixerAfter, [g.hidden]) + AskNorm(at, FfnOutputNorm, l.ffAfter, [g.hidden])
    + match g.perLayerInput
      case None => []
      case Some(n) => PerLayerRequests(g.hidden, n, at)
  }

  function HeadRequests(g: Graph, l: LayerSpec, at: Place): seq<Request> {
    AskNorm(at, AttentionInputNorm, l.mixerBefore, [g.hidden]) + MixerRequests(g.hidden, l.mixer, at)
  }

  function MiddleRequests(g: Graph, l: LayerSpec, naming: Naming, at: Place): seq<Request> {
    (if l.feedForward.NoFeedForward? then [] else AskNorm(at, FfnInputNorm, l.ffBefore, [g.hidden]))
    + FeedForwardRequests(g.hidden, l.feedForward, naming, at)
  }

  function LayerRequests(g: Graph, l: LayerSpec, naming: Naming, at: Place): seq<Request> {
    HeadRequests(g, l, at) + MiddleRequests(g, l, naming, at) + TailRequests(g, l, at)
  }

  const NOWHERE := Place(-1, -1)

  function UnlayeredRequests(g: Graph): seq<Request> {
    Ask(NOWHERE, TokenEmbedding, [g.vocab, g.hidden])
    + AskNorm(NOWHERE, FinalNorm, Some(g.finalNorm), [g.hidden])
    + Ask(NOWHERE, LanguageModelHead, [g.vocab, g.hidden])
    + match g.perLayerInput
      case None => []
      case Some(n) =>
        Ask(NOWHERE, PerLayerEmbedding, [g.vocab, |g.layers| * n])
        + Ask(NOWHERE, PerLayerContextProjection, [|g.layers| * n, g.hidden])
        + Ask(NOWHERE, PerLayerProjectionNorm, [n])
  }

  function PlanTo(g: Graph, naming: Naming, n: nat): seq<Request>
    requires n <= |g.layers|
  {
    if n == 0 then UnlayeredRequests(g)
    else PlanTo(g, naming, n - 1) + LayerRequests(g, g.layers[n - 1], naming, PlaceOf(g, n - 1))
  }

  function Plan(g: Graph, naming: Naming): seq<Request> { PlanTo(g, naming, |g.layers|) }

  predicate Complete(g: Graph) { g.layers != [] && g.hidden > 0 }

  /** Every layer has a checkpoint layer: the map is empty or long enough. */
  predicate Mapped(g: Graph) { g.physical == [] || |g.layers| <= |g.physical| }
}
