/** No tensor is asked for twice: within a layer the requests come in a fixed order of
    roles, and of experts within the routed ones. */
module WeightPlanKeys {
  import opened KvSharing
  import opened Options
  import opened WeightPlan

  predicate SameKey(a: Request, b: Request) { a.role == b.role && a.layer == b.layer && a.expert == b.expert }

  ghost predicate NoDuplicates(plan: seq<Request>) {
    forall i, j :: 0 <= i < j < |plan| ==> !SameKey(plan[i], plan[j])
  }

  /** The order of roles in one layer; `early` where an MLP block takes the place of the
      mixer and asks for its two matrices there. */
  function Rank(role: Role, early: bool): nat {
    match role
    case TokenEmbedding => 0 case FinalNorm => 1 case LanguageModelHead => 2
    case PerLayerEmbedding => 3 case PerLayerContextProjection => 4 case PerLayerProjectionNorm => 5
    case AttentionInputNorm => 10
    case AttentionQuery => 11 case AttentionQueryNorm => 12 case AttentionKey => 13 case AttentionValue => 14
    case AttentionKeyNorm => 15 case AttentionValueNorm => 16 case AttentionOutput => 17
    case LatentQueryProjection => 11 case LatentQueryExpansion => 12 case LatentQueryNorm => 13
    case LatentKeyProjection => 14 case LatentKeyNorm => 15 case LatentExpansion => 16
    case LatentQuery => 11 case LatentQueryRope => 12 case LatentKey => 13 case LatentValue => 14
    case LatentKeyRope => 15
    case LatentOutput => 17
    case AttentionGate => 18 case RelativePositionBias => 19
    case ConvInput => 11 case ConvKernel => 12 case ConvOutput => 13
    case DeltaQuery => 11 case DeltaKey => 12 case DeltaValue => 13 case DeltaDecay => 14 case DeltaOutputGate => 15
    case DeltaQueryConv => 16 case DeltaKeyConv => 17 case DeltaValueConv => 18
    case DeltaQkv => 11 case DeltaZ => 12 case DeltaAlpha => 13
    case DeltaBeta => 20 case DeltaDtBias => 21 case DeltaALog => 22 case DeltaConv => 23 case DeltaNorm => 24
    case DeltaOutput => 25
    case MambaInput => 11 case MambaConv => 12 case MambaConvBias => 13 case MambaDtBias => 14 case MambaALog => 15
    case MambaD => 16 case MambaNorm => 17 case MambaOutput => 18
    case FfnInputNorm => 30
    case FfnGate => 31 case FfnUp => if early then 11 else 32 case FfnDown => if early then 12 else 33
    case ParallelGate => 34 case ParallelUp => 35 case ParallelDown => 36
    case MoeRouter => 31 case MoeRouterBias => 32 case PackedGateUp => 33 case PackedDown => 34
    case ExpertGate => 35 case ExpertUp => 35 case ExpertDown => 35
    case SharedGate => 36 case SharedUp => 37 case SharedDown => 38 case SharedGateWeight => 39
    case AttentionPostNorm => 40 case FfnOutputNorm => 41
    case PerLayerInputGate => 42 case PerLayerProjection => 43 case PerLayerInputNorm => 44 case LayerScalar => 45
  }

  function Turn(role: Role): nat {
    match role
    case ExpertUp => 1
    case ExpertDown => 2
    case _ => 0
  }

  predicate Before(a: Request, b: Request, early: bool) {
    || Rank(a.role, early) < Rank(b.role, early)
    || (Rank(a.role, early) == Rank(b.role, early) && a.expert < b.expert)
    || (Rank(a.role, early) == Rank(b.role, early) && a.expert == b.expert && Turn(a.role) < Turn(b.role))
  }

  ghost predicate Ordered(list: seq<Request>, early: bool) {
    forall i, j :: 0 <= i < j < |list| ==> Before(list[i], list[j], early)
  }

  /** In order, all of one layer, and all of ranks from `lo` to below `hi`. */
  ghost predicate Within(list: seq<Request>, layer: int, early: bool, lo: nat, hi: nat) {
    && Ordered(list, early)
    && forall i :: 0 <= i < |list| ==> list[i].layer == layer && lo <= Rank(list[i].role, early) < hi
  }

  lemma OrderedDistinct(list: seq<Request>, early: bool)
    requires Ordered(list, early)
    ensures NoDuplicates(list)
  {
    forall i, j | 0 <= i < j < |list| ensures !SameKey(list[i], list[j]) { assert Before(list[i], list[j], early); }
  }

  lemma Join(a: seq<Request>, b: seq<Request>, layer: int, early: bool, lo: nat, mid: nat, mid': nat, hi: nat)
    requires Within(a, layer, early, lo, mid) && Within(b, layer, early, mid', hi) && lo <= mid <= mid' <= hi
    ensures Within(a + b, layer, early, lo, hi)
  {
    hide Rank, Turn;
  }

  lemma Widen(list: seq<Request>, layer: int, early: bool, lo: nat, hi: nat, lo': nat, hi': nat)
    requires Within(list, layer, early, lo, hi) && lo' <= lo && hi <= hi'
    ensures Within(list, layer, early, lo', hi')
  {
    hide Rank, Turn;
  }

  lemma NothingWithin(layer: int, early: bool, lo: nat, hi: nat)
    ensures Within([], layer, early, lo, hi)
  {
  }

  /** At most one request, of the given role. */
  ghost predicate AtMost(list: seq<Request>, layer: int, role: Role) {
    |list| <= 1 && (list != [] ==> list[0].layer == layer && list[0].role == role)
  }

  /** One more request, or none, of a later role. */
  lemma ThenMaybe(list: seq<Request>, more: seq<Request>, role: Role, layer: int, early: bool, lo: nat, hi: nat)
    requires Within(list, layer, early, lo, hi) && AtMost(more, layer, role) && lo <= hi <= Rank(role, early)
    ensures Within(list + more, layer, early, lo, Rank(role, early) + 1)
  {
    hide Rank, Turn;
  }

  lemma First(at: Place, role: Role, shape: seq<int>, early: bool) returns (r: seq<Request>)
    ensures r == Ask(at, role, shape) && Within(r, at.layer, early, Rank(role, early), Rank(role, early) + 1)
  {
    hide Rank, Turn;
    r := Ask(at, role, shape);
  }

  lemma FirstNorm(at: Place, role: Role, norm: Option<Norm>, shape: seq<int>, early: bool) returns (r: seq<Request>)
    ensures r == AskNorm(at, role, norm, shape) && Within(r, at.layer, early, Rank(role, early), Rank(role, early) + 1)
  {
    hide Rank, Turn;
    r := AskNorm(at, role, norm, shape);
  }

  lemma Next(list: seq<Request>, at: Place, role: Role, shape: seq<int>, early: bool, lo: nat, hi: nat)
    returns (r: seq<Request>)
    requires Within(list, at.layer, early, lo, hi) && lo <= hi <= Rank(role, early)
    ensures r == list + Ask(at, role, shape) && Within(r, at.layer, early, lo, Rank(role, early) + 1)
  {
    hide Within;
    r := list + Ask(at, role, shape);
    ThenMaybe(list, Ask(at, role, shape), role, at.layer, early, lo, hi);
  }

  lemma NextIf(list: seq<Request>, c: bool, at: Place, role: Role, shape: seq<int>, early: bool, lo: nat, hi: nat)
    returns (r: seq<Request>)
    requires Within(list, at.layer, early, lo, hi) && lo <= hi <= Rank(role, early)
    ensures r == list + AskIf(c, at, role, shape) && Within(r, at.layer, early, lo, Rank(role, early) + 1)
  {
    hide Within;
    r := list + AskIf(c, at, role, shape);
    ThenMaybe(list, AskIf(c, at, role, shape), role, at.layer, early, lo, hi);
  }

  lemma NextNorm(list: seq<Request>, at: Place, role: Role, norm: Option<Norm>, shape: seq<int>, early: bool, lo: nat,
                 hi: nat)
    returns (r: seq<Request>)
    requires Within(list, at.layer, early, lo, hi) && lo <= hi <= Rank(role, early)
    ensures r == list + AskNorm(at, role, norm, shape) && Within(r, at.layer, early, lo, Rank(role, early) + 1)
  {
    hide Within;
    r := list + AskNorm(at, role, norm, shape);
    ThenMaybe(list, AskNorm(at, role, norm, shape), role, at.layer, early, lo, hi);
  }

  lemma KeyValueWithin(h: int, a: AttentionSpec, at: Place)
    ensures Within(KeyValueRequests(h, a, at), at.layer, false, 13, 17)
  {
    NothingWithin(at.layer, false, 13, 17);
    hide Within, Ask, AskNorm;
    var r := First(at, AttentionKey, [KvWidth(a), h], false);
    r := Next(r, at, AttentionValue, [KvWidth(a), h], false, 13, 14);
    r := NextNorm(r, at, AttentionKeyNorm, a.keyNorm, [NormWidth(a.keyNorm, a.headDim, KvWidth(a))], false, 13, 15);
    r := NextNorm(r, at, AttentionValueNorm, a.valueNorm, [NormWidth(a.valueNorm, a.headDim, KvWidth(a))],
                  false, 13, 16);
  }

  lemma QueryWithin(h: int, a: AttentionSpec, at: Place)
    ensures Within(QueryRequests(h, a, at), at.layer, false, 11, 13)
  {
  }

  lemma DirectBegins(h: int, a: AttentionSpec, at: Place) returns (r: seq<Request>)
    requires a.state.Latent?
    ensures r == Ask(at, LatentQuery, [LatentContentWidth(a), h])
      + AskIf(LatentRopeWidth(a) != 0, at, LatentQueryRope, [LatentRopeWidth(a), h])
      + Ask(at, LatentKey, [a.state.rank, h])
    ensures Within(r, at.layer, false, 11, 14)
  {
    hide Within, Ask, AskIf;
    r := First(at, LatentQuery, [LatentContentWidth(a), h], false);
    r := NextIf(r, LatentRopeWidth(a) != 0, at, LatentQueryRope, [LatentRopeWidth(a), h], false, 11, 12);
    r := Next(r, at, LatentKey, [a.state.rank, h], false, 11, 13);
  }

  lemma DirectWithin(h: int, a: AttentionSpec, at: Place)
    requires a.state.Latent?
    ensures Within(DirectLatentRequests(h, a, at), at.layer, false, 11, 18)
  {
    hide Within, Ask, AskIf;
    var r := DirectBegins(h, a, at);
    r := Next(r, at, LatentValue, [a.state.rank, h], false, 11, 14);
    r := NextIf(r, a.state.decoupled && a.state.ropeDim != 0, at, LatentKeyRope, [a.state.ropeDim, h], false, 11, 15);
    r := Next(r, at, LatentOutput, [h, LatentContentWidth(a)], false, 11, 16);
  }

  lemma FactorizedBegins(h: int, a: AttentionSpec, f: Factors, at: Place) returns (r: seq<Request>)
    requires a.state.Latent?
    ensures r == Ask(at, LatentQueryProjection, [f.queryRank, h])
      + Ask(at, LatentQueryExpansion, [a.queryHeads * (a.state.nopeDim + a.state.ropeDim), f.queryRank])
      + Ask(at, LatentQueryNorm, [f.queryRank])
      + Ask(at, LatentKeyProjection, [a.state.rank + a.state.ropeDim, h])
    ensures Within(r, at.layer, false, 11, 15)
  {
    hide Within, Ask, AskIf;
    r := First(at, LatentQueryProjection, [f.queryRank, h], false);
    r := Next(r, at, LatentQueryExpansion, [a.queryHeads * (a.state.nopeDim + a.state.ropeDim), f.queryRank],
              false, 11, 12);
    r := Next(r, at, LatentQueryNorm, [f.queryRank], false, 11, 13);
    r := Next(r, at, LatentKeyProjection, [a.state.rank + a.state.ropeDim, h], false, 11, 14);
  }

  lemma FactorizedWithin(h: int, a: AttentionSpec, f: Factors, at: Place)
    requires a.state.Latent?
    ensures Within(FactorizedRequests(h, a, f, at), at.layer, false, 11, 18)
  {
    hide Within, Ask, AskIf;
    var r := FactorizedBegins(h, a, f, at);
    r := Next(r, at, LatentKeyNorm, [a.state.rank], false, 11, 15);
    r := Next(r, at, LatentExpansion, [a.queryHeads * (a.state.nopeDim + f.valueHeadDim), a.state.rank], false, 11, 16);
    r := Next(r, at, LatentOutput, [h, LatentOutputWidth(a)], false, 11, 17);
  }

  lemma CoreWithin(h: int, a: AttentionSpec, at: Place)
    ensures Within(AttentionCore(h, a, at), at.layer, false, 11, 18)
  {
    hide Within, QueryRequests, KeyValueRequests, FactorizedRequests, DirectLatentRequests;
    var output := Ask(at, AttentionOutput, [h, QueryWidth(a)]);
    QueryWithin(h, a, at);
    if a.external {
      ThenMaybe(QueryRequests(h, a, at), output, AttentionOutput, at.layer, false, 11, 13);
    } else if a.state.Latent? {
      match a.state.factors
      case Some(f) => FactorizedWithin(h, a, f, at);
      case None => DirectWithin(h, a, at);
    } else {
      KeyValueWithin(h, a, at);
      Join(QueryRequests(h, a, at), KeyValueRequests(h, a, at), at.layer, false, 11, 13, 13, 17);
      ThenMaybe(QueryRequests(h, a, at) + KeyValueRequests(h, a, at), output, AttentionOutput, at.layer, false, 11, 17);
    }
  }

  lemma AttentionWithin(h: int, a: AttentionSpec, at: Place)
    ensures Within(AttentionRequests(h, a, at), at.layer, false, 11, 20)
  {
    hide Within, AttentionCore;
    CoreWithin(h, a, at);
    var gate := AskIf(a.gate.Some? && !a.gate.value.packed, at, AttentionGate, [GateWidth(a), h]);
    var bias := match a.relativeBuckets
      case None => []
      case Some(n) => Ask(at, RelativePositionBias, [a.queryHeads * n]);
    ThenMaybe(AttentionCore(h, a, at), gate, AttentionGate, at.layer, false, 11, 18);
    ThenMaybe(AttentionCore(h, a, at) + gate, bias, RelativePositionBias, at.layer, false, 11, 19);
    assert AttentionRequests(h, a, at) == AttentionCore(h, a, at) + gate + bias;
  }

  lemma DeltaWithin(h: int, m: Mixer, at: Place)
    requires m.DeltaNet?
    ensures Within(DeltaProjections(h, m, at) + DeltaCommon(h, m, at), at.layer, false, 11, 26)
  {
    DeltaProjectionsWithin(h, m, at);
    DeltaCommonWithin(h, m, at);
    hide Within, DeltaProjections, DeltaCommon;
    Join(DeltaProjections(h, m, at), DeltaCommon(h, m, at), at.layer, false, 11, 20, 20, 26);
  }

  lemma LongBegins(h: int, m: Mixer, at: Place) returns (r: seq<Request>)
    requires m.DeltaNet? && m.factorized
    ensures r == Ask(at, DeltaQuery, [DeltaKeyWidth(m), h])
      + Ask(at, DeltaKey, [DeltaKeyWidth(m), h])
      + Ask(at, DeltaValue, [DeltaValueWidth(m), h])
      + Ask(at, DeltaDecay, [DeltaDecayWidth(m), h])
    ensures Within(r, at.layer, false, 11, 15)
  {
    hide Within, Ask, AskIf;
    r := First(at, DeltaQuery, [DeltaKeyWidth(m), h], false);
    r := Next(r, at, DeltaKey, [DeltaKeyWidth(m), h], false, 11, 12);
    r := Next(r, at, DeltaValue, [DeltaValueWidth(m), h], false, 11, 13);
    r := Next(r, at, DeltaDecay, [DeltaDecayWidth(m), h], false, 11, 14);
  }

  lemma LongProjectionsWithin(h: int, m: Mixer, at: Place)
    requires m.DeltaNet? && m.factorized
    ensures Within(DeltaProjections(h, m, at), at.layer, false, 11, 20)
  {
    hide Within, Ask, AskIf;
    var r := LongBegins(h, m, at);
    r := Next(r, at, DeltaOutputGate, [DeltaValueWidth(m), h], false, 11, 15);
    r := Next(r, at, DeltaQueryConv, [DeltaKeyWidth(m), 1, m.kernel], false, 11, 16);
    r := Next(r, at, DeltaKeyConv, [DeltaKeyWidth(m), 1, m.kernel], false, 11, 17);
    r := Next(r, at, DeltaValueConv, [DeltaValueWidth(m), 1, m.kernel], false, 11, 18);
    Widen(r, at.layer, false, 11, 19, 11, 20);
  }

  lemma ShortProjectionsWithin(h: int, m: Mixer, at: Place)
    requires m.DeltaNet? && !m.factorized
    ensures Within(DeltaProjections(h, m, at), at.layer, false, 11, 20)
  {
    hide Within, Ask, AskIf;
    var r := First(at, DeltaQkv, [DeltaQkvWidth(m), h], false);
    r := Next(r, at, DeltaZ, [DeltaValueWidth(m), h], false, 11, 12);
    r := Next(r, at, DeltaAlpha, [m.valueHeads, h], false, 11, 13);
    Widen(r, at.layer, false, 11, 14, 11, 20);
  }

  lemma DeltaProjectionsWithin(h: int, m: Mixer, at: Place)
    requires m.DeltaNet?
    ensures Within(DeltaProjections(h, m, at), at.layer, false, 11, 20)
  {
    if m.factorized { LongProjectionsWithin(h, m, at); } else { ShortProjectionsWithin(h, m, at); }
  }

  lemma CommonBegins(h: int, m: Mixer, at: Place) returns (r: seq<Request>)
    requires m.DeltaNet?
    ensures r == Ask(at, DeltaBeta, [m.valueHeads, h])
      + Ask(at, DeltaDtBias, [DeltaDecayWidth(m)])
      + Ask(at, DeltaALog, [m.valueHeads])
    ensures Within(r, at.layer, false, 20, 23)
  {
    hide Within, Ask, AskIf;
    r := First(at, DeltaBeta, [m.valueHeads, h], false);
    r := Next(r, at, DeltaDtBias, [DeltaDecayWidth(m)], false, 20, 21);
    r := Next(r, at, DeltaALog, [m.valueHeads], false, 20, 22);
  }

  lemma DeltaCommonWithin(h: int, m: Mixer, at: Place)
    requires m.DeltaNet?
    ensures Within(DeltaCommon(h, m, at), at.layer, false, 20, 26)
  {
    hide Within, Ask, AskIf;
    var r := CommonBegins(h, m, at);
    r := Next(r, at, DeltaConv, [DeltaQkvWidth(m), 1, m.kernel], false, 20, 23);
    r := Next(r, at, DeltaNorm, [m.valueDim], false, 20, 24);
    r := Next(r, at, DeltaOutput, [h, DeltaValueWidth(m)], false, 20, 25);
  }

  lemma MambaBegins(h: int, m: Mixer, at: Place) returns (r: seq<Request>)
    requires m.Mamba?
    ensures r == Ask(at, MambaInput, [MambaInputWidth(m), h])
      + Ask(at, MambaConv, [MambaConvDim(m), 1, m.kernel])
      + Ask(at, MambaConvBias, [MambaConvDim(m)])
      + Ask(at, MambaDtBias, [m.heads])
    ensures Within(r, at.layer, false, 11, 15)
  {
    hide Within, Ask, AskIf;
    r := First(at, MambaInput, [MambaInputWidth(m), h], false);
    r := Next(r, at, MambaConv, [MambaConvDim(m), 1, m.kernel], false, 11, 12);
    r := Next(r, at, MambaConvBias, [MambaConvDim(m)], false, 11, 13);
    r := Next(r, at, MambaDtBias, [m.heads], false, 11, 14);
  }

  lemma MambaWithin(h: int, m: Mixer, at: Place)
    requires m.Mamba?
    ensures Within(MambaRequests(h, m, at), at.layer, false, 11, 26)
  {
    hide Within, Ask, AskIf;
    var r := MambaBegins(h, m, at);
    r := Next(r, at, MambaALog, [m.heads], false, 11, 15);
    r := Next(r, at, MambaD, [m.heads], false, 11, 16);
    r := Next(r, at, MambaNorm, [m.intermediate], false, 11, 17);
    r := Next(r, at, MambaOutput, [h, m.intermediate], false, 11, 18);
    Widen(r, at.layer, false, 11, 19, 11, 26);
  }

  lemma ConvWithin(h: int, m: Mixer, at: Place)
    requires m.ShortConv?
    ensures Within(MixerRequests(h, m, at), at.layer, false, 11, 26)
  {
    hide Within, Ask, AskIf;
    var r := First(at, ConvInput, [3 * h, h], false);
    r := Next(r, at, ConvKernel, [h, 1, m.cacheLength], false, 11, 12);
    r := Next(r, at, ConvOutput, [h, h], false, 11, 13);
    Widen(r, at.layer, false, 11, 14, 11, 26);
  }

  lemma MixerWithin(h: int, m: Mixer, at: Place)
    ensures Within(MixerRequests(h, m, at), at.layer, m.MlpBlock?, 11, 26)
  {
    match m
    case Attend(a) =>
      AttentionWithin(h, a, at);
      hide Within;
      Widen(AttentionRequests(h, a, at), at.layer, false, 11, 20, 11, 26);
    case ShortConv(_) => ConvWithin(h, m, at);
    case DeltaNet(_, _, _, _, _, _, _) => DeltaWithin(h, m, at);
    case Mamba(_, _, _, _, _) => MambaWithin(h, m, at);
    case MlpBlock(_) =>
  }

  lemma {:induction false} ExpertsWithin(h: int, n: int, count: nat, at: Place, early: bool)
    ensures Within(Experts(h, n, count, at), at.layer, early, 35, 36)
    ensures forall i :: 0 <= i < |Experts(h, n, count, at)| ==> Experts(h, n, count, at)[i].expert < count
  {
    hide Within, OneExpert;
    if count == 0 {
      NothingWithin(at.layer, early, 35, 36);
    } else {
      ExpertsWithin(h, n, count - 1, at, early);
      OneExpertWithin(h, n, count - 1, at, early);
      LaterExperts(Experts(h, n, count - 1, at), OneExpert(h, n, count - 1, at), at.layer, early, count - 1);
    }
  }

  lemma OneExpertWithin(h: int, n: int, expert: int, at: Place, early: bool)
    ensures Within(OneExpert(h, n, expert, at), at.layer, early, 35, 36)
    ensures forall i :: 0 <= i < 3 ==> OneExpert(h, n, expert, at)[i].expert == expert
    ensures |OneExpert(h, n, expert, at)| == 3
  {
    var gate, up := ExpertRequest(ExpertGate, expert, [n, h], at), ExpertRequest(ExpertUp, expert, [n, h], at);
    var down := ExpertRequest(ExpertDown, expert, [h, n], at);
    InTurn(gate, up, down, early);
    hide Before, Rank, Turn, ExpertRequest;
  }

  lemma InTurn(a: Request, b: Request, c: Request, early: bool)
    requires a.role == ExpertGate && b.role == ExpertUp && c.role == ExpertDown && a.expert == b.expert == c.expert
    ensures Before(a, b, early) && Before(a, c, early) && Before(b, c, early)
    ensures Rank(a.role, early) == Rank(b.role, early) == Rank(c.role, early) == 35
  {
    RankOfExperts(early);
    hide Rank;
  }

  lemma RankOfExperts(early: bool)
    ensures Rank(ExpertGate, early) == Rank(ExpertUp, early) == Rank(ExpertDown, early) == 35
  {
  }

  lemma LaterExperts(a: seq<Request>, b: seq<Request>, layer: int, early: bool, n: int)
    requires Within(a, layer, early, 35, 36) && Within(b, layer, early, 35, 36)
    requires (forall i :: 0 <= i < |a| ==> a[i].expert < n) && forall i :: 0 <= i < |b| ==> b[i].expert == n
    ensures Within(a + b, layer, early, 35, 36)
  {
    hide Rank, Turn;
  }

  lemma PackedWithin(h: int, moe: MoeSpec, at: Place, early: bool)
    ensures Within(RoutedRequests(h, moe, true, at), at.layer, early, 33, 36)
  {
    hide Within, Ask;
    var r := First(at, PackedGateUp, [moe.experts, 2 * moe.intermediate, h], early);
    r := Next(r, at, PackedDown, [moe.experts, h, moe.intermediate], early, 33, 34);
    Widen(r, at.layer, early, 33, 35, 33, 36);
  }

  lemma RoutedWithin(h: int, moe: MoeSpec, packed: bool, at: Place, early: bool)
    ensures Within(RoutedRequests(h, moe, packed, at), at.layer, early, 33, 36)
  {
    if packed {
      PackedWithin(h, moe, at, early);
      hide Within, Ask;
    } else {
      ExpertsWithin(h, moe.intermediate, Count(moe.experts), at, early);
      hide Within;
      Widen(Experts(h, moe.intermediate, Count(moe.experts), at), at.layer, early, 35, 36, 33, 36);
    }
  }

  lemma SharedBegins(h: int, n: int, at: Place, early: bool) returns (r: seq<Request>)
    ensures r == Ask(at, SharedGate, [n, h]) + Ask(at, SharedUp, [n, h]) + Ask(at, SharedDown, [h, n])
    ensures Within(r, at.layer, early, 36, 39)
  {
    hide Within, Ask;
    r := First(at, SharedGate, [n, h], early);
    r := Next(r, at, SharedUp, [n, h], early, 36, 37);
    r := Next(r, at, SharedDown, [h, n], early, 36, 38);
  }

  lemma SharedWithin(h: int, moe: MoeSpec, gated: bool, at: Place, early: bool)
    ensures Within(SharedRequests(h, moe, gated, at), at.layer, early, 36, 40)
  {
    NothingWithin(at.layer, early, 36, 40);
    hide Within, Ask, AskIf;
    match moe.shared
    case None =>
    case Some(n) =>
      var r := SharedBegins(h, n, at, early);
      r := NextIf(r, gated, at, SharedGateWeight, [1, h], early, 36, 39);
  }

  lemma MoeWithin(h: int, moe: MoeSpec, naming: Naming, at: Place, early: bool)
    ensures Within(MoeRequests(h, moe, naming, at), at.layer, early, 31, 40)
  {
    hide Within, RoutedRequests, SharedRequests;
    var router := Ask(at, MoeRouter, [moe.experts, h]);
    var bias := AskIf(moe.bias, at, MoeRouterBias, [moe.experts]);
    var routed := RoutedRequests(h, moe, at.layer in naming.packed, at);
    NothingWithin(at.layer, early, 31, 31);
    ThenMaybe([], router, MoeRouter, at.layer, early, 31, 31);
    assert [] + router == router;
    ThenMaybe(router, bias, MoeRouterBias, at.layer, early, 31, 32);
    RoutedWithin(h, moe, at.layer in naming.packed, at, early);
    Join(router + bias, routed, at.layer, early, 31, 33, 33, 36);
    SharedWithin(h, moe, at.layer in naming.gated, at, early);
    Join(router + bias + routed, SharedRequests(h, moe, at.layer in naming.gated, at), at.layer, early, 31, 36, 36, 40);
  }

  lemma DenseBegins(h: int, n: int, parallel: int, at: Place) returns (r: seq<Request>)
    ensures r == Ask(at, FfnGate, [n, h])
      + Ask(at, FfnUp, [n, h])
      + Ask(at, FfnDown, [h, n])
    ensures Within(r, at.layer, false, 31, 34)
  {
    hide Within, Ask, AskIf;
    r := First(at, FfnGate, [n, h], false);
    r := Next(r, at, FfnUp, [n, h], false, 31, 32);
    r := Next(r, at, FfnDown, [h, n], false, 31, 33);
  }

  lemma DenseWithin(h: int, n: int, parallel: int, at: Place)
    ensures Within(DenseRequests(h, n, parallel, at), at.layer, false, 31, 40)
  {
    hide Within, Ask, AskIf;
    var r := DenseBegins(h, n, parallel, at);
    r := NextIf(r, parallel > 0, at, ParallelGate, [parallel, h], false, 31, 34);
    r := NextIf(r, parallel > 0, at, ParallelUp, [parallel, h], false, 31, 35);
    r := NextIf(r, parallel > 0, at, ParallelDown, [h, parallel], false, 31, 36);
    Widen(r, at.layer, false, 31, 37, 31, 40);
  }

  lemma MiddleWithin(g: Graph, l: LayerSpec, naming: Naming, at: Place)
    requires !(l.mixer.MlpBlock? && l.feedForward.Dense?)
    ensures Within(MiddleRequests(g, l, naming, at), at.layer, l.mixer.MlpBlock?, 30, 40)
  {
    hide Within, DenseRequests, MoeRequests;
    var early := l.mixer.MlpBlock?;
    NothingWithin(at.layer, early, 30, 40);
    var nothing: seq<Request> := [];
    assert nothing + nothing == nothing;
    if !l.feedForward.NoFeedForward? {
      var norm := AskNorm(at, FfnInputNorm, l.ffBefore, [g.hidden]);
      NothingWithin(at.layer, early, 30, 30);
      ThenMaybe([], norm, FfnInputNorm, at.layer, early, 30, 30);
      assert [] + norm == norm;
      if l.feedForward.Dense? {
        DenseWithin(g.hidden, l.feedForward.intermediate, l.feedForward.parallel, at);
      } else {
        MoeWithin(g.hidden, l.feedForward.moe, naming, at, early);
      }
      Join(norm, FeedForwardRequests(g.hidden, l.feedForward, naming, at), at.layer, early, 30, 31, 31, 40);
    }
  }

  lemma PerLayerBegins(h: int, n: int, at: Place, early: bool) returns (p: seq<Request>)
    ensures p == Ask(at, PerLayerInputGate, [n, h]) + Ask(at, PerLayerProjection, [h, n])
    ensures Within(p, at.layer, early, 42, 44)
  {
    hide Within, Ask;
    p := First(at, PerLayerInputGate, [n, h], early);
    p := Next(p, at, PerLayerProjection, [h, n], early, 42, 43);
  }

  lemma PerLayerWithin(h: int, n: int, at: Place, early: bool)
    ensures Within(PerLayerRequests(h, n, at), at.layer, early, 42, 46)
  {
    hide Within, Ask;
    var p := PerLayerBegins(h, n, at, early);
    p := Next(p, at, PerLayerInputNorm, [h], early, 42, 44);
    p := Next(p, at, LayerScalar, [1], early, 42, 45);
  }

  lemma TailWithin(g: Graph, l: LayerSpec, at: Place, early: bool)
    ensures Within(TailRequests(g, l, at), at.layer, early, 40, 46)
  {
    hide Within, AskNorm, PerLayerRequests;
    var r := FirstNorm(at, AttentionPostNorm, l.mixerAfter, [g.hidden], early);
    r := NextNorm(r, at, FfnOutputNorm, l.ffAfter, [g.hidden], early, 40, 41);
    match g.perLayerInput
    case None =>
      assert r + [] == r;
      Widen(r, at.layer, early, 40, 42, 40, 46);
    case Some(n) =>
      PerLayerWithin(g.hidden, n, at, early);
      Join(r, PerLayerRequests(g.hidden, n, at), at.layer, early, 40, 42, 42, 46);
  }

  lemma HeadWithin(g: Graph, l: LayerSpec, at: Place)
    ensures Within(HeadRequests(g, l, at), at.layer, l.mixer.MlpBlock?, 10, 30)
  {
    hide Within, MixerRequests;
    var early := l.mixer.MlpBlock?;
    var norm := AskNorm(at, AttentionInputNorm, l.mixerBefore, [g.hidden]);
    NothingWithin(at.layer, early, 10, 10);
    ThenMaybe([], norm, AttentionInputNorm, at.layer, early, 10, 10);
    assert [] + norm == norm;
    MixerWithin(g.hidden, l.mixer, at);
    Join(norm, MixerRequests(g.hidden, l.mixer, at), at.layer, early, 10, 11, 11, 26);
    Widen(norm + MixerRequests(g.hidden, l.mixer, at), at.layer, early, 10, 26, 10, 30);
  }

  lemma LayerWithin(g: Graph, l: LayerSpec, naming: Naming, at: Place)
    requires !(l.mixer.MlpBlock? && l.feedForward.Dense?)
    ensures Within(LayerRequests(g, l, naming, at), at.layer, l.mixer.MlpBlock?, 10, 46)
  {
    hide Within, HeadRequests, MiddleRequests, TailRequests;
    var early := l.mixer.MlpBlock?;
    HeadWithin(g, l, at);
    MiddleWithin(g, l, naming, at);
    TailWithin(g, l, at, early);
    Join(HeadRequests(g, l, at), MiddleRequests(g, l, naming, at), at.layer, early, 10, 30, 30, 40);
    Join(HeadRequests(g, l, at) + MiddleRequests(g, l, naming, at), TailRequests(g, l, at), at.layer, early,
         10, 40, 40, 46);
  }

  lemma UnlayeredWithin(g: Graph)
    ensures Within(UnlayeredRequests(g), -1, false, 0, 6)
  {
    hide Within, Ask, AskNorm;
    var r := First(NOWHERE, TokenEmbedding, [g.vocab, g.hidden], false);
    r := NextNorm(r, NOWHERE, FinalNorm, Some(g.finalNorm), [g.hidden], false, 0, 1);
    r := Next(r, NOWHERE, LanguageModelHead, [g.vocab, g.hidden], false, 0, 2);
    match g.perLayerInput
    case None =>
      assert r + [] == r;
      Widen(r, -1, false, 0, 3, 0, 6);
    case Some(n) =>
      var p := First(NOWHERE, PerLayerEmbedding, [g.vocab, |g.layers| * n], false);
      p := Next(p, NOWHERE, PerLayerContextProjection, [|g.layers| * n, g.hidden], false, 3, 4);
      p := Next(p, NOWHERE, PerLayerProjectionNorm, [n], false, 3, 5);
      Join(r, p, -1, false, 0, 3, 3, 6);
  }

  // ----- the whole plan

  /** An MLP block in the mixer's place and a dense feed-forward ask for the same roles. */
  predicate Clashes(l: LayerSpec) { l.mixer.MlpBlock? && l.feedForward.Dense? }

  predicate NoClash(g: Graph) { forall i :: 0 <= i < |g.layers| ==> !Clashes(g.layers[i]) }

  lemma Separate(a: seq<Request>, b: seq<Request>, n: int)
    requires NoDuplicates(a) && NoDuplicates(b)
    requires (forall i :: 0 <= i < |a| ==> a[i].layer < n) && forall i :: 0 <= i < |b| ==> b[i].layer == n
    ensures NoDuplicates(a + b) && forall i :: 0 <= i < |a + b| ==> (a + b)[i].layer < n + 1
  {
  }

  lemma {:induction false} DistinctTo(g: Graph, naming: Naming, n: nat)
    requires n <= |g.layers| && NoClash(g)
    ensures NoDuplicates(PlanTo(g, naming, n)) &&
      forall i :: 0 <= i < |PlanTo(g, naming, n)| ==> PlanTo(g, naming, n)[i].layer < n
  {
    hide LayerRequests, UnlayeredRequests, NoDuplicates, SameKey;
    if n == 0 {
      UnlayeredWithin(g);
      OrderedDistinct(UnlayeredRequests(g), false);
    } else {
      DistinctTo(g, naming, n - 1);
      var l, at := g.layers[n - 1], PlaceOf(g, n - 1);
      LayerWithin(g, l, naming, at);
      OrderedDistinct(LayerRequests(g, l, naming, at), l.mixer.MlpBlock?);
      Separate(PlanTo(g, naming, n - 1), LayerRequests(g, l, naming, at), n - 1);
    }
  }

  lemma {:induction false} LayerInPlan(g: Graph, naming: Naming, n: nat, i: nat)
    requires i < n <= |g.layers|
    ensures exists k :: StandsAt(PlanTo(g, naming, n), LayerRequests(g, g.layers[i], naming, PlaceOf(g, i)), k)
  {
    hide LayerRequests, UnlayeredRequests, PlaceOf;
    var mine := LayerRequests(g, g.layers[i], naming, PlaceOf(g, i));
    var whole := PlanTo(g, naming, n);
    if i == n - 1 {
      assert StandsAt(whole, mine, |PlanTo(g, naming, n - 1)|);
    } else {
      LayerInPlan(g, naming, n - 1, i);
      var k :| StandsAt(PlanTo(g, naming, n - 1), mine, k);
      assert whole[k..k + |mine|] == PlanTo(g, naming, n - 1)[k..k + |mine|];
      assert StandsAt(whole, mine, k);
    }
  }

  /** `part` is the stretch of `whole` at `k`. */
  predicate StandsAt(whole: seq<Request>, part: seq<Request>, k: int) {
    0 <= k && k + |part| <= |whole| && whole[k..k + |part|] == part
  }

  lemma ClashDuplicates(g: Graph, l: LayerSpec, naming: Naming, at: Place)
    requires Clashes(l)
    ensures !NoDuplicates(LayerRequests(g, l, naming, at))
  {
    var list := LayerRequests(g, l, naming, at);
    var norm := AskNorm(at, AttentionInputNorm, l.mixerBefore, [g.hidden]);
    var inner := AskNorm(at, FfnInputNorm, l.ffBefore, [g.hidden]);
    var i, j := |norm|, |norm| + 2 + |inner| + 1;
    var head, middle, tail := HeadRequests(g, l, at), MiddleRequests(g, l, naming, at), TailRequests(g, l, at);
    hide TailRequests;
    assert |head| == |norm| + 2 && head[i].role == FfnUp && head[i].layer == at.layer && head[i].expert == -1;
    assert |middle| >= |inner| + 3 && middle[|inner| + 1].role == FfnUp && middle[|inner| + 1].layer == at.layer;
    assert middle[|inner| + 1].expert == -1;
    assert list == head + middle + tail;
    hide LayerRequests, HeadRequests, MiddleRequests;
    assert list[i] == head[i] && list[j] == middle[|inner| + 1];
    assert SameKey(list[i], list[j]);
  }

  /** The plan asks for no tensor twice exactly when no layer pairs an MLP block with a
      dense feed-forward. */
  lemma PlanDistinctIff(g: Graph, naming: Naming)
    ensures NoDuplicates(Plan(g, naming)) <==> NoClash(g)
  {
    hide LayerRequests, SameKey;
    var plan := Plan(g, naming);
    if NoClash(g) {
      DistinctTo(g, naming, |g.layers|);
    } else {
      var i :| 0 <= i < |g.layers| && Clashes(g.layers[i]);
      var mine := LayerRequests(g, g.layers[i], naming, PlaceOf(g, i));
      ClashDuplicates(g, g.layers[i], naming, PlaceOf(g, i));
      LayerInPlan(g, naming, |g.layers|, i);
      var k :| StandsAt(plan, mine, k);
      var p, q :| 0 <= p < q < |mine| && SameKey(mine[p], mine[q]);
      assert plan[k..k + |mine|][p] == plan[k + p] && plan[k..k + |mine|][q] == plan[k + q];
    }
  }
}
