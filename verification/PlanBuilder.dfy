/** The builder that pushes the requests of a plan one by one, proved against the plan as a
    function of the graph. */
module PlanBuilder {
  import opened KvSharing
  import opened Options
  import opened WeightPlan

  datatype PlanError = IncompleteGraph | UnmappedLayer

  datatype Built = Planned | Refused(why: PlanError)

  class Builder {
    var requests: seq<Request>

    constructor ()
      ensures requests == []
    {
      requests := [];
    }

    method Append(at: Place, role: Role, shape: seq<int>)
      modifies this
      ensures requests == old(requests) + Ask(at, role, shape)
    {
      requests := requests + [Request(role, at.layer, -1, shape, at.physical, Scale)];
    }

    method AppendNorm(at: Place, role: Role, norm: Option<Norm>, shape: seq<int>)
      modifies this
      ensures requests == old(requests) + AskNorm(at, role, norm, shape)
    {
      if norm.Some? && !norm.value.kind.NoWeight? {
        requests := requests + [Request(role, at.layer, -1, shape, at.physical, norm.value.kind)];
      }
    }

    method AppendQuery(h: int, a: AttentionSpec, at: Place)
      modifies this
      ensures requests == old(requests) + QueryRequests(h, a, at)
    {
      hide Ask, AskNorm;
      Append(at, AttentionQuery, [QueryProjectionWidth(a), h]);
      AppendNorm(at, AttentionQueryNorm, a.queryNorm, [NormWidth(a.queryNorm, a.headDim, QueryWidth(a))]);
    }

    method AppendKeyValue(h: int, a: AttentionSpec, at: Place)
      modifies this
      ensures requests == old(requests) + KeyValueRequests(h, a, at)
    {
      hide Ask, AskNorm;
      if !a.sharing.Consumer? {
        Append(at, AttentionKey, [KvWidth(a), h]);
        Append(at, AttentionValue, [KvWidth(a), h]);
        AppendNorm(at, AttentionKeyNorm, a.keyNorm, [NormWidth(a.keyNorm, a.headDim, KvWidth(a))]);
        AppendNorm(at, AttentionValueNorm, a.valueNorm, [NormWidth(a.valueNorm, a.headDim, KvWidth(a))]);
      }
    }

    method AppendFactorized(h: int, a: AttentionSpec, f: Factors, at: Place)
      requires a.state.Latent?
      modifies this
      ensures requests == old(requests) + FactorizedRequests(h, a, f, at)
    {
      hide Ask;
      Append(at, LatentQueryProjection, [f.queryRank, h]);
      Append(at, LatentQueryExpansion, [a.queryHeads * (a.state.nopeDim + a.state.ropeDim), f.queryRank]);
      Append(at, LatentQueryNorm, [f.queryRank]);
      Append(at, LatentKeyProjection, [a.state.rank + a.state.ropeDim, h]);
      Append(at, LatentKeyNorm, [a.state.rank]);
      Append(at, LatentExpansion, [a.queryHeads * (a.state.nopeDim + f.valueHeadDim), a.state.rank]);
      Append(at, LatentOutput, [h, LatentOutputWidth(a)]);
    }

    method AppendDirectLatent(h: int, a: AttentionSpec, at: Place)
      requires a.state.Latent?
      modifies this
      ensures requests == old(requests) + DirectLatentRequests(h, a, at)
    {
      hide Ask;
      Append(at, LatentQuery, [LatentContentWidth(a), h]);
      if LatentRopeWidth(a) != 0 { Append(at, LatentQueryRope, [LatentRopeWidth(a), h]); }
      Append(at, LatentKey, [a.state.rank, h]);
      Append(at, LatentValue, [a.state.rank, h]);
      if a.state.decoupled && a.state.ropeDim != 0 { Append(at, LatentKeyRope, [a.state.ropeDim, h]); }
      Append(at, LatentOutput, [h, LatentContentWidth(a)]);
    }

    /** `append_attention`: external memory, latent state or ordinary keys and values. */
    method AppendAttention(h: int, a: AttentionSpec, at: Place)
      modifies this
      ensures requests == old(requests) + AttentionRequests(h, a, at)
    {
      hide Ask, QueryRequests, KeyValueRequests, FactorizedRequests, DirectLatentRequests;
      if a.external {
        AppendQuery(h, a, at);
        Append(at, AttentionOutput, [h, QueryWidth(a)]);
      } else if a.state.Latent? {
        match a.state.factors {
          case Some(f) => AppendFactorized(h, a, f, at);
          case None => AppendDirectLatent(h, a, at);
        }
      } else {
        AppendQuery(h, a, at);
        AppendKeyValue(h, a, at);
        Append(at, AttentionOutput, [h, QueryWidth(a)]);
      }
      assert requests == old(requests) + AttentionCore(h, a, at);
      hide AttentionCore;
      if a.gate.Some? && !a.gate.value.packed { Append(at, AttentionGate, [GateWidth(a), h]); }
      if a.relativeBuckets.Some? {
        Append(at, RelativePositionBias, [a.queryHeads * a.relativeBuckets.value]);
      }
    }

    method AppendDelta(h: int, m: Mixer, at: Place)
      requires m.DeltaNet?
      modifies this
      ensures requests == old(requests) + (DeltaProjections(h, m, at) + DeltaCommon(h, m, at))
    {
      hide Ask, DeltaCommon;
      if m.factorized {
        Append(at, DeltaQuery, [DeltaKeyWidth(m), h]);
        Append(at, DeltaKey, [DeltaKeyWidth(m), h]);
        Append(at, DeltaValue, [DeltaValueWidth(m), h]);
        Append(at, DeltaDecay, [DeltaDecayWidth(m), h]);
        Append(at, DeltaOutputGate, [DeltaValueWidth(m), h]);
        Append(at, DeltaQueryConv, [DeltaKeyWidth(m), 1, m.kernel]);
        Append(at, DeltaKeyConv, [DeltaKeyWidth(m), 1, m.kernel]);
        Append(at, DeltaValueConv, [DeltaValueWidth(m), 1, m.kernel]);
      } else {
        Append(at, DeltaQkv, [DeltaQkvWidth(m), h]);
        Append(at, DeltaZ, [DeltaValueWidth(m), h]);
        Append(at, DeltaAlpha, [m.valueHeads, h]);
      }
      assert requests == old(requests) + DeltaProjections(h, m, at);
      hide DeltaProjections;
      AppendDeltaCommon(h, m, at);
    }

    method AppendDeltaCommon(h: int, m: Mixer, at: Place)
      requires m.DeltaNet?
      modifies this
      ensures requests == old(requests) + DeltaCommon(h, m, at)
    {
      hide Ask;
      Append(at, DeltaBeta, [m.valueHeads, h]);
      Append(at, DeltaDtBias, [DeltaDecayWidth(m)]);
      Append(at, DeltaALog, [m.valueHeads]);
      Append(at, DeltaConv, [DeltaQkvWidth(m), 1, m.kernel]);
      Append(at, DeltaNorm, [m.valueDim]);
      Append(at, DeltaOutput, [h, DeltaValueWidth(m)]);
    }

    method AppendMamba(h: int, m: Mixer, at: Place)
      requires m.Mamba?
      modifies this
      ensures requests == old(requests) + MambaRequests(h, m, at)
    {
      hide Ask;
      Append(at, MambaInput, [MambaInputWidth(m), h]);
      Append(at, MambaConv, [MambaConvDim(m), 1, m.kernel]);
      Append(at, MambaConvBias, [MambaConvDim(m)]);
      Append(at, MambaDtBias, [m.heads]);
      Append(at, MambaALog, [m.heads]);
      Append(at, MambaD, [m.heads]);
      Append(at, MambaNorm, [m.intermediate]);
      Append(at, MambaOutput, [h, m.intermediate]);
    }

    /** `append_mixer`. */
    method AppendMixer(h: int, m: Mixer, at: Place)
      modifies this
      ensures requests == old(requests) + MixerRequests(h, m, at)
    {
      hide Ask, AttentionRequests, DeltaProjections, DeltaCommon, MambaRequests;
      match m
      case Attend(a) => AppendAttention(h, a, at);
      case ShortConv(n) =>
        Append(at, ConvInput, [3 * h, h]);
        Append(at, ConvKernel, [h, 1, n]);
        Append(at, ConvOutput, [h, h]);
      case DeltaNet(_, _, _, _, _, _, _) => AppendDelta(h, m, at);
      case Mamba(_, _, _, _, _) => AppendMamba(h, m, at);
      case MlpBlock(w) =>
        Append(at, FfnUp, [w, h]);
        Append(at, FfnDown, [h, w]);
    }

    method AppendDense(h: int, n: int, parallel: int, at: Place)
      modifies this
      ensures requests == old(requests) + DenseRequests(h, n, parallel, at)
    {
      hide Ask;
      Append(at, FfnGate, [n, h]);
      Append(at, FfnUp, [n, h]);
      Append(at, FfnDown, [h, n]);
      if parallel > 0 {
        Append(at, ParallelGate, [parallel, h]);
        Append(at, ParallelUp, [parallel, h]);
        Append(at, ParallelDown, [h, parallel]);
      }
    }

    /** The routed experts, packed in a pair or named one by one. */
    method AppendRouted(h: int, moe: MoeSpec, packed: bool, at: Place)
      modifies this
      ensures requests == old(requests) + RoutedRequests(h, moe, packed, at)
    {
      if packed {
        Append(at, PackedGateUp, [moe.experts, 2 * moe.intermediate, h]);
        Append(at, PackedDown, [moe.experts, h, moe.intermediate]);
      } else {
        var n := moe.intermediate;
        ghost var before := requests;
        for expert := 0 to Count(moe.experts)
          invariant requests == before + Experts(h, n, expert, at)
        {
          requests := requests + [ExpertRequest(ExpertGate, expert, [n, h], at)];
          requests := requests + [ExpertRequest(ExpertUp, expert, [n, h], at)];
          requests := requests + [ExpertRequest(ExpertDown, expert, [h, n], at)];
        }
      }
    }

    /** `append_moe`. */
    method AppendMoe(h: int, moe: MoeSpec, naming: Naming, at: Place)
      modifies this
      ensures requests == old(requests) + MoeRequests(h, moe, naming, at)
    {
      hide Ask, RoutedRequests, SharedRequests;
      Append(at, MoeRouter, [moe.experts, h]);
      if moe.bias { Append(at, MoeRouterBias, [moe.experts]); }
      AppendRouted(h, moe, at.layer in naming.packed, at);
      AppendShared(h, moe, at.layer in naming.gated, at);
    }

    method AppendShared(h: int, moe: MoeSpec, gated: bool, at: Place)
      modifies this
      ensures requests == old(requests) + SharedRequests(h, moe, gated, at)
    {
      hide Ask;
      if moe.shared.Some? {
        var n := moe.shared.value;
        Append(at, SharedGate, [n, h]);
        Append(at, SharedUp, [n, h]);
        Append(at, SharedDown, [h, n]);
        if gated { Append(at, SharedGateWeight, [1, h]); }
      }
    }

    method AppendFeedForward(h: int, f: FeedForward, naming: Naming, at: Place)
      modifies this
      ensures requests == old(requests) + FeedForwardRequests(h, f, naming, at)
    {
      hide DenseRequests, MoeRequests;
      match f
      case NoFeedForward =>
      case Dense(n, parallel) => AppendDense(h, n, parallel, at);
      case Moe(moe) => AppendMoe(h, moe, naming, at);
    }

    method AppendUnlayered(g: Graph)
      modifies this
      ensures requests == old(requests) + UnlayeredRequests(g)
    {
      hide Ask, AskNorm;
      Append(NOWHERE, TokenEmbedding, [g.vocab, g.hidden]);
      AppendNorm(NOWHERE, FinalNorm, Some(g.finalNorm), [g.hidden]);
      Append(NOWHERE, LanguageModelHead, [g.vocab, g.hidden]);
      if g.perLayerInput.Some? {
        var n := g.perLayerInput.value;
        Append(NOWHERE, PerLayerEmbedding, [g.vocab, |g.layers| * n]);
        Append(NOWHERE, PerLayerContextProjection, [|g.layers| * n, g.hidden]);
        Append(NOWHERE, PerLayerProjectionNorm, [n]);
      }
    }

    method AppendTail(g: Graph, l: LayerSpec, at: Place)
      modifies this
      ensures requests == old(requests) + TailRequests(g, l, at)
    {
      hide Ask, AskNorm;
      AppendNorm(at, AttentionPostNorm, l.mixerAfter, [g.hidden]);
      AppendNorm(at, FfnOutputNorm, l.ffAfter, [g.hidden]);
      if g.perLayerInput.Some? {
        var n := g.perLayerInput.value;
        Append(at, PerLayerInputGate, [n, g.hidden]);
        Append(at, PerLayerProjection, [g.hidden, n]);
        Append(at, PerLayerInputNorm, [g.hidden]);
        Append(at, LayerScalar, [1]);
      }
    }

    method AppendLayer(g: Graph, l: LayerSpec, naming: Naming, at: Place)
      modifies this
      ensures requests == old(requests) + LayerRequests(g, l, naming, at)
    {
      hide AskNorm, MixerRequests, FeedForwardRequests, TailRequests;
      AppendNorm(at, AttentionInputNorm, l.mixerBefore, [g.hidden]);
      AppendMixer(g.hidden, l.mixer, at);
      if !l.feedForward.NoFeedForward? { AppendNorm(at, FfnInputNorm, l.ffBefore, [g.hidden]); }
      AppendFeedForward(g.hidden, l.feedForward, naming, at);
      AppendTail(g, l, at);
    }

    /** The loop over the layers, up to one the physical mapping does not have. */
    method AppendLayers(g: Graph, naming: Naming) returns (mapped: bool)
      requires requests == UnlayeredRequests(g)
      modifies this
      ensures mapped <==> Mapped(g)
      ensures mapped ==> requests == Plan(g, naming)
    {
      hide LayerRequests, UnlayeredRequests;
      for i := 0 to |g.layers|
        invariant requests == PlanTo(g, naming, i)
        invariant g.physical == [] || i <= |g.physical|
      {
        if g.physical != [] && i >= |g.physical| { return false; }
        AppendLayer(g, g.layers[i], naming, PlaceOf(g, i));
      }
      mapped := true;
    }

    /** `build_weight_plan_from_graph`, up to the resolution of names. */
    method Build(g: Graph, naming: Naming) returns (r: Built)
      modifies this
      ensures r == if !Complete(g) then Refused(IncompleteGraph) else if !Mapped(g) then Refused(UnmappedLayer)
        else Planned
      ensures r.Planned? ==> requests == Plan(g, naming)
    {
      if g.layers == [] || g.hidden <= 0 { return Refused(IncompleteGraph); }
      hide UnlayeredRequests, Plan, Mapped;
      requests := [];
      AppendUnlayered(g);
      var mapped := AppendLayers(g, naming);
      r := if mapped then Planned else Refused(UnmappedLayer);
    }
  }
}
