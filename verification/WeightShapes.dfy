/** The requested shapes fit together: what one matrix of a mixer or a feed-forward puts out
    is what the next one takes in, and each reads or writes the hidden width.  Stated of the
    requests themselves, without the widths they are computed from. */
module WeightShapes {
  import opened Options
  import opened WeightPlan

  // ----- shapes by role

  predicate PlacedAt(p: Request, at: Place) { p.layer == at.layer && p.physical == at.physical }

  /** Every request belongs to its layer and has the shape `f` gives its role. */
  ghost predicate ShapedBy(list: seq<Request>, at: Place, f: Role -> Option<seq<int>>) {
    forall p :: p in list ==> PlacedAt(p, at) && f(p.role) == Some(p.shape)
  }

  lemma ShapedAppend(a: seq<Request>, b: seq<Request>, at: Place, f: Role -> Option<seq<int>>)
    requires ShapedBy(a, at, f) && ShapedBy(b, at, f)
    ensures ShapedBy(a + b, at, f)
  {
  }

  lemma Start(at: Place, role: Role, shape: seq<int>, f: Role -> Option<seq<int>>) returns (r: seq<Request>)
    requires f(role) == Some(shape)
    ensures r == Ask(at, role, shape) && ShapedBy(r, at, f)
  {
    r := Ask(at, role, shape);
  }

  lemma Also(list: seq<Request>, at: Place, role: Role, shape: seq<int>, f: Role -> Option<seq<int>>)
    returns (r: seq<Request>)
    requires ShapedBy(list, at, f) && f(role) == Some(shape)
    ensures r == list + Ask(at, role, shape) && ShapedBy(r, at, f)
  {
    r := list + Ask(at, role, shape);
  }

  lemma AlsoIf(list: seq<Request>, c: bool, at: Place, role: Role, shape: seq<int>, f: Role -> Option<seq<int>>)
    returns (r: seq<Request>)
    requires ShapedBy(list, at, f) && f(role) == Some(shape)
    ensures r == list + AskIf(c, at, role, shape) && ShapedBy(r, at, f)
  {
    r := list + AskIf(c, at, role, shape);
  }

  lemma AlsoNorm(list: seq<Request>, at: Place, role: Role, norm: Option<Norm>, shape: seq<int>,
                 f: Role -> Option<seq<int>>)
    returns (r: seq<Request>)
    requires ShapedBy(list, at, f) && f(role) == Some(shape)
    ensures r == list + AskNorm(at, role, norm, shape) && ShapedBy(r, at, f)
  {
    r := list + AskNorm(at, role, norm, shape);
  }

  // ----- attention

  function AttentionShape(h: int, a: AttentionSpec, role: Role): Option<seq<int>> {
    match role
    case AttentionQuery => Some([QueryProjectionWidth(a), h])
    case AttentionQueryNorm => Some([NormWidth(a.queryNorm, a.headDim, QueryWidth(a))])
    case AttentionKey => Some([KvWidth(a), h])
    case AttentionValue => Some([KvWidth(a), h])
    case AttentionKeyNorm => Some([NormWidth(a.keyNorm, a.headDim, KvWidth(a))])
    case AttentionValueNorm => Some([NormWidth(a.valueNorm, a.headDim, KvWidth(a))])
    case AttentionOutput => Some([h, QueryWidth(a)])
    case AttentionGate => Some([GateWidth(a), h])
    case RelativePositionBias => if a.relativeBuckets.None? then None
      else Some([a.queryHeads * a.relativeBuckets.value])
    case _ => if a.state.Latent? then LatentShape(h, a, role) else None
  }

  function LatentShape(h: int, a: AttentionSpec, role: Role): Option<seq<int>>
    requires a.state.Latent?
  {
    if a.state.factors.None? then DirectShape(h, a, role) else FactorizedShape(h, a, a.state.factors.value, role)
  }

  function DirectShape(h: int, a: AttentionSpec, role: Role): Option<seq<int>>
    requires a.state.Latent?
  {
    match role
    case LatentQuery => Some([LatentContentWidth(a), h])
    case LatentQueryRope => Some([LatentRopeWidth(a), h])
    case LatentKey => Some([a.state.rank, h])
    case LatentValue => Some([a.state.rank, h])
    case LatentKeyRope => Some([a.state.ropeDim, h])
    case LatentOutput => Some([h, LatentContentWidth(a)])
    case _ => None
  }

  function FactorizedShape(h: int, a: AttentionSpec, f: Factors, role: Role): Option<seq<int>>
    requires a.state.Latent?
  {
    match role
    case LatentQueryProjection => Some([f.queryRank, h])
    case LatentQueryExpansion => Some([a.queryHeads * (a.state.nopeDim + a.state.ropeDim), f.queryRank])
    case LatentQueryNorm => Some([f.queryRank])
    case LatentKeyProjection => Some([a.state.rank + a.state.ropeDim, h])
    case LatentKeyNorm => Some([a.state.rank])
    case LatentExpansion => Some([a.queryHeads * (a.state.nopeDim + f.valueHeadDim), a.state.rank])
    case LatentOutput => Some([h, LatentOutputWidth(a)])
    case _ => None
  }

  lemma QueryShaped(h: int, a: AttentionSpec, at: Place)
    ensures ShapedBy(QueryRequests(h, a, at), at, role => AttentionShape(h, a, role))
  {
    hide QueryProjectionWidth, QueryWidth, KvWidth, NormWidth, GateWidth;
  }

  lemma KeyValueShaped(h: int, a: AttentionSpec, at: Place)
    ensures ShapedBy(KeyValueRequests(h, a, at), at, role => AttentionShape(h, a, role))
  {
    hide QueryProjectionWidth, QueryWidth, KvWidth, NormWidth, GateWidth;
  }

  lemma FactorizedShaped(h: int, a: AttentionSpec, at: Place)
    requires a.state.Latent? && a.state.factors.Some?
    ensures ShapedBy(FactorizedRequests(h, a, a.state.factors.value, at), at, role => AttentionShape(h, a, role))
  {
    hide ShapedBy, Ask, LatentOutputWidth;
    var f, s, k := role => AttentionShape(h, a, role), a.state, a.state.factors.value;
    var r := Start(at, LatentQueryProjection, [k.queryRank, h], f);
    r := Also(r, at, LatentQueryExpansion, [a.queryHeads * (s.nopeDim + s.ropeDim), k.queryRank], f);
    r := Also(r, at, LatentQueryNorm, [k.queryRank], f);
    r := Also(r, at, LatentKeyProjection, [s.rank + s.ropeDim, h], f);
    r := Also(r, at, LatentKeyNorm, [s.rank], f);
    r := Also(r, at, LatentExpansion, [a.queryHeads * (s.nopeDim + k.valueHeadDim), s.rank], f);
    r := Also(r, at, LatentOutput, [h, LatentOutputWidth(a)], f);
  }

  lemma DirectStarts(h: int, a: AttentionSpec, at: Place) returns (r: seq<Request>)
    requires a.state.Latent? && a.state.factors.None?
    ensures r == Ask(at, LatentQuery, [LatentContentWidth(a), h])
      + AskIf(LatentRopeWidth(a) != 0, at, LatentQueryRope, [LatentRopeWidth(a), h])
      + Ask(at, LatentKey, [a.state.rank, h])
    ensures ShapedBy(r, at, role => AttentionShape(h, a, role))
  {
    hide ShapedBy, Ask, AskIf, LatentContentWidth, LatentRopeWidth;
    var f := role => AttentionShape(h, a, role);
    r := Start(at, LatentQuery, [LatentContentWidth(a), h], f);
    r := AlsoIf(r, LatentRopeWidth(a) != 0, at, LatentQueryRope, [LatentRopeWidth(a), h], f);
    r := Also(r, at, LatentKey, [a.state.rank, h], f);
  }

  lemma DirectShaped(h: int, a: AttentionSpec, at: Place)
    requires a.state.Latent? && a.state.factors.None?
    ensures ShapedBy(DirectLatentRequests(h, a, at), at, role => AttentionShape(h, a, role))
  {
    hide ShapedBy, Ask, AskIf, LatentContentWidth, LatentRopeWidth;
    var f, s := role => AttentionShape(h, a, role), a.state;
    var r := DirectStarts(h, a, at);
    r := Also(r, at, LatentValue, [s.rank, h], f);
    r := AlsoIf(r, s.decoupled && s.ropeDim != 0, at, LatentKeyRope, [s.ropeDim, h], f);
    r := Also(r, at, LatentOutput, [h, LatentContentWidth(a)], f);
  }

  lemma CoreShaped(h: int, a: AttentionSpec, at: Place)
    ensures ShapedBy(AttentionCore(h, a, at), at, role => AttentionShape(h, a, role))
  {
    hide ShapedBy, Ask, QueryRequests, KeyValueRequests, FactorizedRequests, DirectLatentRequests, QueryWidth;
    var f := role => AttentionShape(h, a, role);
    if !a.external && a.state.Latent? {
      if a.state.factors.Some? { FactorizedShaped(h, a, at); } else { DirectShaped(h, a, at); }
    } else {
      QueryShaped(h, a, at);
      KeyValueShaped(h, a, at);
      ShapedAppend(QueryRequests(h, a, at), KeyValueRequests(h, a, at), at, f);
      var front := if a.external then QueryRequests(h, a, at) else QueryRequests(h, a, at) + KeyValueRequests(h, a, at);
      var r := Also(front, at, AttentionOutput, [h, QueryWidth(a)], f);
    }
  }

  lemma AttentionShaped(h: int, a: AttentionSpec, at: Place)
    ensures ShapedBy(AttentionRequests(h, a, at), at, role => AttentionShape(h, a, role))
  {
    hide ShapedBy, Ask, AskIf, AttentionCore, GateWidth;
    var f := role => AttentionShape(h, a, role);
    CoreShaped(h, a, at);
    var r := AlsoIf(AttentionCore(h, a, at), a.gate.Some? && !a.gate.value.packed, at, AttentionGate,
                    [GateWidth(a), h], f);
    if a.relativeBuckets.Some? {
      r := Also(r, at, RelativePositionBias, [a.queryHeads * a.relativeBuckets.value], f);
    } else {
      assert r + [] == r;
    }
  }

  /** Heads share the widths evenly: keys and values have a head's width for each of their
      heads, as the output has for each query head, and queries twice that where the gate
      is packed with them. */
  lemma HeadsShareWidths(h: int, a: AttentionSpec, at: Place, q: Request, k: Request, v: Request, o: Request)
    requires q in AttentionRequests(h, a, at) && k in AttentionRequests(h, a, at)
    requires v in AttentionRequests(h, a, at) && o in AttentionRequests(h, a, at)
    requires q.role == AttentionQuery && k.role == AttentionKey && v.role == AttentionValue && o.role == AttentionOutput
    ensures |q.shape| == |k.shape| == |o.shape| == 2 && k.shape == v.shape
    ensures q.shape[1] == k.shape[1] == o.shape[0] == h
    ensures k.shape[0] * a.queryHeads == o.shape[1] * a.kvHeads
    ensures q.shape[0] == if a.gate.Some? && a.gate.value.packed then o.shape[1] + o.shape[1] else o.shape[1]
    ensures o.shape[1] == a.queryHeads * a.headDim
  {
    hide AttentionRequests;
    AttentionShaped(h, a, at);
    Regrouped(a.kvHeads, a.headDim, a.queryHeads);
  }

  lemma Regrouped(x: int, y: int, z: int)
    ensures x * y * z == z * y * x
  {
  }

  /** A norm spans one head or everything its matrix puts out; an unpacked gate has one row
      for each head or for each column of the output. */
  lemma NormsAndGates(h: int, a: AttentionSpec, at: Place, p: Request, k: Request, o: Request)
    requires p in AttentionRequests(h, a, at) && k in AttentionRequests(h, a, at) && o in AttentionRequests(h, a, at)
    requires k.role == AttentionKey && o.role == AttentionOutput && (a.external || !a.state.Latent?)
    ensures |k.shape| == |o.shape| == 2
    ensures p.role == AttentionQueryNorm ==> p.shape == [a.headDim] || p.shape == [o.shape[1]]
    ensures p.role == AttentionKeyNorm || p.role == AttentionValueNorm ==>
      p.shape == [a.headDim] || p.shape == [k.shape[0]]
    ensures p.role == AttentionGate && !a.state.Latent? && a.gate.Some? && !a.gate.value.packed ==>
      p.shape == if a.gate.value.headWise then [a.queryHeads, h] else [o.shape[1], h]
  {
    hide AttentionRequests;
    AttentionShaped(h, a, at);
  }

  /** Latent state: each head queries the whole latent vector, and the output takes in a
      latent vector for each head. */
  lemma HeadsQueryLatent(h: int, a: AttentionSpec, at: Place, q: Request, k: Request, v: Request, o: Request)
    requires q in AttentionRequests(h, a, at) && k in AttentionRequests(h, a, at)
    requires v in AttentionRequests(h, a, at) && o in AttentionRequests(h, a, at)
    requires q.role == LatentQuery && k.role == LatentKey && v.role == LatentValue && o.role == LatentOutput
    ensures |q.shape| == |k.shape| == |o.shape| == 2 && k.shape == v.shape
    ensures q.shape[1] == k.shape[1] == o.shape[0] == h
    ensures q.shape[0] == o.shape[1] == a.queryHeads * k.shape[0]
  {
    hide AttentionRequests;
    AttentionShaped(h, a, at);
  }

  /** And its rotary part, where there is one. */
  lemma HeadsQueryRotary(h: int, a: AttentionSpec, at: Place, q: Request, k: Request)
    requires q in AttentionRequests(h, a, at) && k in AttentionRequests(h, a, at)
    requires q.role == LatentQueryRope && k.role == LatentKeyRope && a.state.Latent? && a.state.decoupled
    ensures |q.shape| == |k.shape| == 2 && q.shape[1] == k.shape[1] == h && q.shape[0] == a.queryHeads * k.shape[0]
  {
    hide AttentionRequests;
    AttentionShaped(h, a, at);
  }

  /** Factored projections go through their ranks: what one puts out is normed whole and is
      what the next takes in. */
  lemma FactorsChain(h: int, a: AttentionSpec, at: Place, p: Request, n: Request, q: Request, k: Request, x: Request)
    requires p in AttentionRequests(h, a, at) && n in AttentionRequests(h, a, at) && q in AttentionRequests(h, a, at)
    requires k in AttentionRequests(h, a, at) && x in AttentionRequests(h, a, at)
    requires p.role == LatentQueryProjection && n.role == LatentQueryNorm && q.role == LatentQueryExpansion
    requires k.role == LatentKeyNorm && x.role == LatentExpansion
    ensures |p.shape| == |q.shape| == |x.shape| == 2 && p.shape[1] == h
    ensures n.shape == [p.shape[0]] && q.shape[1] == p.shape[0] && k.shape == [x.shape[1]]
  {
    hide AttentionRequests;
    AttentionShaped(h, a, at);
  }

  /** The expansion of the latent vector holds each head's content keys, as wide as the
      queries without their rotary part, and its values, as wide as the output takes in. */
  lemma ExpansionHoldsKeysAndValues(h: int, a: AttentionSpec, at: Place, q: Request, x: Request, o: Request)
    requires q in AttentionRequests(h, a, at) && x in AttentionRequests(h, a, at) && o in AttentionRequests(h, a, at)
    requires q.role == LatentQueryExpansion && x.role == LatentExpansion && o.role == LatentOutput
    ensures a.state.Latent? && |q.shape| == |x.shape| == |o.shape| == 2 && o.shape[0] == h
    ensures q.shape[0] + o.shape[1] == x.shape[0] + a.queryHeads * a.state.ropeDim
  {
    hide AttentionRequests;
    AttentionShaped(h, a, at);
    var s, n := a.state, a.queryHeads;
    Distributed(n, s.nopeDim, s.ropeDim);
    Distributed(n, s.nopeDim, s.factors.value.valueHeadDim);
  }

  lemma Distributed(n: int, x: int, y: int)
    ensures n * (x + y) == n * x + n * y
  {
  }

  // ----- the other mixers

  function DeltaShape(h: int, m: Mixer, role: Role): Option<seq<int>>
    requires m.DeltaNet?
  {
    match role
    case DeltaQuery => Some([DeltaKeyWidth(m), h])
    case DeltaKey => Some([DeltaKeyWidth(m), h])
    case DeltaValue => Some([DeltaValueWidth(m), h])
    case DeltaDecay => Some([DeltaDecayWidth(m), h])
    case DeltaOutputGate => Some([DeltaValueWidth(m), h])
    case DeltaQueryConv => Some([DeltaKeyWidth(m), 1, m.kernel])
    case DeltaKeyConv => Some([DeltaKeyWidth(m), 1, m.kernel])
    case DeltaValueConv => Some([DeltaValueWidth(m), 1, m.kernel])
    case DeltaQkv => Some([DeltaQkvWidth(m), h])
    case DeltaZ => Some([DeltaValueWidth(m), h])
    case DeltaAlpha => Some([m.valueHeads, h])
    case DeltaBeta => Some([m.valueHeads, h])
    case DeltaDtBias => Some([DeltaDecayWidth(m)])
    case DeltaALog => Some([m.valueHeads])
    case DeltaConv => Some([DeltaQkvWidth(m), 1, m.kernel])
    case DeltaNorm => Some([m.valueDim])
    case DeltaOutput => Some([h, DeltaValueWidth(m)])
    case _ => None
  }

  lemma LongShaped(h: int, m: Mixer, at: Place) returns (r: seq<Request>)
    requires m.DeltaNet?
    ensures r == Ask(at, DeltaQuery, [DeltaKeyWidth(m), h])
      + Ask(at, DeltaKey, [DeltaKeyWidth(m), h])
      + Ask(at, DeltaValue, [DeltaValueWidth(m), h])
      + Ask(at, DeltaDecay, [DeltaDecayWidth(m), h])
    ensures ShapedBy(r, at, role => DeltaShape(h, m, role))
  {
    hide ShapedBy, Ask, DeltaKeyWidth, DeltaValueWidth, DeltaDecayWidth, DeltaQkvWidth;
    var f := role => DeltaShape(h, m, role);
    r := Start(at, DeltaQuery, [DeltaKeyWidth(m), h], f);
    r := Also(r, at, DeltaKey, [DeltaKeyWidth(m), h], f);
    r := Also(r, at, DeltaValue, [DeltaValueWidth(m), h], f);
    r := Also(r, at, DeltaDecay, [DeltaDecayWidth(m), h], f);
  }

  lemma LongProjectionsShaped(h: int, m: Mixer, at: Place)
    requires m.DeltaNet? && m.factorized
    ensures ShapedBy(DeltaProjections(h, m, at), at, role => DeltaShape(h, m, role))
  {
    hide ShapedBy, Ask, DeltaKeyWidth, DeltaValueWidth, DeltaDecayWidth, DeltaQkvWidth;
    var f := role => DeltaShape(h, m, role);
    var r := LongShaped(h, m, at);
    r := Also(r, at, DeltaOutputGate, [DeltaValueWidth(m), h], f);
    r := Also(r, at, DeltaQueryConv, [DeltaKeyWidth(m), 1, m.kernel], f);
    r := Also(r, at, DeltaKeyConv, [DeltaKeyWidth(m), 1, m.kernel], f);
    r := Also(r, at, DeltaValueConv, [DeltaValueWidth(m), 1, m.kernel], f);
  }

  lemma ShortProjectionsShaped(h: int, m: Mixer, at: Place)
    requires m.DeltaNet? && !m.factorized
    ensures ShapedBy(DeltaProjections(h, m, at), at, role => DeltaShape(h, m, role))
  {
    hide ShapedBy, Ask, DeltaKeyWidth, DeltaValueWidth, DeltaDecayWidth, DeltaQkvWidth;
    var f := role => DeltaShape(h, m, role);
    var r := Start(at, DeltaQkv, [DeltaQkvWidth(m), h], f);
    r := Also(r, at, DeltaZ, [DeltaValueWidth(m), h], f);
    r := Also(r, at, DeltaAlpha, [m.valueHeads, h], f);
  }

  lemma DeltaCommonShaped(h: int, m: Mixer, at: Place)
    requires m.DeltaNet?
    ensures ShapedBy(DeltaCommon(h, m, at), at, role => DeltaShape(h, m, role))
  {
    hide ShapedBy, Ask, DeltaKeyWidth, DeltaValueWidth, DeltaDecayWidth, DeltaQkvWidth;
    var f := role => DeltaShape(h, m, role);
    var r := Start(at, DeltaBeta, [m.valueHeads, h], f);
    r := Also(r, at, DeltaDtBias, [DeltaDecayWidth(m)], f);
    r := Also(r, at, DeltaALog, [m.valueHeads], f);
    r := Also(r, at, DeltaConv, [DeltaQkvWidth(m), 1, m.kernel], f);
    r := Also(r, at, DeltaNorm, [m.valueDim], f);
    r := Also(r, at, DeltaOutput, [h, DeltaValueWidth(m)], f);
  }

  lemma DeltaShaped(h: int, m: Mixer, at: Place)
    requires m.DeltaNet?
    ensures ShapedBy(MixerRequests(h, m, at), at, role => DeltaShape(h, m, role))
  {
    hide ShapedBy, DeltaProjections, DeltaCommon, AttentionRequests, MambaRequests;
    if m.factorized { LongProjectionsShaped(h, m, at); } else { ShortProjectionsShaped(h, m, at); }
    DeltaCommonShaped(h, m, at);
    hide DeltaShape;
    ShapedAppend(DeltaProjections(h, m, at), DeltaCommon(h, m, at), at,
                   role => DeltaShape(h, m, role));
  }

  /** Factorized or not, the convolution covers queries, keys and values together; queries
      are shaped like keys, and the norm spans one value head of what the output takes in. */
  lemma DeltaSums(h: int, m: Mixer, at: Place, q: Request, k: Request, v: Request, c: Request, n: Request, o: Request)
    requires m.DeltaNet?
    requires q in MixerRequests(h, m, at) && k in MixerRequests(h, m, at) && v in MixerRequests(h, m, at)
    requires c in MixerRequests(h, m, at) && n in MixerRequests(h, m, at) && o in MixerRequests(h, m, at)
    requires q.role == DeltaQuery && k.role == DeltaKey && v.role == DeltaValue
    requires c.role == DeltaConv && n.role == DeltaNorm && o.role == DeltaOutput
    ensures |q.shape| == |v.shape| == |o.shape| == 2 && |c.shape| == 3 && |n.shape| == 1 && q.shape == k.shape
    ensures q.shape[1] == v.shape[1] == o.shape[0] == h && o.shape[1] == v.shape[0]
    ensures c.shape[0] == q.shape[0] + k.shape[0] + v.shape[0]
    ensures o.shape[1] == m.valueHeads * n.shape[0]
  {
    hide MixerRequests;
    DeltaShaped(h, m, at);
    Twice(m.keyHeads, m.keyDim);
  }

  /** One projection for all three puts out what the convolution runs over. */
  lemma DeltaPacked(h: int, m: Mixer, at: Place, p: Request, z: Request, c: Request, o: Request)
    requires m.DeltaNet?
    requires p in MixerRequests(h, m, at) && z in MixerRequests(h, m, at) && c in MixerRequests(h, m, at)
    requires o in MixerRequests(h, m, at)
    requires p.role == DeltaQkv && z.role == DeltaZ && c.role == DeltaConv && o.role == DeltaOutput
    ensures |p.shape| == |z.shape| == |o.shape| == 2 && |c.shape| == 3
    ensures p.shape[0] == c.shape[0] && z.shape[0] == o.shape[1] && p.shape[1] == z.shape[1] == o.shape[0] == h
  {
    hide MixerRequests, DeltaKeyWidth, DeltaValueWidth, DeltaDecayWidth, DeltaQkvWidth;
    DeltaShaped(h, m, at);
  }

  lemma Twice(x: int, y: int)
    ensures 2 * x * y == x * y + x * y
  {
  }

  function MambaShape(h: int, m: Mixer, role: Role): Option<seq<int>>
    requires m.Mamba?
  {
    match role
    case MambaInput => Some([MambaInputWidth(m), h])
    case MambaConv => Some([MambaConvDim(m), 1, m.kernel])
    case MambaConvBias => Some([MambaConvDim(m)])
    case MambaDtBias => Some([m.heads])
    case MambaALog => Some([m.heads])
    case MambaD => Some([m.heads])
    case MambaNorm => Some([m.intermediate])
    case MambaOutput => Some([h, m.intermediate])
    case _ => None
  }

  lemma MambaShaped(h: int, m: Mixer, at: Place)
    requires m.Mamba?
    ensures ShapedBy(MambaRequests(h, m, at), at, role => MambaShape(h, m, role))
  {
    hide ShapedBy, Ask, MambaInputWidth, MambaConvDim;
    var f := role => MambaShape(h, m, role);
    var r := Start(at, MambaInput, [MambaInputWidth(m), h], f);
    r := Also(r, at, MambaConv, [MambaConvDim(m), 1, m.kernel], f);
    r := Also(r, at, MambaConvBias, [MambaConvDim(m)], f);
    r := Also(r, at, MambaDtBias, [m.heads], f);
    r := Also(r, at, MambaALog, [m.heads], f);
    r := Also(r, at, MambaD, [m.heads], f);
    r := Also(r, at, MambaNorm, [m.intermediate], f);
    r := Also(r, at, MambaOutput, [h, m.intermediate], f);
  }

  /** The short convolution's input holds its three factors side by side, each as wide as
      the hidden state. */
  lemma ConvolutionFits(h: int, taps: int, at: Place, i: Request, k: Request, o: Request)
    requires i in MixerRequests(h, ShortConv(taps), at) && k in MixerRequests(h, ShortConv(taps), at)
    requires o in MixerRequests(h, ShortConv(taps), at)
    requires i.role == ConvInput && k.role == ConvKernel && o.role == ConvOutput
    ensures |i.shape| == |o.shape| == 2 && |k.shape| == 3
    ensures i.shape[1] == o.shape[0] == o.shape[1] == h && i.shape[0] == h + h + h
    ensures k.shape[0] == h && k.shape[2] == taps
  {
  }

  /** The input projection puts out the gate, as wide as the output takes in, what the
      convolution runs over, and one step size for each head. */
  lemma MambaSums(h: int, m: Mixer, at: Place, i: Request, c: Request, b: Request, o: Request)
    requires m.Mamba?
    requires i in MambaRequests(h, m, at) && c in MambaRequests(h, m, at) && b in MambaRequests(h, m, at)
    requires o in MambaRequests(h, m, at)
    requires i.role == MambaInput && c.role == MambaConv && b.role == MambaDtBias && o.role == MambaOutput
    ensures |i.shape| == |o.shape| == 2 && |c.shape| == 3 && |b.shape| == 1
    ensures i.shape[0] == o.shape[1] + c.shape[0] + b.shape[0]
  {
    hide MambaRequests;
    MambaShaped(h, m, at);
  }

  // ----- feed-forward

  function DenseShape(h: int, n: int, parallel: int, role: Role): Option<seq<int>> {
    match role
    case FfnGate => Some([n, h])
    case FfnUp => Some([n, h])
    case FfnDown => Some([h, n])
    case ParallelGate => Some([parallel, h])
    case ParallelUp => Some([parallel, h])
    case ParallelDown => Some([h, parallel])
    case _ => None
  }

  lemma MainShaped(h: int, n: int, parallel: int, at: Place) returns (r: seq<Request>)
    ensures r == Ask(at, FfnGate, [n, h]) + Ask(at, FfnUp, [n, h]) + Ask(at, FfnDown, [h, n])
    ensures ShapedBy(r, at, role => DenseShape(h, n, parallel, role))
  {
    hide ShapedBy, Ask;
    var f := role => DenseShape(h, n, parallel, role);
    r := Start(at, FfnGate, [n, h], f);
    r := Also(r, at, FfnUp, [n, h], f);
    r := Also(r, at, FfnDown, [h, n], f);
  }

  lemma DenseShaped(h: int, n: int, parallel: int, at: Place)
    ensures ShapedBy(DenseRequests(h, n, parallel, at), at, role => DenseShape(h, n, parallel, role))
  {
    hide ShapedBy, Ask, AskIf;
    var f := role => DenseShape(h, n, parallel, role);
    var r := MainShaped(h, n, parallel, at);
    r := AlsoIf(r, parallel > 0, at, ParallelGate, [parallel, h], f);
    r := AlsoIf(r, parallel > 0, at, ParallelUp, [parallel, h], f);
    r := AlsoIf(r, parallel > 0, at, ParallelDown, [h, parallel], f);
  }

  /** Up from the hidden width twice, alike, and down by the same. */
  lemma DenseFits(h: int, n: int, parallel: int, at: Place, g: Request, u: Request, d: Request)
    requires g in DenseRequests(h, n, parallel, at) && u in DenseRequests(h, n, parallel, at)
    requires d in DenseRequests(h, n, parallel, at)
    requires (g.role, u.role, d.role) in {(FfnGate, FfnUp, FfnDown), (ParallelGate, ParallelUp, ParallelDown)}
    ensures g.shape == u.shape && |u.shape| == |d.shape| == 2
    ensures u.shape[1] == d.shape[0] == h && u.shape[0] == d.shape[1]
  {
    hide DenseRequests;
    DenseShaped(h, n, parallel, at);
  }

  function MoeShape(h: int, moe: MoeSpec, role: Role): Option<seq<int>> {
    match role
    case MoeRouter => Some([moe.experts, h])
    case MoeRouterBias => Some([moe.experts])
    case PackedGateUp => Some([moe.experts, 2 * moe.intermediate, h])
    case PackedDown => Some([moe.experts, h, moe.intermediate])
    case ExpertGate => Some([moe.intermediate, h])
    case ExpertUp => Some([moe.intermediate, h])
    case ExpertDown => Some([h, moe.intermediate])
    case SharedGate => if moe.shared.None? then None else Some([moe.shared.value, h])
    case SharedUp => if moe.shared.None? then None else Some([moe.shared.value, h])
    case SharedDown => if moe.shared.None? then None else Some([h, moe.shared.value])
    case SharedGateWeight => Some([1, h])
    case _ => None
  }

  lemma OneExpertShaped(h: int, moe: MoeSpec, expert: int, at: Place)
    ensures ShapedBy(OneExpert(h, moe.intermediate, expert, at), at, role => MoeShape(h, moe, role))
  {
    var f := role => MoeShape(h, moe, role);
    var n := moe.intermediate;
    assert f(ExpertGate) == Some([n, h]) && f(ExpertUp) == Some([n, h]) && f(ExpertDown) == Some([h, n]);
    hide MoeShape;
  }

  lemma {:induction false} ExpertsShaped(h: int, moe: MoeSpec, count: nat, at: Place)
    ensures ShapedBy(Experts(h, moe.intermediate, count, at), at, role => MoeShape(h, moe, role))
  {
    hide OneExpert, MoeShape;
    if count > 0 {
      ExpertsShaped(h, moe, count - 1, at);
      OneExpertShaped(h, moe, count - 1, at);
      hide ShapedBy;
      ShapedAppend(Experts(h, moe.intermediate, count - 1, at), OneExpert(h, moe.intermediate, count - 1, at), at,
                   role => MoeShape(h, moe, role));
    }
  }

  lemma RoutedShaped(h: int, moe: MoeSpec, packed: bool, at: Place)
    ensures ShapedBy(RoutedRequests(h, moe, packed, at), at, role => MoeShape(h, moe, role))
  {
    if packed {
      hide ShapedBy, Ask;
      var f := role => MoeShape(h, moe, role);
      var r := Start(at, PackedGateUp, [moe.experts, 2 * moe.intermediate, h], f);
      r := Also(r, at, PackedDown, [moe.experts, h, moe.intermediate], f);
    } else {
      ExpertsShaped(h, moe, Count(moe.experts), at);
    }
  }

  lemma SharedShaped(h: int, moe: MoeSpec, gated: bool, at: Place)
    ensures ShapedBy(SharedRequests(h, moe, gated, at), at, role => MoeShape(h, moe, role))
  {
    if moe.shared.Some? {
      var f, n := role => MoeShape(h, moe, role), moe.shared.value;
      hide ShapedBy, Ask, AskIf;
      var r := Start(at, SharedGate, [n, h], f);
      r := Also(r, at, SharedUp, [n, h], f);
      r := Also(r, at, SharedDown, [h, n], f);
      r := AlsoIf(r, gated, at, SharedGateWeight, [1, h], f);
    }
  }

  lemma MoeShaped(h: int, moe: MoeSpec, naming: Naming, at: Place)
    ensures ShapedBy(MoeRequests(h, moe, naming, at), at, role => MoeShape(h, moe, role))
  {
    hide ShapedBy, Ask, AskIf, RoutedRequests, SharedRequests;
    var f := role => MoeShape(h, moe, role);
    RoutedShaped(h, moe, at.layer in naming.packed, at);
    SharedShaped(h, moe, at.layer in naming.gated, at);
    var r := Start(at, MoeRouter, [moe.experts, h], f);
    r := AlsoIf(r, moe.bias, at, MoeRouterBias, [moe.experts], f);
    ShapedAppend(r, RoutedRequests(h, moe, at.layer in naming.packed, at), at, f);
    r := r + RoutedRequests(h, moe, at.layer in naming.packed, at);
    ShapedAppend(r, SharedRequests(h, moe, at.layer in naming.gated, at), at, f);
  }

  /** The same for every expert, whichever ones the three are of, and for the shared one; the
      router has a row for each expert. */
  lemma ExpertsFit(h: int, moe: MoeSpec, naming: Naming, at: Place, r: Request, g: Request, u: Request, d: Request)
    requires r in MoeRequests(h, moe, naming, at) && g in MoeRequests(h, moe, naming, at)
    requires u in MoeRequests(h, moe, naming, at) && d in MoeRequests(h, moe, naming, at)
    requires (g.role, u.role, d.role) in {(ExpertGate, ExpertUp, ExpertDown), (SharedGate, SharedUp, SharedDown)}
    requires r.role == MoeRouter
    ensures g.shape == u.shape && |u.shape| == |d.shape| == 2
    ensures u.shape[1] == d.shape[0] == h && u.shape[0] == d.shape[1] && r.shape == [moe.experts, h]
  {
    hide MoeRequests;
    MoeShaped(h, moe, naming, at);
  }

  /** Packed experts: gate and up matrices stand on each other, so they are twice as high
      as the down matrices are wide. */
  lemma PackedFits(h: int, moe: MoeSpec, naming: Naming, at: Place, x: Request, y: Request)
    requires x in MoeRequests(h, moe, naming, at) && y in MoeRequests(h, moe, naming, at)
    requires x.role == PackedGateUp && y.role == PackedDown
    ensures |x.shape| == |y.shape| == 3 && x.shape[0] == y.shape[0] == moe.experts
    ensures x.shape[1] == y.shape[2] + y.shape[2] && x.shape[2] == y.shape[1] == h
  {
    hide MoeRequests;
    MoeShaped(h, moe, naming, at);
  }

  // ----- outside the layers

  /** The tables outside the layers: the head is shaped like the embedding, and the
      per-layer input has one slice, as wide as its norm, for each layer. */
  lemma TablesFit(g: Graph, e: Request, o: Request, t: Request, c: Request, n: Request)
    requires e in UnlayeredRequests(g) && o in UnlayeredRequests(g) && t in UnlayeredRequests(g)
    requires c in UnlayeredRequests(g) && n in UnlayeredRequests(g)
    requires e.role == TokenEmbedding && o.role == LanguageModelHead
    requires t.role == PerLayerEmbedding && c.role == PerLayerContextProjection && n.role == PerLayerProjectionNorm
    ensures e.shape == o.shape == [g.vocab, g.hidden]
    ensures |t.shape| == |c.shape| == 2 && |n.shape| == 1 && t.shape[0] == g.vocab && c.shape[1] == g.hidden
    ensures t.shape[1] == c.shape[0] == |g.layers| * n.shape[0]
  {
    hide UnlayeredRequests;
    TablesShaped(g);
  }

  function TableShape(g: Graph, role: Role): Option<seq<int>> {
    var n := if g.perLayerInput.Some? then g.perLayerInput.value else 0;
    match role
    case TokenEmbedding => Some([g.vocab, g.hidden])
    case FinalNorm => Some([g.hidden])
    case LanguageModelHead => Some([g.vocab, g.hidden])
    case PerLayerEmbedding => Some([g.vocab, |g.layers| * n])
    case PerLayerContextProjection => Some([|g.layers| * n, g.hidden])
    case PerLayerProjectionNorm => Some([n])
    case _ => None
  }

  lemma TablesShaped(g: Graph)
    ensures ShapedBy(UnlayeredRequests(g), NOWHERE, role => TableShape(g, role))
  {
    hide ShapedBy, Ask, AskNorm;
    var f := role => TableShape(g, role);
    var r := Start(NOWHERE, TokenEmbedding, [g.vocab, g.hidden], f);
    r := AlsoNorm(r, NOWHERE, FinalNorm, Some(g.finalNorm), [g.hidden], f);
    r := Also(r, NOWHERE, LanguageModelHead, [g.vocab, g.hidden], f);
    if g.perLayerInput.Some? {
      var n := g.perLayerInput.value;
      var tail := Start(NOWHERE, PerLayerEmbedding, [g.vocab, |g.layers| * n], f);
      tail := Also(tail, NOWHERE, PerLayerContextProjection, [|g.layers| * n, g.hidden], f);
      tail := Also(tail, NOWHERE, PerLayerProjectionNorm, [n], f);
      ShapedAppend(r, tail, NOWHERE, f);
    } else {
      assert r + [] == r;
    }
  }

  // ----- which checkpoint layer a request names

  ghost predicate AllPlaced(list: seq<Request>, at: Place) { forall p :: p in list ==> PlacedAt(p, at) }

  lemma MixerPlaced(h: int, m: Mixer, at: Place)
    ensures AllPlaced(MixerRequests(h, m, at), at)
  {
    hide AttentionRequests, DeltaProjections, DeltaCommon, MambaRequests, AttentionShape, DeltaShape, MambaShape;
    match m
    case Attend(a) => AttentionShaped(h, a, at);
    case DeltaNet(_, _, _, _, _, _, _) => DeltaShaped(h, m, at);
    case Mamba(_, _, _, _, _) => MambaShaped(h, m, at);
    case _ =>
  }

  lemma FeedForwardPlaced(h: int, f: FeedForward, naming: Naming, at: Place)
    ensures AllPlaced(FeedForwardRequests(h, f, naming, at), at)
  {
    hide DenseRequests, MoeRequests, DenseShape, MoeShape;
    match f
    case NoFeedForward =>
    case Dense(n, parallel) => DenseShaped(h, n, parallel, at);
    case Moe(moe) => MoeShaped(h, moe, naming, at);
  }

  lemma PlacedAppend(a: seq<Request>, b: seq<Request>, at: Place)
    requires AllPlaced(a, at) && AllPlaced(b, at)
    ensures AllPlaced(a + b, at)
  {
  }

  lemma NormPlaced(at: Place, role: Role, norm: Option<Norm>, shape: seq<int>)
    ensures AllPlaced(AskNorm(at, role, norm, shape), at)
  {
  }

  lemma TailPlaced(g: Graph, l: LayerSpec, at: Place)
    ensures AllPlaced(TailRequests(g, l, at), at)
  {
    var a := AskNorm(at, AttentionPostNorm, l.mixerAfter, [g.hidden]);
    var b := AskNorm(at, FfnOutputNorm, l.ffAfter, [g.hidden]);
    if g.perLayerInput.Some? { assert AllPlaced(PerLayerRequests(g.hidden, g.perLayerInput.value, at), at); }
    NormPlaced(at, AttentionPostNorm, l.mixerAfter, [g.hidden]);
    NormPlaced(at, FfnOutputNorm, l.ffAfter, [g.hidden]);
    hide AllPlaced, AskNorm, PerLayerRequests;
    PlacedAppend(a, b, at);
    if g.perLayerInput.Some? {
      PlacedAppend(a + b, PerLayerRequests(g.hidden, g.perLayerInput.value, at), at);
    } else {
      assert a + b + [] == a + b;
    }
  }

  lemma LayerPlaced(g: Graph, l: LayerSpec, naming: Naming, at: Place)
    ensures AllPlaced(LayerRequests(g, l, naming, at), at)
  {
    NormPlaced(at, AttentionInputNorm, l.mixerBefore, [g.hidden]);
    NormPlaced(at, FfnInputNorm, l.ffBefore, [g.hidden]);
    MixerPlaced(g.hidden, l.mixer, at);
    FeedForwardPlaced(g.hidden, l.feedForward, naming, at);
    TailPlaced(g, l, at);
    assert AllPlaced([], at);
    hide AllPlaced, AskNorm, MixerRequests, FeedForwardRequests, TailRequests;
    PlacedAppend(AskNorm(at, AttentionInputNorm, l.mixerBefore, [g.hidden]), MixerRequests(g.hidden, l.mixer, at), at);
    var norm := if l.feedForward.NoFeedForward? then [] else AskNorm(at, FfnInputNorm, l.ffBefore, [g.hidden]);
    PlacedAppend(norm, FeedForwardRequests(g.hidden, l.feedForward, naming, at), at);
    PlacedAppend(HeadRequests(g, l, at), MiddleRequests(g, l, naming, at), at);
    PlacedAppend(HeadRequests(g, l, at) + MiddleRequests(g, l, naming, at), TailRequests(g, l, at), at);
  }

  predicate NamesItsLayer(g: Graph, p: Request) {
    if p.layer == -1 then p.physical == -1
    else 0 <= p.layer < |g.layers| && p.physical == if g.physical == [] then p.layer else
      if p.layer < |g.physical| then g.physical[p.layer] else p.layer
  }

  lemma {:induction false} PlanToNamesLayers(g: Graph, naming: Naming, n: nat, p: Request)
    requires n <= |g.layers| && p in PlanTo(g, naming, n)
    ensures NamesItsLayer(g, p)
  {
    hide LayerRequests, UnlayeredRequests, TableShape;
    if n == 0 {
      TablesShaped(g);
    } else {
      LayerPlaced(g, g.layers[n - 1], naming, PlaceOf(g, n - 1));
      if p !in LayerRequests(g, g.layers[n - 1], naming, PlaceOf(g, n - 1)) { PlanToNamesLayers(g, naming, n - 1, p); }
    }
  }

  /** A plan the builder accepts asks for each layer's weights under the checkpoint layer
      the graph maps it to, and under its own number where there is no map. */
  lemma PlanNamesLayers(g: Graph, naming: Naming, p: Request)
    requires Mapped(g) && p in Plan(g, naming) && p.layer != -1
    ensures 0 <= p.layer < |g.layers|
    ensures g.physical == [] ==> p.physical == p.layer
    ensures g.physical != [] ==> p.layer < |g.physical| && p.physical == g.physical[p.layer]
  {
    hide PlanTo;
    PlanToNamesLayers(g, naming, |g.layers|, p);
  }
}
