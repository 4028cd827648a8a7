/** The compiled program beside its weight plan: which requests each layer lists, and that
    the flags and sizes compiled for a layer agree with what the plan asks for. */
module LoweredProgram {
  import opened KvSharing
  import opened Options
  import opened WeightPlan
  import opened WeightPlanKeys

  // ----- index lists

  function IndicesOf(plan: seq<Request>, n: nat, layer: int): (r: seq<nat>)
    requires n <= |plan|
  {
    if n == 0 then []
    else IndicesOf(plan, n - 1, layer) + if plan[n - 1].layer == layer then [n - 1] else []
  }

  function UnlayeredOf(plan: seq<Request>, n: nat): (r: seq<nat>)
    requires n <= |plan|
  {
    if n == 0 then []
    else UnlayeredOf(plan, n - 1) + if plan[n - 1].layer < 0 then [n - 1] else []
  }

  predicate Climbing(s: seq<nat>) { forall i, j :: 0 <= i < j < |s| ==> s[i] < s[j] }

  lemma Extended(s: seq<nat>, n: nat)
    requires Climbing(s) && forall k :: k in s ==> k < n
    ensures Climbing(s + [n])
  {
    forall i | 0 <= i < |s| ensures s[i] < n { assert s[i] in s; }
  }

  lemma {:induction false} IndicesAre(plan: seq<Request>, n: nat, layer: int)
    requires n <= |plan|
    ensures Climbing(IndicesOf(plan, n, layer))
    ensures forall k: nat :: k in IndicesOf(plan, n, layer) <==> k < n && plan[k].layer == layer
  {
    if n > 0 {
      IndicesAre(plan, n - 1, layer);
      Extended(IndicesOf(plan, n - 1, layer), n - 1);
    }
  }

  lemma {:induction false} UnlayeredAre(plan: seq<Request>, n: nat)
    requires n <= |plan|
    ensures Climbing(UnlayeredOf(plan, n))
    ensures forall k: nat :: k in UnlayeredOf(plan, n) <==> k < n && plan[k].layer < 0
  {
    if n > 0 {
      UnlayeredAre(plan, n - 1);
      Extended(UnlayeredOf(plan, n - 1), n - 1);
    }
  }

  datatype Lowered = Lowered(unlayered: seq<nat>, layers: seq<seq<nat>>) | NoLayers | EmptyLayer(layer: nat)

  /** The index part of `build_model_program`: one pass over the plan for the requests of
      no layer, and one for every layer. */
  method LowerIndices(plan: seq<Request>, layers: nat) returns (r: Lowered)
    ensures r.NoLayers? <==> layers == 0
    ensures r.EmptyLayer? ==> r.layer < layers && forall k :: 0 <= k < |plan| ==> plan[k].layer != r.layer
    ensures r.Lowered? ==> r.unlayered == UnlayeredOf(plan, |plan|) && |r.layers| == layers
    ensures r.Lowered? ==> forall i :: 0 <= i < layers ==>
      r.layers[i] == IndicesOf(plan, |plan|, i) && r.layers[i] != []
  {
    if layers == 0 { return NoLayers; }
    var unlayered: seq<nat> := [];
    for k := 0 to |plan|
      invariant unlayered == UnlayeredOf(plan, k)
    {
      if plan[k].layer < 0 { unlayered := unlayered + [k]; }
    }
    var compiled: seq<seq<nat>> := [];
    for i := 0 to layers
      invariant |compiled| == i
      invariant forall j :: 0 <= j < i ==> compiled[j] == IndicesOf(plan, |plan|, j) && compiled[j] != []
    {
      var mine: seq<nat> := [];
      for k := 0 to |plan|
        invariant mine == IndicesOf(plan, k, i)
      {
        if plan[k].layer == i { mine := mine + [k]; }
      }
      if mine == [] {
        IndicesAre(plan, |plan|, i);
        forall k | 0 <= k < |plan| ensures plan[k].layer != i { assert k !in mine; }
        return EmptyLayer(i);
      }
      compiled := compiled + [mine];
    }
    r := Lowered(unlayered, compiled);
  }

  // ----- which requests are a layer's own

  ghost predicate AllAt(list: seq<Request>, layer: int) { forall i :: 0 <= i < |list| ==> list[i].layer == layer }

  lemma LayerOnly(g: Graph, l: LayerSpec, naming: Naming, at: Place)
    ensures AllAt(LayerRequests(g, l, naming, at), at.layer)
  {
    hide AskNorm, HeadRequests, TailRequests;
    HeadWithin(g, l, at);
    TailWithin(g, l, at, false);
    MiddleOnly(g, l, naming, at);
    hide MiddleRequests, Rank, Turn, Before, Ordered;
  }

  lemma MiddleOnly(g: Graph, l: LayerSpec, naming: Naming, at: Place)
    ensures AllAt(MiddleRequests(g, l, naming, at), at.layer)
  {
    hide Rank, Turn, Before, Ordered, DenseRequests;
    if Clashes(l) {
      DenseWithin(g.hidden, l.feedForward.intermediate, l.feedForward.parallel, at);
    } else {
      MiddleWithin(g, l, naming, at);
      hide MiddleRequests;
    }
  }

  lemma UnlayeredOnly(g: Graph)
    ensures AllAt(UnlayeredRequests(g), -1)
  {
    UnlayeredWithin(g);
    hide UnlayeredRequests, Rank, Turn, Before, Ordered;
  }

  lemma {:induction false} PlanLayers(g: Graph, naming: Naming, n: nat)
    requires n <= |g.layers|
    ensures forall i :: 0 <= i < |PlanTo(g, naming, n)| ==> -1 <= PlanTo(g, naming, n)[i].layer < n
  {
    hide LayerRequests, UnlayeredRequests;
    if n == 0 {
      UnlayeredOnly(g);
    } else {
      PlanLayers(g, naming, n - 1);
      LayerOnly(g, g.layers[n - 1], naming, PlaceOf(g, n - 1));
    }
  }

  /** The requests of one layer, in the plan's order. */
  function Own(list: seq<Request>, layer: int): seq<Request> {
    if list == [] then []
    else Own(list[..|list| - 1], layer) + if list[|list| - 1].layer == layer then [list[|list| - 1]] else []
  }

  lemma {:induction false} OwnAppend(a: seq<Request>, b: seq<Request>, layer: int)
    ensures Own(a + b, layer) == Own(a, layer) + Own(b, layer)
  {
    if b == [] {
      assert a + b == a;
    } else {
      var n := |b| - 1;
      OwnAppend(a, b[..n], layer);
      assert (a + b)[..|a| + n] == a + b[..n] && (a + b)[|a| + n] == b[n];
    }
  }

  lemma {:induction false} OwnAll(list: seq<Request>, layer: int)
    requires AllAt(list, layer)
    ensures Own(list, layer) == list
  {
    if list != [] {
      var n := |list| - 1;
      assert AllAt(list[..n], layer);
      OwnAll(list[..n], layer);
      assert list == list[..n] + [list[n]];
    }
  }

  lemma {:induction false} OwnNone(list: seq<Request>, layer: int)
    requires forall i :: 0 <= i < |list| ==> list[i].layer != layer
    ensures Own(list, layer) == []
  {
    if list != [] { OwnNone(list[..|list| - 1], layer); }
  }

  /** What the plan holds of a layer is exactly what the layer's specification asks for. */
  lemma {:induction false} OwnIsLayer(g: Graph, naming: Naming, n: nat, i: nat)
    requires i < n <= |g.layers|
    ensures Own(PlanTo(g, naming, n), i) == LayerRequests(g, g.layers[i], naming, PlaceOf(g, i))
  {
    hide LayerRequests, UnlayeredRequests, Own;
    var before, last := PlanTo(g, naming, n - 1), LayerRequests(g, g.layers[n - 1], naming, PlaceOf(g, n - 1));
    OwnAppend(before, last, i);
    LayerOnly(g, g.layers[n - 1], naming, PlaceOf(g, n - 1));
    PlanLayers(g, naming, n - 1);
    if i == n - 1 {
      OwnNone(before, i);
      OwnAll(last, i);
    } else {
      OwnIsLayer(g, naming, n - 1, i);
      OwnNone(last, i);
    }
  }

  lemma {:induction false} OwnHas(list: seq<Request>, layer: int, r: Request)
    ensures r in Own(list, layer) <==> r in list && r.layer == layer
  {
    if list != [] {
      OwnHas(list[..|list| - 1], layer, r);
      assert list == list[..|list| - 1] + [list[|list| - 1]];
    }
  }

  lemma MixerAsks(h: int, m: Mixer, at: Place)
    ensures MixerRequests(h, m, at) != []
  {
    match m
    case Attend(a) =>
      assert AttentionCore(h, a, at) != [];
      hide AttentionCore;
    case ShortConv(_) =>
    case DeltaNet(_, _, _, _, _, _, _) => assert DeltaCommon(h, m, at) != [];
    case Mamba(_, _, _, _, _) =>
    case MlpBlock(_) =>
  }

  /** Request `k` is in the list of its one layer, or in the unlayered one. */
  ghost predicate InOneList(plan: seq<Request>, layers: nat, k: nat) {
    && (k in UnlayeredOf(plan, |plan|) <==> forall i: nat :: i < layers ==> k !in IndicesOf(plan, |plan|, i))
    && forall i: nat, j: nat :: k in IndicesOf(plan, |plan|, i) && k in IndicesOf(plan, |plan|, j) ==> i == j
  }

  lemma ListedOnce(plan: seq<Request>, layers: nat, k: nat)
    requires k < |plan| && -1 <= plan[k].layer < layers
    ensures InOneList(plan, layers, k)
  {
    hide IndicesOf, UnlayeredOf, Climbing;
    UnlayeredAre(plan, |plan|);
    forall i: nat | true ensures k in IndicesOf(plan, |plan|, i) <==> plan[k].layer == i {
      IndicesAre(plan, |plan|, i);
    }
    if plan[k].layer >= 0 { assert k in IndicesOf(plan, |plan|, plan[k].layer); }
  }

  /** For the plan of any graph the lists are a partition of the requests, and no layer's
      list is empty. */
  lemma ListsPartition(g: Graph, naming: Naming)
    ensures forall k: nat :: k < |Plan(g, naming)| ==> InOneList(Plan(g, naming), |g.layers|, k)
    ensures forall i: nat :: i < |g.layers| ==> IndicesOf(Plan(g, naming), |Plan(g, naming)|, i) != []
  {
    hide IndicesOf, PlanTo, InOneList;
    PlanLayers(g, naming, |g.layers|);
    forall k: nat | k < |Plan(g, naming)| ensures InOneList(Plan(g, naming), |g.layers|, k) {
      ListedOnce(Plan(g, naming), |g.layers|, k);
    }
    forall i: nat | i < |g.layers| ensures IndicesOf(Plan(g, naming), |Plan(g, naming)|, i) != [] {
      LayerListed(g, naming, i);
    }
  }

  lemma LayerListed(g: Graph, naming: Naming, i: nat)
    requires i < |g.layers|
    ensures IndicesOf(Plan(g, naming), |Plan(g, naming)|, i) != []
  {
    var plan := Plan(g, naming);
    var at := PlaceOf(g, i);
    OwnIsLayer(g, naming, |g.layers|, i);
    MixerAsks(g.hidden, g.layers[i].mixer, at);
    var first := LayerRequests(g, g.layers[i], naming, at)[0];
    assert LayerRequests(g, g.layers[i], naming, at) != [] by {
      hide MixerRequests, AskNorm, MiddleRequests, TailRequests;
    }
    hide LayerRequests, PlanTo, IndicesOf, Own;
    OwnHas(plan, i, first);
    var k :| 0 <= k < |plan| && plan[k] == first;
    IndicesAre(plan, |plan|, i);
    assert k in IndicesOf(plan, |plan|, i);
  }

  // ----- compiled flags

  /** `has_key_value` of the compiled attention. */
  function HasKeyValue(a: AttentionSpec): bool { !a.sharing.Consumer? && !a.external }

  function HasQueryKeyNorm(a: AttentionSpec): bool { a.queryNorm.Some? || a.keyNorm.Some? }

  function HasValueNorm(a: AttentionSpec): bool { a.valueNorm.Some? }

  ghost predicate Asks(list: seq<Request>, role: Role) { exists i :: 0 <= i < |list| && list[i].role == role }

  lemma AsksEither(a: seq<Request>, b: seq<Request>, role: Role)
    ensures Asks(a + b, role) <==> Asks(a, role) || Asks(b, role)
  {
    if Asks(a + b, role) { AskedByOne(a, b, role); }
    if Asks(a, role) || Asks(b, role) { AskedByBoth(a, b, role); }
    hide Asks;
  }

  lemma AskedByOne(a: seq<Request>, b: seq<Request>, role: Role)
    requires Asks(a + b, role)
    ensures Asks(a, role) || Asks(b, role)
  {
    var i :| 0 <= i < |a + b| && (a + b)[i].role == role;
    if i < |a| { assert a[i].role == role; } else { assert b[i - |a|].role == role; }
  }

  lemma AskedByBoth(a: seq<Request>, b: seq<Request>, role: Role)
    requires Asks(a, role) || Asks(b, role)
    ensures Asks(a + b, role)
  {
    if Asks(a, role) {
      var i :| 0 <= i < |a| && a[i].role == role;
      assert (a + b)[i].role == role;
    } else {
      var i :| 0 <= i < |b| && b[i].role == role;
      assert (a + b)[|a| + i].role == role;
    }
  }

  lemma AskAsks(at: Place, role: Role, shape: seq<int>, q: Role)
    ensures Asks(Ask(at, role, shape), q) <==> role == q
  {
    assert Ask(at, role, shape)[0].role == role;
  }

  lemma AskIfAsks(c: bool, at: Place, role: Role, shape: seq<int>, q: Role)
    ensures Asks(AskIf(c, at, role, shape), q) <==> c && role == q
  {
    if c { AskAsks(at, role, shape, q); }
  }

  lemma AskNormAsks(at: Place, role: Role, norm: Option<Norm>, shape: seq<int>, q: Role)
    ensures Asks(AskNorm(at, role, norm, shape), q) <==> norm.Some? && !norm.value.kind.NoWeight? && role == q
  {
    var list := AskNorm(at, role, norm, shape);
    assert list != [] ==> list[0].role == role;
  }

  lemma OutOfRank(list: seq<Request>, layer: int, early: bool, lo: nat, hi: nat, role: Role)
    requires Within(list, layer, early, lo, hi) && !(lo <= Rank(role, early) < hi)
    ensures !Asks(list, role)
  {
    hide Rank, Turn, Before, Ordered;
  }

  predicate MixerRole(role: Role) { KeyValueRole(role) || role == AttentionQueryNorm }

  predicate KeyValueRole(role: Role) { role in {AttentionKey, AttentionValue, AttentionKeyNorm, AttentionValueNorm} }

  /** Key and value roles are asked for only among an ordinary attention's own. */
  lemma KeyValueOnlyThere(h: int, a: AttentionSpec, at: Place, role: Role)
    requires KeyValueRole(role) && !a.state.Latent?
    ensures Asks(AttentionRequests(h, a, at), role) <==> !a.external && Asks(KeyValueRequests(h, a, at), role)
  {
    hide Asks, Ask, AskIf, Within, KeyValueRequests, QueryRequests;
    var output := Ask(at, AttentionOutput, [h, QueryWidth(a)]);
    AskAsks(at, AttentionOutput, [h, QueryWidth(a)], role);
    NotInQuery(h, a, at, role);
    GateAndBias(h, a, at, role);
    hide KeyValueRole, AttentionRequests, QueryWidth;
    AsksEither(QueryRequests(h, a, at), output, role);
    AsksEither(QueryRequests(h, a, at), KeyValueRequests(h, a, at), role);
    AsksEither(QueryRequests(h, a, at) + KeyValueRequests(h, a, at), output, role);
  }

  lemma NotInQuery(h: int, a: AttentionSpec, at: Place, role: Role)
    requires KeyValueRole(role)
    ensures !Asks(QueryRequests(h, a, at), role)
  {
    hide Asks, QueryRequests, Within;
    QueryWithin(h, a, at);
    OutOfRank(QueryRequests(h, a, at), at.layer, false, 11, 13, role);
  }

  lemma GateAndBias(h: int, a: AttentionSpec, at: Place, role: Role)
    requires MixerRole(role)
    ensures Asks(AttentionRequests(h, a, at), role) <==> Asks(AttentionCore(h, a, at), role)
  {
    hide Asks, Ask, AskIf, AttentionCore;
    var core := AttentionCore(h, a, at);
    var gate := AskIf(a.gate.Some? && !a.gate.value.packed, at, AttentionGate, [GateWidth(a), h]);
    AskIfAsks(a.gate.Some? && !a.gate.value.packed, at, AttentionGate, [GateWidth(a), h], role);
    AsksEither(core, gate, role);
    match a.relativeBuckets
    case None =>
      assert core + gate + [] == core + gate;
    case Some(n) =>
      AskAsks(at, RelativePositionBias, [a.queryHeads * n], role);
      AsksEither(core + gate, Ask(at, RelativePositionBias, [a.queryHeads * n]), role);
  }

  lemma KeyValueAsked(h: int, a: AttentionSpec, at: Place)
    ensures Asks(KeyValueRequests(h, a, at), AttentionKey) <==> !a.sharing.Consumer?
    ensures Asks(KeyValueRequests(h, a, at), AttentionValue) <==> !a.sharing.Consumer?
    ensures Asks(KeyValueRequests(h, a, at), AttentionKeyNorm) <==>
      !a.sharing.Consumer? && a.keyNorm.Some? && !a.keyNorm.value.kind.NoWeight?
    ensures Asks(KeyValueRequests(h, a, at), AttentionValueNorm) <==>
      !a.sharing.Consumer? && a.valueNorm.Some? && !a.valueNorm.value.kind.NoWeight?
  {
    hide Asks, KeyValueRequests;
    KeyValueAsks(h, a, at, AttentionKey);
    KeyValueAsks(h, a, at, AttentionValue);
    KeyValueAsks(h, a, at, AttentionKeyNorm);
    KeyValueAsks(h, a, at, AttentionValueNorm);
  }

  predicate AmongKeyValue(a: AttentionSpec, role: Role) {
    || role == AttentionKey || role == AttentionValue
    || (role == AttentionKeyNorm && a.keyNorm.Some? && !a.keyNorm.value.kind.NoWeight?)
    || (role == AttentionValueNorm && a.valueNorm.Some? && !a.valueNorm.value.kind.NoWeight?)
  }

  lemma KeyValueAsks(h: int, a: AttentionSpec, at: Place, role: Role)
    ensures Asks(KeyValueRequests(h, a, at), role) <==> !a.sharing.Consumer? && AmongKeyValue(a, role)
  {
    var k, v := Ask(at, AttentionKey, [KvWidth(a), h]), Ask(at, AttentionValue, [KvWidth(a), h]);
    var kn := AskNorm(at, AttentionKeyNorm, a.keyNorm, [NormWidth(a.keyNorm, a.headDim, KvWidth(a))]);
    var vn := AskNorm(at, AttentionValueNorm, a.valueNorm, [NormWidth(a.valueNorm, a.headDim, KvWidth(a))]);
    NothingAsked(role);
    hide Asks, Ask, AskNorm, NormWidth, KvWidth;
    AskAsks(at, AttentionKey, [KvWidth(a), h], role);
    AskAsks(at, AttentionValue, [KvWidth(a), h], role);
    AskNormAsks(at, AttentionKeyNorm, a.keyNorm, [NormWidth(a.keyNorm, a.headDim, KvWidth(a))], role);
    AskNormAsks(at, AttentionValueNorm, a.valueNorm, [NormWidth(a.valueNorm, a.headDim, KvWidth(a))], role);
    AsksFour(k, v, kn, vn, role);
  }

  lemma NothingAsked(role: Role)
    ensures !Asks([], role)
  {
  }

  lemma AsksFour(a: seq<Request>, b: seq<Request>, c: seq<Request>, d: seq<Request>, role: Role)
    ensures Asks(a + b + c + d, role) <==> Asks(a, role) || Asks(b, role) || Asks(c, role) || Asks(d, role)
  {
    hide Asks;
    AsksEither(a, b, role);
    AsksEither(a + b, c, role);
    AsksEither(a + b + c, d, role);
  }

  /** A role of the mixer's is asked for in the layer's requests only by the mixer. */
  lemma OnlyByMixer(g: Graph, i: nat, naming: Naming, role: Role)
    requires i < |g.layers| && g.layers[i].mixer.Attend? && MixerRole(role)
    ensures var at := PlaceOf(g, i);
      Asks(LayerRequests(g, g.layers[i], naming, at), role) <==>
        Asks(MixerRequests(g.hidden, g.layers[i].mixer, at), role)
  {
    hide Asks, AskNorm, MixerRequests, MiddleRequests, TailRequests, Within;
    var l, at := g.layers[i], PlaceOf(g, i);
    var norm, mixer := AskNorm(at, AttentionInputNorm, l.mixerBefore, [g.hidden]), MixerRequests(g.hidden, l.mixer, at);
    var middle, tail := MiddleRequests(g, l, naming, at), TailRequests(g, l, at);
    AskNormAsks(at, AttentionInputNorm, l.mixerBefore, [g.hidden], role);
    MiddleWithin(g, l, naming, at);
    TailWithin(g, l, at, false);
    OutOfRank(middle, at.layer, false, 30, 40, role);
    OutOfRank(tail, at.layer, false, 40, 46, role);
    AsksFour(norm, mixer, middle, tail, role);
  }

  ghost predicate PlanAsks(plan: seq<Request>, layer: int, role: Role) {
    exists k :: 0 <= k < |plan| && plan[k].layer == layer && plan[k].role == role
  }

  lemma PlanAsksOwn(g: Graph, naming: Naming, i: nat, role: Role)
    requires i < |g.layers|
    ensures PlanAsks(Plan(g, naming), i, role) <==> Asks(LayerRequests(g, g.layers[i], naming, PlaceOf(g, i)), role)
  {
    hide LayerRequests, PlanTo, Own, PlanAsks, Asks;
    OwnIsLayer(g, naming, |g.layers|, i);
    OwnAsks(Plan(g, naming), i, role);
  }

  lemma OwnAsks(plan: seq<Request>, layer: int, role: Role)
    ensures PlanAsks(plan, layer, role) <==> Asks(Own(plan, layer), role)
  {
    hide Own;
    var mine := Own(plan, layer);
    if PlanAsks(plan, layer, role) {
      var k :| 0 <= k < |plan| && plan[k].layer == layer && plan[k].role == role;
      OwnHas(plan, layer, plan[k]);
      var j :| 0 <= j < |mine| && mine[j] == plan[k];
    }
    if Asks(mine, role) {
      var j :| 0 <= j < |mine| && mine[j].role == role;
      OwnHas(plan, layer, mine[j]);
      var k :| 0 <= k < |plan| && plan[k] == mine[j];
    }
  }

  /** The loaders and the compiled program agree on who projects keys and values: a
      non-latent attention layer has both requests when its compiled flag is set and
      neither when it is not; and its own norms of keys and values are asked for only
      along with them, and only if they have weights. */
  lemma KeyValueAgrees(g: Graph, naming: Naming, i: nat)
    requires i < |g.layers| && g.layers[i].mixer.Attend? && !g.layers[i].mixer.attention.state.Latent?
    ensures var a := g.layers[i].mixer.attention; var plan := Plan(g, naming);
      && (PlanAsks(plan, i, AttentionKey) <==> HasKeyValue(a))
      && (PlanAsks(plan, i, AttentionValue) <==> HasKeyValue(a))
      && (PlanAsks(plan, i, AttentionKeyNorm) <==> HasKeyValue(a) && a.keyNorm.Some? && !a.keyNorm.value.kind.NoWeight?)
      && (PlanAsks(plan, i, AttentionValueNorm) <==>
        HasKeyValue(a) && HasValueNorm(a) && !a.valueNorm.value.kind.NoWeight?)
  {
    var a, at := g.layers[i].mixer.attention, PlaceOf(g, i);
    hide PlanAsks, Asks, LayerRequests, AttentionRequests, KeyValueRequests, PlanTo;
    KeyValueAsked(g.hidden, a, at);
    forall role | KeyValueRole(role)
      ensures PlanAsks(Plan(g, naming), i, role) <==> !a.external && Asks(KeyValueRequests(g.hidden, a, at), role)
    {
      PlanAsksOwn(g, naming, i, role);
      OnlyByMixer(g, i, naming, role);
      KeyValueOnlyThere(g.hidden, a, at, role);
    }
  }

  predicate Weighted(norm: Option<Norm>) { norm.Some? && !norm.value.kind.NoWeight? }

  lemma QueryAsked(h: int, a: AttentionSpec, at: Place)
    ensures Asks(QueryRequests(h, a, at), AttentionQueryNorm) <==> Weighted(a.queryNorm)
  {
    hide Asks, Ask, AskNorm, NormWidth, QueryWidth, QueryProjectionWidth;
    var width := [NormWidth(a.queryNorm, a.headDim, QueryWidth(a))];
    AskAsks(at, AttentionQuery, [QueryProjectionWidth(a), h], AttentionQueryNorm);
    AskNormAsks(at, AttentionQueryNorm, a.queryNorm, width, AttentionQueryNorm);
    AsksEither(Ask(at, AttentionQuery, [QueryProjectionWidth(a), h]),
               AskNorm(at, AttentionQueryNorm, a.queryNorm, width), AttentionQueryNorm);
  }

  /** A non-latent attention asks for its query norm exactly if it has one with weights. */
  lemma QueryNormAsked(h: int, a: AttentionSpec, at: Place)
    requires !a.state.Latent?
    ensures Asks(AttentionRequests(h, a, at), AttentionQueryNorm) <==> Weighted(a.queryNorm)
  {
    hide Asks, Ask, QueryRequests, KeyValueRequests, AttentionRequests, QueryWidth;
    var role := AttentionQueryNorm;
    var output := Ask(at, AttentionOutput, [h, QueryWidth(a)]);
    GateAndBias(h, a, at, role);
    QueryAsked(h, a, at);
    AskAsks(at, AttentionOutput, [h, QueryWidth(a)], role);
    KeyValueAsks(h, a, at, role);
    AsksEither(QueryRequests(h, a, at), KeyValueRequests(h, a, at), role);
    AsksEither(QueryRequests(h, a, at) + KeyValueRequests(h, a, at), output, role);
    AsksEither(QueryRequests(h, a, at), output, role);
  }

  /** `has_query_key_norm` and the plan: the plan holds a query or key norm of a non-latent
      attention layer only if the flag is set, and holds none under a set flag exactly when
      the norms it stands for have no weights or belong to a key the layer does not project. */
  lemma QueryKeyNormAgrees(g: Graph, naming: Naming, i: nat)
    requires i < |g.layers| && g.layers[i].mixer.Attend? && !g.layers[i].mixer.attention.state.Latent?
    ensures var a := g.layers[i].mixer.attention; var plan := Plan(g, naming);
      var asked := PlanAsks(plan, i, AttentionQueryNorm) || PlanAsks(plan, i, AttentionKeyNorm);
      && (PlanAsks(plan, i, AttentionQueryNorm) <==> Weighted(a.queryNorm))
      && (asked ==> HasQueryKeyNorm(a))
      && (HasQueryKeyNorm(a) && !asked <==>
          HasQueryKeyNorm(a) && !Weighted(a.queryNorm) && !(HasKeyValue(a) && Weighted(a.keyNorm)))
  {
    var a, at := g.layers[i].mixer.attention, PlaceOf(g, i);
    hide PlanAsks, Asks, LayerRequests, AttentionRequests, KeyValueRequests, PlanTo, Plan;
    PlanAsksOwn(g, naming, i, AttentionQueryNorm);
    OnlyByMixer(g, i, naming, AttentionQueryNorm);
    QueryNormAsked(g.hidden, a, at);
    KeyValueAgrees(g, naming, i);
  }

  // ----- expert payloads

  const SIZE_LIMIT := 0x1_0000_0000_0000_0000
  const INT_LIMIT := 0x8000_0000

  function Total(regions: seq<nat>): nat {
    if regions == [] then 0 else Total(regions[..|regions| - 1]) + regions[|regions| - 1]
  }

  datatype Elements = Elements(count: nat) | Overflow

  /** `ExpertPayloadSchema::elements`: the sum, or an overflow found before it happens. */
  method PayloadElements(regions: seq<nat>) returns (r: Elements)
    requires forall i :: 0 <= i < |regions| ==> regions[i] < SIZE_LIMIT
    ensures r == if Total(regions) < SIZE_LIMIT then Elements(Total(regions)) else Overflow
  {
    var total := 0;
    for i := 0 to |regions|
      invariant total == Total(regions[..i]) && total < SIZE_LIMIT
    {
      assert regions[..i + 1][..i] == regions[..i];
      if regions[i] > SIZE_LIMIT - 1 - total {
        TotalGrows(regions, i + 1);
        return Overflow;
      }
      total := total + regions[i];
    }
    assert regions[..|regions|] == regions;
    r := Elements(total);
  }

  lemma {:induction false} TotalGrows(regions: seq<nat>, n: nat)
    requires n <= |regions|
    ensures Total(regions[..n]) <= Total(regions)
    decreases |regions|
  {
    if n == |regions| {
      assert regions[..n] == regions;
    } else {
      var front := regions[..|regions| - 1];
      TotalGrows(front, n);
      assert front[..n] == regions[..n];
    }
  }

  /** The regions `lower_moe` gives one routed expert. */
  function PayloadRegions(h: nat, n: nat): seq<nat> { [h * n, h * n, h * n] }

  lemma ProductBelow(h: nat, n: nat)
    requires h < INT_LIMIT && n < INT_LIMIT
    ensures h * n <= INT_LIMIT * INT_LIMIT
  {
    NoLarger(h, INT_LIMIT, n);
    NoLarger(n, INT_LIMIT, INT_LIMIT);
  }

  lemma NoLarger(a: nat, b: nat, c: nat)
    requires a <= b
    ensures a * c <= b * c
  {
    assert (b - a) * c >= 0;
  }

  lemma ThreeRegions(x: nat)
    ensures Total([x, x, x]) == x + x + x
  {
    assert [x, x, x][..2] == [x, x] && [x, x][..1] == [x] && [x][..0] == [];
    assert Total([x]) == x;
    assert Total([x, x]) == x + x;
  }

  /** No graph's payload overflows: widths are 32-bit, and three of their products fit. */
  lemma PayloadFits(h: nat, n: nat)
    requires h < INT_LIMIT && n < INT_LIMIT
    ensures Total(PayloadRegions(h, n)) == 3 * (h * n) < SIZE_LIMIT
  {
    ProductBelow(h, n);
    ThreeRegions(h * n);
    hide Total;
  }

  predicate Routed(role: Role) { role in {PackedGateUp, PackedDown, ExpertGate, ExpertUp, ExpertDown} }

  function Product(shape: seq<int>): int {
    if shape == [] then 1 else Product(shape[..|shape| - 1]) * shape[|shape| - 1]
  }

  /** How many weights of routed experts a list of requests asks for. */
  function RoutedElements(list: seq<Request>): int {
    if list == [] then 0
    else
      var last := list[|list| - 1];
      RoutedElements(list[..|list| - 1]) + if Routed(last.role) then Product(last.shape) else 0
  }

  lemma {:induction false} RoutedAppend(a: seq<Request>, b: seq<Request>)
    ensures RoutedElements(a + b) == RoutedElements(a) + RoutedElements(b)
  {
    hide Product, Routed;
    if b == [] {
      assert a + b == a;
    } else {
      var n := |b| - 1;
      RoutedAppend(a, b[..n]);
      assert (a + b)[..|a| + n] == a + b[..n] && (a + b)[|a| + n] == b[n];
    }
  }

  lemma {:induction false} RoutedNone(list: seq<Request>)
    requires forall i :: 0 <= i < |list| ==> !Routed(list[i].role)
    ensures RoutedElements(list) == 0
  {
    if list != [] { RoutedNone(list[..|list| - 1]); }
  }

  lemma RoutedOutOfRank(list: seq<Request>, layer: int, early: bool, lo: nat, hi: nat)
    requires Within(list, layer, early, lo, hi) && (hi <= 33 || 36 <= lo)
    ensures RoutedElements(list) == 0
  {
    hide Turn, Before, Ordered, RoutedElements;
    forall i | 0 <= i < |list| ensures !Routed(list[i].role) { assert lo <= Rank(list[i].role, early) < hi; }
    RoutedNone(list);
  }

  lemma Product2(x: int, y: int)
    ensures Product([x, y]) == x * y
  {
    assert [x, y][..1] == [x] && [x][..0] == [];
    assert Product([x]) == x;
  }

  lemma Product3(x: int, y: int, z: int)
    ensures Product([x, y, z]) == x * y * z
  {
    assert [x, y, z][..2] == [x, y];
    Product2(x, y);
  }

  lemma OneRouted(r: Request)
    ensures RoutedElements([r]) == if Routed(r.role) then Product(r.shape) else 0
  {
    assert [r][..0] == [];
  }

  lemma OneExpertElements(h: int, n: int, expert: int, at: Place)
    ensures RoutedElements(OneExpert(h, n, expert, at)) == 3 * (h * n)
  {
    var e := OneExpert(h, n, expert, at);
    hide Product;
    Product2(n, h);
    Product2(h, n);
    OneRouted(e[0]);
    OneRouted(e[1]);
    OneRouted(e[2]);
    RoutedAppend([e[0]], [e[1]]);
    RoutedAppend([e[0]] + [e[1]], [e[2]]);
    assert e == [e[0]] + [e[1]] + [e[2]];
    hide RoutedElements;
    assert h * n == n * h;
  }

  lemma {:induction false} ExpertsElements(h: int, n: int, count: nat, at: Place)
    ensures RoutedElements(Experts(h, n, count, at)) == count * (3 * (h * n))
  {
    hide OneExpert, RoutedElements;
    if count == 0 {
      RoutedNone([]);
    } else {
      ExpertsElements(h, n, count - 1, at);
      OneExpertElements(h, n, count - 1, at);
      RoutedAppend(Experts(h, n, count - 1, at), OneExpert(h, n, count - 1, at));
      Distributes(count - 1, 3 * (h * n));
    }
  }

  lemma Distributes(c: int, x: int)
    ensures (c + 1) * x == c * x + x
  {
  }

  lemma PackedElements(h: int, moe: MoeSpec, at: Place)
    ensures RoutedElements(RoutedRequests(h, moe, true, at)) == moe.experts * (3 * (h * moe.intermediate))
  {
    var up := Request(PackedGateUp, at.layer, -1, [moe.experts, 2 * moe.intermediate, h], at.physical, Scale);
    var down := Request(PackedDown, at.layer, -1, [moe.experts, h, moe.intermediate], at.physical, Scale);
    assert RoutedRequests(h, moe, true, at) == [up] + [down];
    hide Product;
    OneRouted(up);
    OneRouted(down);
    RoutedAppend([up], [down]);
    Product3(moe.experts, 2 * moe.intermediate, h);
    Product3(moe.experts, h, moe.intermediate);
    hide RoutedElements;
    Threefold(moe.experts, h, moe.intermediate);
  }

  lemma Threefold(e: int, h: int, n: int)
    ensures e * (2 * n) * h + e * h * n == e * (3 * (h * n))
  {
    assert e * (2 * n) * h == e * (2 * (n * h)) && e * h * n == e * (h * n);
    assert n * h == h * n;
    assert e * (2 * (h * n)) + e * (h * n) == e * (2 * (h * n) + h * n);
  }

  /** Both layouts ask for as many weights as the compiled payload times the experts. */
  lemma RoutedAgrees(h: nat, moe: MoeSpec, packed: bool, at: Place)
    requires 0 < moe.experts && 0 < moe.intermediate < INT_LIMIT && 0 < h < INT_LIMIT
    ensures RoutedElements(RoutedRequests(h, moe, packed, at))
      == moe.experts * Total(PayloadRegions(h, moe.intermediate))
  {
    PayloadFits(h, moe.intermediate);
    if packed {
      PackedElements(h, moe, at);
    } else {
      ExpertsElements(h, moe.intermediate, moe.experts, at);
    }
  }

  lemma MoeElements(h: nat, moe: MoeSpec, naming: Naming, at: Place)
    requires 0 < moe.experts && 0 < moe.intermediate < INT_LIMIT && 0 < h < INT_LIMIT
    ensures RoutedElements(MoeRequests(h, moe, naming, at)) == moe.experts * Total(PayloadRegions(h, moe.intermediate))
  {
    var router := Ask(at, MoeRouter, [moe.experts, h]);
    var bias := AskIf(moe.bias, at, MoeRouterBias, [moe.experts]);
    var routed := RoutedRequests(h, moe, at.layer in naming.packed, at);
    var shared := SharedRequests(h, moe, at.layer in naming.gated, at);
    RoutedAgrees(h, moe, at.layer in naming.packed, at);
    SharedWithin(h, moe, at.layer in naming.gated, at, false);
    RoutedOutOfRank(shared, at.layer, false, 36, 40);
    RoutedNone(router);
    RoutedNone(bias);
    hide RoutedElements, RoutedRequests, SharedRequests, Ask, AskIf, Total, PayloadRegions;
    RoutedAppend(router, bias);
    RoutedAppend(router + bias, routed);
    RoutedAppend(router + bias + routed, shared);
  }

  /** In the whole plan of a graph, the requests of a mixture-of-experts layer ask for
      exactly its number of experts times the payload compiled for one. */
  lemma ExpertWeightsAgree(g: Graph, naming: Naming, i: nat)
    requires i < |g.layers| && g.layers[i].feedForward.Moe? && 0 < g.hidden < INT_LIMIT
    requires 0 < g.layers[i].feedForward.moe.experts && 0 < g.layers[i].feedForward.moe.intermediate < INT_LIMIT
    ensures var moe := g.layers[i].feedForward.moe;
      RoutedElements(Own(Plan(g, naming), i)) == moe.experts * Total(PayloadRegions(g.hidden, moe.intermediate))
  {
    hide LayerRequests, RoutedElements, Own, PlanTo;
    OwnIsLayer(g, naming, |g.layers|, i);
    LayerElements(g, g.layers[i], naming, PlaceOf(g, i));
  }

  lemma LayerElements(g: Graph, l: LayerSpec, naming: Naming, at: Place)
    requires l.feedForward.Moe? && 0 < g.hidden < INT_LIMIT
    requires 0 < l.feedForward.moe.experts && 0 < l.feedForward.moe.intermediate < INT_LIMIT
    ensures RoutedElements(LayerRequests(g, l, naming, at))
      == l.feedForward.moe.experts * Total(PayloadRegions(g.hidden, l.feedForward.moe.intermediate))
  {
    hide RoutedElements, HeadRequests, TailRequests, MoeRequests, Total, PayloadRegions, Routed;
    var norm := AskNorm(at, FfnInputNorm, l.ffBefore, [g.hidden]);
    var moe := MoeRequests(g.hidden, l.feedForward.moe, naming, at);
    OuterElements(g, l, at);
    NormElements(at, l.ffBefore, [g.hidden]);
    MoeElements(g.hidden, l.feedForward.moe, naming, at);
    hide AskNorm;
    RoutedAppend(norm, moe);
    RoutedAppend(HeadRequests(g, l, at), norm + moe);
    RoutedAppend(HeadRequests(g, l, at) + (norm + moe), TailRequests(g, l, at));
  }

  lemma NormElements(at: Place, norm: Option<Norm>, shape: seq<int>)
    ensures RoutedElements(AskNorm(at, FfnInputNorm, norm, shape)) == 0
  {
    RoutedNone(AskNorm(at, FfnInputNorm, norm, shape));
    hide RoutedElements;
  }

  lemma OuterElements(g: Graph, l: LayerSpec, at: Place)
    ensures RoutedElements(HeadRequests(g, l, at)) == 0 && RoutedElements(TailRequests(g, l, at)) == 0
  {
    hide Within, HeadRequests, TailRequests, RoutedElements;
    var early := l.mixer.MlpBlock?;
    HeadWithin(g, l, at);
    RoutedOutOfRank(HeadRequests(g, l, at), at.layer, early, 10, 30);
    TailWithin(g, l, at, early);
    RoutedOutOfRank(TailRequests(g, l, at), at.layer, early, 40, 46);
  }
}
