/** Attention patterns and the sharing of key-value caches between layers, assigned in
    place over the layers of a model graph. */
module KvSharing {
  import opened Options

  /** The pattern kinds the metadata can give a layer. */
  datatype Kind = NoPattern | FullCausal | SlidingWindow

  datatype Pattern = FullCausalPattern | SlidingWindowPattern(window: int) | SomeOtherPattern(id: int)

  datatype Sharing = PrivateKv | Publisher(group: int) | Consumer(group: int)

  datatype Layer =
    | Attention(pattern: Pattern, sharing: Sharing, keyNorm: Option<int>, valueNorm: Option<int>)
    | OtherMixer

  datatype Failure = MissingSlidingWindow | SharingCoversStack | NoPublisher

  datatype Outcome = Applied | Failed(why: Failure)

  /** The kind of a layer; one the metadata says nothing of is fully causal. */
  function KindOf(declared: map<nat, Kind>, layer: nat): Kind {
    if layer in declared then declared[layer] else FullCausal
  }

  // ----- patterns

  predicate NeedsWindow(layer: Layer, kind: Kind) { layer.Attention? && kind == SlidingWindow }

  function Patterned(layer: Layer, kind: Kind, window: Option<int>): Layer {
    if layer.OtherMixer? || kind == NoPattern then layer
    else if kind == FullCausal then layer.(pattern := FullCausalPattern)
    else match window
      case None => layer
      case Some(w) => layer.(pattern := SlidingWindowPattern(w))
  }

  method ApplyAttentionPatterns(layers: array<Layer>, declared: map<nat, Kind>, window: Option<int>)
    returns (r: Outcome)
    modifies layers
    ensures r.Failed? <==> window.None? && exists i: nat ::
      i < layers.Length && NeedsWindow(old(layers[i]), KindOf(declared, i))
    ensures r.Failed? ==> r.why == MissingSlidingWindow
    ensures r.Failed? ==>
      exists k: nat :: k < layers.Length && NeedsWindow(old(layers[k]), KindOf(declared, k)) &&
        forall i: nat :: i < layers.Length ==>
          && (i < k ==> !NeedsWindow(old(layers[i]), KindOf(declared, i)))
          && layers[i] == if i < k then Patterned(old(layers[i]), KindOf(declared, i), window) else old(layers[i])
    ensures r.Applied? ==> forall i: nat :: i < layers.Length ==>
      layers[i] == Patterned(old(layers[i]), KindOf(declared, i), window)
    ensures r.Applied? ==> forall i: nat :: i < layers.Length && old(layers[i]).Attention? ==>
      && layers[i].Attention?
      && layers[i].(pattern := FullCausalPattern) == old(layers[i]).(pattern := FullCausalPattern)
      && (i !in declared || declared[i].FullCausal? ==> layers[i].pattern == FullCausalPattern)
      && (i in declared && declared[i].SlidingWindow? ==>
        window.Some? && layers[i].pattern == SlidingWindowPattern(window.value))
      && (i in declared && declared[i].NoPattern? ==> layers[i] == old(layers[i]))
  {
    for i := 0 to layers.Length
      invariant forall k: nat :: k < i ==> layers[k] == Patterned(old(layers[k]), KindOf(declared, k), window)
      invariant forall k: nat :: i <= k < layers.Length ==> layers[k] == old(layers[k])
      invariant window.None? ==> forall k: nat :: k < i ==> !NeedsWindow(old(layers[k]), KindOf(declared, k))
    {
      if layers[i].Attention? {
        match KindOf(declared, i) {
          case NoPattern =>
          case FullCausal =>
            layers[i] := layers[i].(pattern := FullCausalPattern);
          case SlidingWindow =>
            if window.None? {
              assert NeedsWindow(old(layers[i]), KindOf(declared, i));
              return Failed(MissingSlidingWindow);
            }
            layers[i] := layers[i].(pattern := SlidingWindowPattern(window.value));
        }
      }
    }
    r := Applied;
  }

  // ----- sharing

  predicate HasKind(declared: map<nat, Kind>, n: nat, kind: Kind) {
    exists i: nat :: i < n && KindOf(declared, i) == kind
  }

  function LastOf(declared: map<nat, Kind>, n: nat, kind: Kind): (r: Option<nat>)
    ensures r.Some? ==> r.value < n && KindOf(declared, r.value) == kind
    ensures r.Some? ==> forall i: nat :: r.value < i < n ==> KindOf(declared, i) != kind
    ensures r.None? ==> forall i: nat :: i < n ==> KindOf(declared, i) != kind
  {
    if n == 0 then None else if KindOf(declared, n - 1) == kind then Some(n - 1) else LastOf(declared, n - 1, kind)
  }

  /** Two groups only when both kinds occur. */
  function GroupFor(declared: map<nat, Kind>, n: nat, kind: Kind): int {
    if HasKind(declared, n, FullCausal) && HasKind(declared, n, SlidingWindow) && kind == SlidingWindow then 1 else 0
  }

  predicate Shares(layer: Layer, kind: Kind) { layer.Attention? && kind != NoPattern }

  /** What layer `i` of `n` becomes when the layers from `first` on share. */
  function Assigned(layer: Layer, declared: map<nat, Kind>, n: nat, first: nat, i: nat): Layer {
    var kind := KindOf(declared, i);
    if !Shares(layer, kind) then layer
    else if i >= first then layer.(sharing := Consumer(GroupFor(declared, n, kind)), keyNorm := None, valueNorm := None)
    else if LastOf(declared, first, kind) == Some(i) then layer.(sharing := Publisher(GroupFor(declared, n, kind)))
    else layer
  }

  /** A shared layer without any unshared layer of its kind. */
  predicate Orphan(layer: Layer, declared: map<nat, Kind>, first: nat, i: nat) {
    i >= first && Shares(layer, KindOf(declared, i)) && LastOf(declared, first, KindOf(declared, i)).None?
  }

  method Survey(declared: map<nat, Kind>, n: nat) returns (hasSliding: bool, hasFull: bool)
    ensures hasSliding == HasKind(declared, n, SlidingWindow) && hasFull == HasKind(declared, n, FullCausal)
  {
    hide KindOf;
    hasSliding, hasFull := false, false;
    for layer := 0 to n
      invariant hasSliding == HasKind(declared, layer, SlidingWindow) && hasFull == HasKind(declared, layer, FullCausal)
    {
      var kind := KindOf(declared, layer);
      if kind == SlidingWindow { hasSliding := true; }
      if kind == FullCausal { hasFull := true; }
    }
  }

  method LastUnshared(declared: map<nat, Kind>, first: nat) returns (lastSliding: Option<nat>, lastFull: Option<nat>)
    ensures lastSliding == LastOf(declared, first, SlidingWindow) && lastFull == LastOf(declared, first, FullCausal)
  {
    hide KindOf;
    lastSliding, lastFull := None, None;
    for layer := 0 to first
      invariant lastSliding == LastOf(declared, layer, SlidingWindow) && lastFull == LastOf(declared, layer, FullCausal)
    {
      var kind := KindOf(declared, layer);
      if kind == SlidingWindow { lastSliding := Some(layer); }
      if kind == FullCausal { lastFull := Some(layer); }
    }
  }

  /** The last `shared` layers consume the cache of the last unshared layer of their own
      kind; a failure leaves the layers after the failing one as they were. */
  method ApplyKvSharing(layers: array<Layer>, declared: map<nat, Kind>, shared: Option<int>) returns (r: Outcome)
    modifies layers
    ensures shared.None? || shared.value <= 0 ==> r == Applied && layers[..] == old(layers[..])
    ensures shared.Some? && shared.value > 0 && shared.value >= layers.Length ==>
      r == Failed(SharingCoversStack) && layers[..] == old(layers[..])
    ensures shared.Some? && 0 < shared.value < layers.Length ==>
      var first := layers.Length - shared.value;
      && (r == Applied || r == Failed(NoPublisher))
      && (r == Failed(NoPublisher) <==> exists i: nat ::
        i < layers.Length && Orphan(old(layers[i]), declared, first, i))
      && (r == Failed(NoPublisher) ==>
          exists k: nat :: k < layers.Length && Orphan(old(layers[k]), declared, first, k) &&
            forall i: nat :: i < layers.Length ==>
              && (i < k ==> !Orphan(old(layers[i]), declared, first, i))
              && layers[i] == if i < k then Assigned(old(layers[i]), declared, layers.Length, first, i)
                else old(layers[i]))
      && (r == Applied ==> forall i: nat :: i < layers.Length ==>
            layers[i] == Assigned(old(layers[i]), declared, layers.Length, first, i))
  {
    if shared.None? || shared.value <= 0 { return Applied; }
    var n := layers.Length;
    if shared.value >= n { return Failed(SharingCoversStack); }
    var first := n - shared.value;
    var hasSliding, hasFull := Survey(declared, n);
    var hasVariants := hasSliding && hasFull;
    var lastSliding, lastFull := LastUnshared(declared, first);
    hide KindOf, LastOf, HasKind;
    for layer := 0 to n
      invariant forall k: nat :: k < layer ==> layers[k] == Assigned(old(layers[k]), declared, n, first, k)
      invariant forall k: nat :: layer <= k < n ==> layers[k] == old(layers[k])
      invariant forall k: nat :: k < layer ==> !Orphan(old(layers[k]), declared, first, k)
    {
      if layers[layer].Attention? {
        var kind := KindOf(declared, layer);
        if kind == FullCausal || kind == SlidingWindow {
          var group := if hasVariants then (if kind == SlidingWindow then 1 else 0) else 0;
          var publisher := if kind == SlidingWindow then lastSliding else lastFull;
          if layer >= first {
            if publisher.None? {
              assert Orphan(old(layers[layer]), declared, first, layer);
              return Failed(NoPublisher);
            }
            layers[layer] := layers[layer].(sharing := Consumer(group), keyNorm := None, valueNorm := None);
          } else if publisher.Some? && layer == publisher.value {
            layers[layer] := layers[layer].(sharing := Publisher(group));
          }
        }
      }
    }
    r := Applied;
  }

  // ----- what sharing is for

  predicate AllPrivate(layers: seq<Layer>) {
    forall i :: 0 <= i < |layers| ==> layers[i].Attention? ==> layers[i].sharing.PrivateKv?
  }

  predicate IsAssigned(before: seq<Layer>, after: seq<Layer>, declared: map<nat, Kind>, first: nat) {
    |after| == |before| && first <= |before| && forall i :: 0 <= i < |before| ==>
      after[i] == Assigned(before[i], declared, |before|, first, i)
  }

  predicate Consumes(layers: seq<Layer>, i: nat, group: int) {
    i < |layers| && layers[i].Attention? && layers[i].sharing == Consumer(group)
  }

  predicate Publishes(layers: seq<Layer>, i: nat, group: int) {
    i < |layers| && layers[i].Attention? && layers[i].sharing == Publisher(group)
  }

  /** The kinds with two groups apart, or one kind only: a group number names one kind. */
  lemma GroupNamesKind(declared: map<nat, Kind>, n: nat, i: nat, j: nat)
    requires i < n && j < n && KindOf(declared, i) != NoPattern && KindOf(declared, j) != NoPattern
    requires GroupFor(declared, n, KindOf(declared, i)) == GroupFor(declared, n, KindOf(declared, j))
    ensures KindOf(declared, i) == KindOf(declared, j)
  {
    hide KindOf;
    assert HasKind(declared, n, KindOf(declared, i)) && HasKind(declared, n, KindOf(declared, j));
  }

  /** Every consumer reads the one publisher of its group: an unshared layer of its own
      kind, and the last one of that kind; and it keeps no norm of its own. */
  ghost predicate WellShared(after: seq<Layer>, declared: map<nat, Kind>, first: nat) {
    forall c: nat, g: int :: Consumes(after, c, g) ==>
      && c >= first && after[c].keyNorm.None? && after[c].valueNorm.None?
      && exists p: nat :: IsPublisherOf(after, declared, first, c, g, p)
  }

  ghost predicate IsPublisherOf(after: seq<Layer>, declared: map<nat, Kind>, first: nat, c: nat, g: int, p: nat) {
    && Publishes(after, p, g) && p < first && KindOf(declared, p) == KindOf(declared, c)
    && (forall q: nat :: Publishes(after, q, g) ==> q == p)
    && forall q: nat :: p < q < first ==> KindOf(declared, q) != KindOf(declared, c)
  }

  /** The last unshared layer of every consuming kind attends. */
  predicate PublishersAttend(before: seq<Layer>, declared: map<nat, Kind>, first: nat) {
    forall i :: first <= i < |before| && Shares(before[i], KindOf(declared, i)) ==>
      PublisherAttends(before, declared, first, i)
  }

  predicate PublisherAttends(before: seq<Layer>, declared: map<nat, Kind>, first: nat, i: nat) {
    var p := LastOf(declared, first, KindOf(declared, i));
    p.Some? && p.value < |before| && before[p.value].Attention?
  }

  lemma ConsumerIs(before: seq<Layer>, after: seq<Layer>, declared: map<nat, Kind>, first: nat, c: nat)
    requires AllPrivate(before) && IsAssigned(before, after, declared, first) && c < |before|
    ensures (exists g :: Consumes(after, c, g)) <==> c >= first && Shares(before[c], KindOf(declared, c))
    ensures forall g :: Consumes(after, c, g) ==>
      g == GroupFor(declared, |before|, KindOf(declared, c)) && after[c].keyNorm.None? && after[c].valueNorm.None?
    ensures c >= first && Shares(before[c], KindOf(declared, c)) ==>
      Consumes(after, c, GroupFor(declared, |before|, KindOf(declared, c)))
  {
    hide KindOf, LastOf, GroupFor;
    assert after[c] == Assigned(before[c], declared, |before|, first, c);
    if c >= first && Shares(before[c], KindOf(declared, c)) {
      assert Consumes(after, c, GroupFor(declared, |before|, KindOf(declared, c)));
    }
  }

  lemma PublisherIs(before: seq<Layer>, after: seq<Layer>, declared: map<nat, Kind>, first: nat, p: nat)
    requires AllPrivate(before) && IsAssigned(before, after, declared, first) && p < |before|
    ensures forall g :: Publishes(after, p, g) <==>
      && p < first && Shares(before[p], KindOf(declared, p)) && LastOf(declared, first, KindOf(declared, p)) == Some(p)
      && g == GroupFor(declared, |before|, KindOf(declared, p))
  {
    hide KindOf, LastOf, GroupFor;
    assert after[p] == Assigned(before[p], declared, |before|, first, p);
  }

  lemma PublisherServes(before: seq<Layer>, after: seq<Layer>, declared: map<nat, Kind>, first: nat, c: nat, g: int)
    requires AllPrivate(before) && IsAssigned(before, after, declared, first)
    requires Consumes(after, c, g) && PublisherAttends(before, declared, first, c)
    ensures IsPublisherOf(after, declared, first, c, g, LastOf(declared, first, KindOf(declared, c)).value)
  {
    hide KindOf, LastOf, GroupFor;
    ConsumerIs(before, after, declared, first, c);
    var p := LastOf(declared, first, KindOf(declared, c)).value;
    PublisherIs(before, after, declared, first, p);
    forall q: nat | Publishes(after, q, g) ensures q == p {
      PublisherIs(before, after, declared, first, q);
      GroupNamesKind(declared, |before|, q, c);
    }
  }

  /** Sharing is well formed exactly when the last unshared layer of every consuming kind
      attends.  A mixer of another sort counts as fully causal by default, and as such can
      stand where the publisher should be. */
  lemma WellSharedIff(before: seq<Layer>, after: seq<Layer>, declared: map<nat, Kind>, first: nat)
    requires AllPrivate(before) && IsAssigned(before, after, declared, first)
    ensures WellShared(after, declared, first) <==> PublishersAttend(before, declared, first)
  {
    hide KindOf, LastOf, GroupFor, IsAssigned, IsPublisherOf;
    AssignedLength(before, after, declared, first);
    if PublishersAttend(before, declared, first) {
      forall c: nat, g: int | Consumes(after, c, g)
        ensures c >= first && after[c].keyNorm.None? && after[c].valueNorm.None?
        ensures exists p: nat :: IsPublisherOf(after, declared, first, c, g, p)
      {
        ConsumerIs(before, after, declared, first, c);
        assert Shares(before[c], KindOf(declared, c));
        PublisherServes(before, after, declared, first, c, g);
      }
    }
    if WellShared(after, declared, first) {
      forall i | first <= i < |before| && Shares(before[i], KindOf(declared, i))
        ensures PublisherAttends(before, declared, first, i)
      {
        ConsumerIs(before, after, declared, first, i);
        var g := GroupFor(declared, |before|, KindOf(declared, i));
        var p: nat :| IsPublisherOf(after, declared, first, i, g, p);
        ServedAttends(before, after, declared, first, i, g, p);
      }
    }
  }

  lemma AssignedLength(before: seq<Layer>, after: seq<Layer>, declared: map<nat, Kind>, first: nat)
    requires IsAssigned(before, after, declared, first)
    ensures |after| == |before|
  {
  }

  lemma ServedAttends(before: seq<Layer>, after: seq<Layer>, declared: map<nat, Kind>, first: nat, c: nat, g: int,
                      p: nat)
    requires AllPrivate(before) && IsAssigned(before, after, declared, first)
    requires IsPublisherOf(after, declared, first, c, g, p)
    ensures PublisherAttends(before, declared, first, c)
  {
    hide KindOf, LastOf, GroupFor;
    PublisherIs(before, after, declared, first, p);
  }

  predicate KindsAttend(layers: seq<Layer>, declared: map<nat, Kind>) {
    forall i :: 0 <= i < |layers| && KindOf(declared, i) != NoPattern ==> layers[i].Attention?
  }

  /** Where every causal or windowed layer is an attention layer, success is enough. */
  lemma AttentionOnlyIsWellShared(before: seq<Layer>, after: seq<Layer>, declared: map<nat, Kind>, first: nat)
    requires AllPrivate(before) && IsAssigned(before, after, declared, first)
    requires KindsAttend(before, declared)
    requires forall i :: 0 <= i < |before| ==> !Orphan(before[i], declared, first, i)
    ensures WellShared(after, declared, first)
  {
    hide KindOf, LastOf, IsAssigned;
    AssignedFirst(before, after, declared, first);
    forall i | first <= i < |before| && Shares(before[i], KindOf(declared, i))
      ensures PublisherAttends(before, declared, first, i)
    {
      assert !Orphan(before[i], declared, first, i);
    }
    WellSharedIff(before, after, declared, first);
  }

  lemma AssignedFirst(before: seq<Layer>, after: seq<Layer>, declared: map<nat, Kind>, first: nat)
    requires IsAssigned(before, after, declared, first)
    ensures first <= |before|
  {
  }

  /** Both passes in order: a consumer and its publisher end with the same attention
      pattern, window included. */
  method InferSharing(layers: array<Layer>, declared: map<nat, Kind>, window: Option<int>, shared: Option<int>)
    returns (r: Outcome)
    requires AllPrivate(layers[..])
    modifies layers
    ensures r.Applied? && shared.Some? && shared.value > 0 && KindsAttend(old(layers[..]), declared) ==>
      var first := layers.Length - shared.value;
      && first > 0 && WellShared(layers[..], declared, first)
      && forall c: nat, g: int, p: nat :: Consumes(layers[..], c, g) && Publishes(layers[..], p, g) ==>
           SamePattern(layers[..], c, p)
  {
    hide KindOf, LastOf, GroupFor;
    r := ApplyAttentionPatterns(layers, declared, window);
    if r.Failed? { return; }
    ghost var patterned := layers[..];
    assert AllPrivate(patterned);
    assert forall i: nat :: i < |patterned| && NeedsWindow(patterned[i], KindOf(declared, i)) ==> window.Some?;
    r := ApplyKvSharing(layers, declared, shared);
    if r.Applied? && shared.Some? && shared.value > 0 {
      ghost var first := layers.Length - shared.value;
      assert IsAssigned(patterned, layers[..], declared, first);
      if KindsAttend(old(layers[..]), declared) {
        AttentionOnlyIsWellShared(patterned, layers[..], declared, first);
        forall c: nat, g: int, p: nat | Consumes(layers[..], c, g) && Publishes(layers[..], p, g)
          ensures SamePattern(layers[..], c, p)
        {
          ConsumerIs(patterned, layers[..], declared, first, c);
          PublisherIs(patterned, layers[..], declared, first, p);
          GroupNamesKind(declared, layers.Length, p, c);
        }
      }
    }
  }

  predicate SamePattern(layers: seq<Layer>, c: nat, p: nat) {
    && c < |layers| && p < |layers| && layers[c].Attention? && layers[p].Attention?
    && layers[c].pattern == layers[p].pattern
  }

  /** A convolution between the last unshared attention layer and the shared ones takes the
      publisher's place: the consumer is left without one, and this pass does not fail. */
  lemma ConvolutionHidesPublisher()
    ensures var before := [Attention(FullCausalPattern, PrivateKv, None, None), OtherMixer,
                           Attention(FullCausalPattern, PrivateKv, None, None)];
      forall after :: IsAssigned(before, after, map[], 2) ==>
        !Orphan(before[2], map[], 2, 2) && !WellShared(after, map[], 2)
  {
    var before := [Attention(FullCausalPattern, PrivateKv, None, None), OtherMixer,
                   Attention(FullCausalPattern, PrivateKv, None, None)];
    assert LastOf(map[], 2, FullCausal) == Some(1);
    assert KindOf(map[], 2) == FullCausal;
    forall after | IsAssigned(before, after, map[], 2) ensures !WellShared(after, map[], 2) {
      WellSharedIff(before, after, map[], 2);
      assert Shares(before[2], KindOf(map[], 2)) && !PublisherAttends(before, map[], 2, 2);
    }
  }

  // ----- the later check of the compiled program

  /** One publisher for each group, before every consumer of the group. */
  ghost predicate SharingAccepted(layers: seq<Layer>) {
    && (forall p: nat, g: int :: Publishes(layers, p, g) ==>
      g >= 0 && forall q: nat :: Publishes(layers, q, g) ==> q == p)
    && forall c: nat, g: int :: Consumes(layers, c, g) ==> g >= 0 && exists p: nat :: p < c && Publishes(layers, p, g)
  }

  /** The groups part of `validate_shared_attention_contracts`. */
  method ValidateSharing(layers: seq<Layer>) returns (ok: bool)
    ensures ok <==> SharingAccepted(layers)
  {
    var published: set<int> := {};
    for i := 0 to |layers|
      invariant forall g: int :: g in published <==> exists p: nat :: p < i && Publishes(layers, p, g)
      invariant forall p: nat, g: int :: p < i && Publishes(layers, p, g) ==>
        g >= 0 && forall q: nat :: q < i && Publishes(layers, q, g) ==> q == p
      invariant forall c: nat, g: int :: c < i && Consumes(layers, c, g) ==>
        g >= 0 && exists p: nat :: p < c && Publishes(layers, p, g)
    {
      if layers[i].Attention? {
        match layers[i].sharing
        case Publisher(g) =>
          assert Publishes(layers, i, g);
          if g < 0 || g in published { return false; }
          published := published + {g};
        case Consumer(g) =>
          assert Consumes(layers, i, g);
          if g < 0 || g !in published { return false; }
        case PrivateKv =>
      }
    }
    ok := true;
  }

  /** After sharing, that check accepts exactly the well-shared graphs: it is where a
      consumer left without a publisher is found. */
  lemma AcceptedIffWellShared(before: seq<Layer>, after: seq<Layer>, declared: map<nat, Kind>, first: nat)
    requires AllPrivate(before) && IsAssigned(before, after, declared, first)
    ensures SharingAccepted(after) <==> WellShared(after, declared, first)
  {
    hide KindOf, LastOf, GroupFor, IsAssigned;
    AssignedLength(before, after, declared, first);
    if SharingAccepted(after) {
      forall i | first <= i < |before| && Shares(before[i], KindOf(declared, i))
        ensures PublisherAttends(before, declared, first, i)
      {
        ConsumerIs(before, after, declared, first, i);
        var g := GroupFor(declared, |before|, KindOf(declared, i));
        assert Consumes(after, i, g);
        var p: nat :| p < i && Publishes(after, p, g);
        PublisherIs(before, after, declared, first, p);
        GroupNamesKind(declared, |before|, p, i);
      }
      WellSharedIff(before, after, declared, first);
    }
    if WellShared(after, declared, first) {
      forall c: nat, g: int | Consumes(after, c, g) ensures g >= 0 && exists p: nat :: p < c && Publishes(after, p, g) {
        ConsumerIs(before, after, declared, first, c);
        GroupNotNegative(declared, |before|, KindOf(declared, c));
        var p: nat :| IsPublisherOf(after, declared, first, c, g, p);
        assert p < c && Publishes(after, p, g);
      }
      forall p: nat, g: int | Publishes(after, p, g) ensures g >= 0 &&
        forall q: nat :: Publishes(after, q, g) ==> q == p {
        PublisherIs(before, after, declared, first, p);
        GroupNotNegative(declared, |before|, KindOf(declared, p));
        forall q: nat | Publishes(after, q, g) ensures q == p {
          PublisherIs(before, after, declared, first, q);
          GroupNamesKind(declared, |before|, q, p);
        }
      }
    }
  }

  lemma GroupNotNegative(declared: map<nat, Kind>, n: nat, kind: Kind)
    ensures GroupFor(declared, n, kind) >= 0
  {
  }
}
