/** Which attention patterns the prefix cache is transparent for.  The engine here records,
    for every position, the tokens it has attended to: a batched prefill lets a position
    attend to whatever the pattern allows it of the whole prompt, one token evaluated alone
    leaves the positions before it as they are. */
module PatternCache {
  import LatentAttention
  import opened MetalService
  import opened MetalSession
  import opened ReferenceMath
  import opened ServiceRefinement

  type Pattern = LatentAttention.Pattern

  /** `seen[i]` is what position `i` has attended to. */
  datatype Views = Views(tokens: seq<Token>, seen: seq<seq<Token>>)

  /** The tokens among the first `n` that position `i` may attend to. */
  function Seen(pattern: Pattern, tokens: seq<Token>, i: nat, n: nat): seq<Token>
    requires LatentAttention.Defined(pattern) && n <= |tokens|
  {
    if n == 0 then []
    else Seen(pattern, tokens, i, n - 1) + if LatentAttention.Allowed(pattern, i, n - 1) then [tokens[n - 1]] else []
  }

  function Batched(pattern: Pattern, tokens: seq<Token>): Views
    requires LatentAttention.Defined(pattern)
  {
    Views(tokens, seq(|tokens|, i requires 0 <= i < |tokens| => Seen(pattern, tokens, i, |tokens|)))
  }

  function OneMore(pattern: Pattern, v: Views, t: Token): Views
    requires LatentAttention.Defined(pattern)
  {
    var tokens := v.tokens + [t];
    Views(tokens, v.seen + [Seen(pattern, tokens, |v.tokens|, |tokens|)])
  }

  /** An engine of one layer of the pattern. */
  function PatternEngine(pattern: Pattern, vocab: nat, maxContext: nat, minPrompt: nat,
                         sample: (Views, GenerationConfig, nat) -> (Token, nat)): Engine<Views>
    requires LatentAttention.Defined(pattern)
  {
    Engine(vocab, maxContext, minPrompt, Views([], []), tokens => Batched(pattern, tokens),
           (v, t) => OneMore(pattern, v, t), sample)
  }

  lemma {:induction false} SeenOfPrefix(pattern: Pattern, p: seq<Token>, t: Token, i: nat, n: nat)
    requires LatentAttention.Defined(pattern) && n <= |p|
    ensures Seen(pattern, p + [t], i, n) == Seen(pattern, p, i, n)
  {
    if n > 0 { SeenOfPrefix(pattern, p, t, i, n - 1); }
  }

  /** The longer prefill differs from the evaluated token exactly where a position before it
      may attend to it. */
  lemma PrefillVersusEval(pattern: Pattern, p: seq<Token>, t: Token)
    requires LatentAttention.Defined(pattern)
    ensures Batched(pattern, p + [t]) == OneMore(pattern, Batched(pattern, p), t)
      <==> forall i: nat :: i < |p| ==> !LatentAttention.Allowed(pattern, i, |p|)
  {
    var n := |p|;
    var whole, one := Batched(pattern, p + [t]), OneMore(pattern, Batched(pattern, p), t);
    assert one.tokens == whole.tokens && |one.seen| == |whole.seen| == n + 1 && one.seen[n] == whole.seen[n];
    forall i: nat | i < n
      ensures whole.seen[i] == one.seen[i] <==> !LatentAttention.Allowed(pattern, i, n)
    {
      SeenOfPrefix(pattern, p, t, i, n);
      assert whole.seen[i] == one.seen[i] + if LatentAttention.Allowed(pattern, i, n) then [t] else [];
    }
    hide LatentAttention.Allowed;
    if forall i: nat :: i < n ==> !LatentAttention.Allowed(pattern, i, n) {
      forall i | 0 <= i <= n ensures whole.seen[i] == one.seen[i] { }
      assert whole.seen == one.seen;
    }
  }

  /** No prompt the engine can extend has a position that may attend to the token after it. */
  ghost predicate NeverAhead(pattern: Pattern, vocab: nat, maxContext: nat, minPrompt: nat)
    requires LatentAttention.Defined(pattern)
  {
    vocab > 0 ==> forall n: nat, i: nat :: i < n && minPrompt <= n < maxContext ==>
      !LatentAttention.Allowed(pattern, i, n)
  }

  lemma IncrementalIffNeverAhead(pattern: Pattern, vocab: nat, maxContext: nat, minPrompt: nat,
                                 sample: (Views, GenerationConfig, nat) -> (Token, nat))
    requires LatentAttention.Defined(pattern)
    ensures Incremental(PatternEngine(pattern, vocab, maxContext, minPrompt, sample))
      <==> NeverAhead(pattern, vocab, maxContext, minPrompt)
  {
    var e := PatternEngine(pattern, vocab, maxContext, minPrompt, sample);
    hide LatentAttention.Allowed, Batched, OneMore;
    if NeverAhead(pattern, vocab, maxContext, minPrompt) {
      forall p: seq<Token>, t: Token | Extendable(e, p) && InVocab(e, t)
        ensures e.prefill(p + [t]) == e.eval(e.prefill(p), t)
      {
        PrefillVersusEval(pattern, p, t);
      }
    } else {
      var n: nat, i: nat :| i < n && minPrompt <= n < maxContext && LatentAttention.Allowed(pattern, i, n);
      var p := seq(n, _ => 0);
      PrefillVersusEval(pattern, p, 0);
      assert Extendable(e, p) && InVocab(e, 0);
      assert e.prefill(p + [0]) != e.eval(e.prefill(p), 0);
    }
  }

  /** Causal and windowed attention never look ahead, prefix attention exactly while a prompt
      may be shorter than the prefix, and bidirectional attention whenever there is a next
      token. */
  lemma WhichPatternsLookAhead(vocab: nat, maxContext: nat, minPrompt: nat, length: int)
    requires vocab > 0
    ensures NeverAhead(LatentAttention.FullCausal, vocab, maxContext, minPrompt)
    ensures NeverAhead(LatentAttention.SlidingWindow(length), vocab, maxContext, minPrompt)
    ensures var first := if minPrompt == 0 then 1 else minPrompt;
      && (NeverAhead(LatentAttention.PrefixLm(length), vocab, maxContext, minPrompt)
          <==> first >= length || first >= maxContext)
      && (NeverAhead(LatentAttention.Bidirectional, vocab, maxContext, minPrompt) <==> first >= maxContext)
  {
    var first := if minPrompt == 0 then 1 else minPrompt;
    if first < maxContext {
      assert LatentAttention.Allowed(LatentAttention.Bidirectional, 0, first);
      if first < length { assert LatentAttention.Allowed(LatentAttention.PrefixLm(length), 0, first); }
    }
  }

  /** A position sees a later one of the block patterns only within its block; the position
      before `n` is in another block exactly when `n` starts one. */
  lemma SameBlockOnly(i: nat, n: nat, size: int)
    requires size > 0 && i < n
    ensures LatentAttention.Block(n, size) <= LatentAttention.Block(i, size) ==>
      LatentAttention.Block(i, size) == LatentAttention.Block(n - 1, size) == LatentAttention.Block(n, size)
    ensures LatentAttention.Block(n - 1, size) == LatentAttention.Block(n, size) <==> n % size != 0
  {
    LatentAttention.BlockMonotone(i, n - 1, size);
    LatentAttention.BlockMonotone(n - 1, n, size);
    NextBlock(n, size);
  }

  lemma NextBlock(n: nat, size: int)
    requires size > 0 && n > 0
    ensures (n - 1) / size == n / size <==> n % size != 0
  {
    PreviousBlock(n, size, n / size, n % size);
  }

  lemma PreviousBlock(n: nat, size: int, q: int, r: int)
    requires size > 0 && 0 <= r < size && n == q * size + r
    ensures (n - 1) / size == if r > 0 then q else q - 1
  {
    if r > 0 {
      Quotient(n - 1, size, q, r - 1);
    } else {
      OneLess(q, size);
      Quotient(n - 1, size, q - 1, size - 1);
    }
  }

  lemma OneLess(q: int, size: int)
    ensures (q - 1) * size == q * size - size
  {
  }

  /** The block patterns look ahead within a block: they never do exactly when every length
      that can be extended ends a block or, block-sparse, when its block is neither local nor
      global. */
  lemma WhichBlocksLookAhead(vocab: nat, maxContext: nat, minPrompt: nat, size: int, local: int, global: int)
    requires vocab > 0 && size > 0
    ensures NeverAhead(LatentAttention.DynamicSparse(size, global), vocab, maxContext, minPrompt)
      <==> forall n: nat :: minPrompt <= n < maxContext ==> n % size == 0
    ensures NeverAhead(LatentAttention.BlockSparse(size, local, global), vocab, maxContext, minPrompt)
      <==> forall n: nat :: minPrompt <= n < maxContext ==>
        n % size == 0 || (local <= 0 && LatentAttention.Block(n, size) >= global)
  {
    forall n: nat, i: nat | i < n
      ensures LatentAttention.Allowed(LatentAttention.DynamicSparse(size, global), i, n) ==> n % size != 0
      ensures LatentAttention.Allowed(LatentAttention.BlockSparse(size, local, global), i, n) ==>
        n % size != 0 && (local > 0 || LatentAttention.Block(n, size) < global)
    {
      SameBlockOnly(i, n, size);
    }
    forall n: nat | n % size != 0
      ensures n > 0 && LatentAttention.Allowed(LatentAttention.DynamicSparse(size, global), n - 1, n)
      ensures LatentAttention.Allowed(LatentAttention.BlockSparse(size, local, global), n - 1, n)
        <==> local > 0 || LatentAttention.Block(n, size) < global
    {
      SameBlockOnly(n - 1, n, size);
    }
    hide LatentAttention.Allowed, LatentAttention.Block;
  }

  /** With bidirectional attention some run of a service with a prefix cache holds a
      snapshot that the request alone would not reach. */
  lemma BidirectionalIsNotTransparent(vocab: nat, maxContext: nat, cacheEntries: nat,
                                      sample: (Views, GenerationConfig, nat) -> (Token, nat))
    requires vocab > 0 && maxContext >= 2 && cacheEntries > 0
    ensures !SnapshotsAreSolo(Deployment(PatternEngine(LatentAttention.Bidirectional, vocab, maxContext, 0, sample),
      true, cacheEntries))
  {
    var pattern := LatentAttention.Bidirectional;
    var d := Deployment(PatternEngine(pattern, vocab, maxContext, 0, sample), true, cacheEntries);
    hide NeverAhead, Incremental, SnapshotsAreSolo, PatternEngine;
    WhichPatternsLookAhead(vocab, maxContext, 0, 0);
    IncrementalIffNeverAhead(pattern, vocab, maxContext, 0, sample);
    CacheTransparentIffIncremental(d);
  }
}
