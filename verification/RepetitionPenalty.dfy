/** What the repetition penalty does to the choice of a token: raising it never helps a token
    that was seen, and never harms one that was not. */
module RepetitionPenalty {
  import opened ReferenceMath
  import opened TokenSampler

  /** A larger penalty never scores a token higher, and leaves tokens not seen alone. */
  lemma LargerPenaltyScoresNoHigher(logits: seq<real>, seen: seq<bool>, p: real, q: real, token: nat)
    requires token < |logits| && token < |seen| && p <= q
    ensures Penalized(logits, seen, q, token) <= Penalized(logits, seen, p, token)
    ensures !seen[token] ==> Penalized(logits, seen, q, token) == Penalized(logits, seen, p, token)
  {
    PenalizedScore(logits, seen, p, token);
    PenalizedScore(logits, seen, q, token);
    if p > 1.0 && seen[token] {
      var x := logits[token];
      if x >= 0.0 { QuotientFalls(x, p, q); } else { assert x * (q - p) <= 0.0; }
    }
  }

  lemma QuotientFalls(x: real, p: real, q: real)
    requires x >= 0.0 && 0.0 < p <= q
    ensures x / q <= x / p
  {
    var a, b := x / p, x / q;
    assert a * p == x && b * q == x;
    assert a >= 0.0 by { Ordered(a, 0.0, p); }
    assert a * (q - p) >= 0.0;
    Ordered(a, b, q);
  }

  /** Raising the penalty never makes the greedy choice leave a token that was not seen, so
      it never makes a seen token the choice where an unseen one was. */
  lemma RaisingKeepsUnseenChoice(logits: seq<real>, seen: seq<bool>, p: real, q: real, vocab: nat, a: nat, b: nat)
    requires Readable(logits, seen, vocab) && p <= q
    requires FirstBest(logits, seen, p, vocab, a) && FirstBest(logits, seen, q, vocab, b) && !seen[a]
    ensures a == b
  {
    hide Penalized;
    forall t | 0 <= t < vocab
      ensures Penalized(logits, seen, q, t) <= Penalized(logits, seen, p, t)
      ensures !seen[t] ==> Penalized(logits, seen, q, t) == Penalized(logits, seen, p, t)
    {
      LargerPenaltyScoresNoHigher(logits, seen, p, q, t);
    }
    FirstBestUnique(logits, seen, q, vocab, a, b);
  }

  /** A choice that the penalty changes goes from a seen token to one with no larger logit. */
  lemma PenaltyMovesDown(logits: seq<real>, seen: seq<bool>, penalty: real, vocab: nat, plain: nat, chosen: nat)
    requires Readable(logits, seen, vocab) && BestLogit(logits, vocab, plain)
    requires FirstBest(logits, seen, penalty, vocab, chosen) && chosen != plain
    ensures seen[plain] && penalty > 1.0 && logits[plain] != 0.0 && logits[chosen] <= logits[plain]
    ensures Penalized(logits, seen, penalty, plain) <= Penalized(logits, seen, penalty, chosen)
  {
    hide Penalized;
    if Penalized(logits, seen, penalty, plain) == logits[plain] {
      forall t | 0 <= t < vocab ensures Penalized(logits, seen, penalty, t) <= logits[t] {
        PenalizedScore(logits, seen, penalty, t);
      }
      FirstBestUnique(logits, seen, penalty, vocab, plain, chosen);
      assert false;
    }
    PenalizedScore(logits, seen, penalty, plain);
  }

  // ----- the candidates that selection keeps

  /** A candidate's score is its penalized logit divided by the temperature. */
  lemma TemperatureScales(logits: seq<real>, seen: seq<bool>, cfg: Config, token: nat)
    requires token < |logits| && token < |seen| && cfg.temperature > 0.0
    ensures var c := CandidateAt(logits, seen, cfg, token);
      c.token == token && c.score * cfg.temperature == Penalized(logits, seen, cfg.repetitionPenalty, token)
  {
  }

  function Beating(all: seq<Candidate>, c: Candidate): set<Candidate> { set a | a in all && Better(a, c) }

  function Upto(top: seq<Candidate>, n: nat): set<Candidate>
    requires n <= |top|
  {
    set i | 0 <= i < n :: top[i]
  }

  lemma {:induction false} UptoCounts(all: seq<Candidate>, top: seq<Candidate>, n: nat)
    requires Tokenized(all) && IsTop(all, top) && n <= |top|
    ensures |Upto(top, n)| == n
  {
    if n > 0 {
      UptoCounts(all, top, n - 1);
      var last := top[n - 1];
      forall i | 0 <= i < n - 1 ensures top[i] != last { assert Better(top[i], top[n - 1]); }
      assert Upto(top, n) == Upto(top, n - 1) + {last};
    } else {
      assert Upto(top, n) == {};
    }
  }

  /** A candidate is among the best `k` exactly when fewer than `k` beat it. */
  lemma TopIffFewBeat(all: seq<Candidate>, top: seq<Candidate>, c: Candidate)
    requires Tokenized(all) && IsTop(all, top) && c in all
    ensures c in top <==> |Beating(all, c)| < |top|
  {
    UptoCounts(all, top, |top|);
    if i :| 0 <= i < |top| && top[i] == c {
      BeatenByEarlier(all, top, i);
      UptoCounts(all, top, i);
      Cardinality(Beating(all, c), Upto(top, i));
    } else {
      assert Upto(top, |top|) <= Beating(all, c);
      Cardinality(Upto(top, |top|), Beating(all, c));
    }
  }

  lemma BeatenByEarlier(all: seq<Candidate>, top: seq<Candidate>, i: nat)
    requires Tokenized(all) && IsTop(all, top) && i < |top|
    ensures Beating(all, top[i]) <= Upto(top, i)
  {
    forall a | a in Beating(all, top[i]) ensures a in Upto(top, i) {
      OneOrTheOther(all, a, top[i]);
      if a in top {
        var j :| 0 <= j < |top| && top[j] == a;
        InOrder(all, top, i, j);
      }
    }
  }

  lemma {:induction false} Cardinality(a: set<Candidate>, b: set<Candidate>)
    requires a <= b
    ensures |a| <= |b|
    decreases a
  {
    if a != {} {
      var x :| x in a;
      Cardinality(a - {x}, b - {x});
    }
  }

  function Raised(cfg: Config, penalty: real): Config { cfg.(repetitionPenalty := penalty) }

  lemma FewerBeatUnseen(logits: seq<real>, seen: seq<bool>, cfg: Config, penalty: real, vocab: nat, token: nat)
    requires Readable(logits, seen, vocab) && cfg.temperature > 0.0 && cfg.repetitionPenalty <= penalty
    requires token < vocab && !seen[token]
    ensures var all := AllCandidates(logits, seen, cfg, vocab);
      var all' := AllCandidates(logits, seen, Raised(cfg, penalty), vocab);
      all'[token] == all[token] && |Beating(all', all'[token])| <= |Beating(all, all[token])|
  {
    hide Penalized;
    var all := AllCandidates(logits, seen, cfg, vocab);
    var all' := AllCandidates(logits, seen, Raised(cfg, penalty), vocab);
    var before, after := Beating(all, all[token]), Beating(all', all'[token]);
    LargerPenaltyScoresNoHigher(logits, seen, cfg.repetitionPenalty, penalty, token);
    var tokens := set c | c in after :: c.token;
    var same := set c | c in before :: c.token;
    forall t | t in tokens ensures t in same {
      var c :| c in after && c.token == t;
      LargerPenaltyScoresNoHigher(logits, seen, cfg.repetitionPenalty, penalty, t);
      DivideKeepsOrder(Penalized(logits, seen, penalty, t), Penalized(logits, seen, cfg.repetitionPenalty, t),
                       cfg.temperature);
      assert all'[t] == c && all[t] in all && Better(all[t], all[token]);
      assert all[t] in before;
    }
    TokensCount(all', after, tokens);
    TokensCount(all, before, same);
    Subset(tokens, same);
  }

  lemma {:induction false} Subset(a: set<nat>, b: set<nat>)
    requires a <= b
    ensures |a| <= |b|
    decreases a
  {
    if a != {} {
      var x :| x in a;
      Subset(a - {x}, b - {x});
    }
  }

  lemma {:induction false} TokensCount(all: seq<Candidate>, cs: set<Candidate>, tokens: set<nat>)
    requires Tokenized(all) && (forall c :: c in cs ==> c in all) && tokens == set c | c in cs :: c.token
    ensures |tokens| == |cs|
    decreases cs
  {
    if cs != {} {
      var c :| c in cs;
      var rest := cs - {c};
      assert tokens - {c.token} == set d | d in rest :: d.token;
      TokensCount(all, rest, tokens - {c.token});
    }
  }

  /** Sampling with a larger penalty: a token not seen that was among the candidates stays
      among them, with the same score. */
  lemma UnseenStaysCandidate(logits: seq<real>, seen: seq<bool>, cfg: Config, penalty: real, vocab: nat,
                             top: seq<Candidate>, top': seq<Candidate>, c: Candidate)
    requires Readable(logits, seen, vocab) && cfg.temperature > 0.0 && cfg.repetitionPenalty <= penalty
    requires IsTop(AllCandidates(logits, seen, cfg, vocab), top) && |top| == |top'|
    requires IsTop(AllCandidates(logits, seen, Raised(cfg, penalty), vocab), top')
    requires c in top && c.token < |seen| && !seen[c.token]
    ensures c in top'
  {
    var all := AllCandidates(logits, seen, cfg, vocab);
    var all' := AllCandidates(logits, seen, Raised(cfg, penalty), vocab);
    assert c in all && all[c.token] == c;
    FewerBeatUnseen(logits, seen, cfg, penalty, vocab, c.token);
    assert all'[c.token] == c;
    hide AllCandidates, IsTop, Beating;
    TopIffFewBeat(all, top, c);
    TopIffFewBeat(all', top', c);
  }
}
