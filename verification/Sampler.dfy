/** Choosing the next token: greedy search, or selection of the best `topK` candidates,
    truncation to the nucleus and an inverse-distribution draw.  Scores and probabilities
    are reals; the exponential is any positive function. */
module TokenSampler {
  import MetalSession
  import opened Random
  import opened ReferenceMath

  type Config = MetalSession.GenerationConfig

  datatype Candidate = Candidate(token: nat, score: real)

  // ----- scores

  predicate Readable(logits: seq<real>, seen: seq<bool>, vocab: nat) {
    0 < vocab <= |logits| && vocab <= |seen|
  }

  function Penalized(logits: seq<real>, seen: seq<bool>, penalty: real, token: nat): real
    requires token < |logits| && token < |seen|
  {
    if seen[token] && penalty > 1.0 then
      if logits[token] >= 0.0 then logits[token] / penalty else logits[token] * penalty
    else logits[token]
  }

  /** A token not seen yet keeps its logit, and so does every token unless the penalty is
      above one; otherwise a token loses: it keeps its sign, and score and logit differ by
      the factor of the penalty, whichever has the larger magnitude. */
  lemma PenalizedScore(logits: seq<real>, seen: seq<bool>, penalty: real, token: nat)
    requires token < |logits| && token < |seen|
    ensures var score := Penalized(logits, seen, penalty, token); var logit := logits[token];
      && (!seen[token] || penalty <= 1.0 || logit == 0.0 ==> score == logit)
      && (seen[token] && penalty > 1.0 && logit > 0.0 ==> 0.0 < score < logit && score * penalty == logit)
      && (seen[token] && penalty > 1.0 && logit < 0.0 ==> score < logit && score == logit * penalty)
      && score <= logit
  {
    var logit := logits[token];
    if seen[token] && penalty > 1.0 {
      Divided(logit, penalty);
      if logit < 0.0 { assert logit * (penalty - 1.0) < 0.0; }
    }
  }

  lemma Divided(x: real, p: real)
    requires p > 1.0
    ensures (x / p) * p == x && (x > 0.0 ==> 0.0 < x / p < x) && (x == 0.0 ==> x / p == 0.0)
  {
    var y := x / p;
    assert y * p == x;
    if x > 0.0 {
      Ordered(0.0, y, p);
      assert y * p > 0.0 * p;
      Ordered(1.0, p, y);
    }
  }

  predicate Better(a: Candidate, b: Candidate) {
    if a.score == b.score then a.token < b.token else a.score > b.score
  }

  /** `top` lists, best first, candidates that beat all the others. */
  ghost predicate IsTop(all: seq<Candidate>, top: seq<Candidate>) {
    && (forall i, j :: 0 <= i < j < |top| ==> Better(top[i], top[j]))
    && (forall i :: 0 <= i < |top| ==> top[i] in all)
    && forall i, c :: 0 <= i < |top| && c in all && c !in top ==> Better(top[i], c)
  }

  predicate Tokenized(all: seq<Candidate>) {
    forall i :: 0 <= i < |all| ==> all[i].token == i
  }

  lemma OneOrTheOther(all: seq<Candidate>, a: Candidate, b: Candidate)
    requires Tokenized(all) && a in all && b in all && a != b
    ensures Better(a, b) <==> !Better(b, a)
  {
  }

  /** The best `k` candidates, best first, are determined. */
  lemma TopUnique(all: seq<Candidate>, p: seq<Candidate>, q: seq<Candidate>)
    requires Tokenized(all) && IsTop(all, p) && IsTop(all, q) && |p| == |q|
    ensures p == q
  {
    SamePrefix(all, p, q, |p|);
    assert p[..|p|] == p && q[..|q|] == q;
  }

  lemma {:induction false} SamePrefix(all: seq<Candidate>, p: seq<Candidate>, q: seq<Candidate>, n: nat)
    requires Tokenized(all) && IsTop(all, p) && IsTop(all, q) && n <= |p| && n <= |q|
    ensures p[..n] == q[..n]
  {
    if n > 0 {
      SamePrefix(all, p, q, n - 1);
      var i := n - 1;
      if p[i] != q[i] {
        OneOrTheOther(all, p[i], q[i]);
        if Better(p[i], q[i]) { NotPassedOver(all, p, q, i); } else { NotPassedOver(all, q, p, i); }
      }
      assert p[..n] == p[..i] + [p[i]] && q[..n] == q[..i] + [q[i]];
    }
  }

  lemma InOrder(all: seq<Candidate>, q: seq<Candidate>, i: nat, j: nat)
    requires IsTop(all, q) && i < |q| && j < |q|
    ensures q[i] in all && (i < j ==> Better(q[i], q[j]))
  {
  }

  lemma Outranks(all: seq<Candidate>, q: seq<Candidate>, i: nat, c: Candidate)
    requires IsTop(all, q) && i < |q| && c in all && c !in q
    ensures Better(q[i], c)
  {
  }

  lemma NotPassedOver(all: seq<Candidate>, p: seq<Candidate>, q: seq<Candidate>, i: nat)
    requires Tokenized(all) && IsTop(all, p) && IsTop(all, q) && i < |p| && i < |q| && p[..i] == q[..i]
    ensures !Better(p[i], q[i])
  {
    hide IsTop;
    InOrder(all, p, i, i);
    if p[i] in q {
      var j :| 0 <= j < |q| && q[j] == p[i];
      InOrder(all, q, i, j);
      if j < i {
        assert p[..i][j] == q[..i][j];
        InOrder(all, p, j, i);
      }
    } else {
      Outranks(all, q, i, p[i]);
    }
  }

  /** Selecting, truncating and sorting gives the start of the full ranking. */
  lemma TopIsPrefixOfRanking(all: seq<Candidate>, ranking: seq<Candidate>, top: seq<Candidate>)
    requires Tokenized(all) && IsTop(all, ranking) && IsTop(all, top) && |top| <= |ranking|
    ensures top == ranking[..|top|]
  {
    SamePrefix(all, ranking, top, |top|);
    assert top[..|top|] == top;
  }

  // ----- selection and sorting in place

  predicate Distinct(s: seq<Candidate>) {
    forall i, j :: 0 <= i < j < |s| ==> s[i].token != s[j].token
  }

  /** The first `k` are in order and better than all the rest. */
  predicate Leading(s: seq<Candidate>, k: nat) {
    forall i, j :: 0 <= i < j < |s| && i < k ==> Better(s[i], s[j])
  }

  predicate BestOf(s: seq<Candidate>, i: nat, best: nat) {
    i <= best < |s| && forall q :: i <= q < |s| && q != best ==> Better(s[best], s[q])
  }

  function Exchanged(s: seq<Candidate>, i: nat, j: nat): seq<Candidate>
    requires i < |s| && j < |s|
  {
    s[i := s[j]][j := s[i]]
  }

  /** `a` in some order that has its best `k` first, themselves in order. */
  method BringForward(a: array<Candidate>, k: nat)
    requires k <= a.Length && Distinct(a[..])
    modifies a
    ensures multiset(a[..]) == multiset(old(a[..])) && Distinct(a[..]) && Leading(a[..], k)
  {
    hide Better, Distinct, Leading, BestOf;
    NothingLeads(a[..]);
    for i := 0 to k
      invariant multiset(a[..]) == multiset(old(a[..])) && Distinct(a[..]) && Leading(a[..], i)
    {
      var best := BestFrom(a, i);
      BestInRange(a[..], i, best);
      ghost var before := a[..];
      a[i], a[best] := a[best], a[i];
      assert a[..] == Exchanged(before, i, best);
      Swapped(before, i, best);
      LeadGrows(before, i, best);
    }
  }

  lemma NothingLeads(s: seq<Candidate>)
    ensures Leading(s, 0)
  {
  }

  lemma BestInRange(s: seq<Candidate>, i: nat, best: nat)
    requires BestOf(s, i, best)
    ensures i <= best < |s|
  {
  }

  lemma LeadGrows(s: seq<Candidate>, i: nat, best: nat)
    requires i < |s| && best < |s| && Leading(s, i) && BestOf(s, i, best)
    ensures Leading(Exchanged(s, i, best), i + 1)
  {
    hide Better;
  }

  method BestFrom(a: array<Candidate>, i: nat) returns (best: nat)
    requires i < a.Length && Distinct(a[..])
    ensures BestOf(a[..], i, best)
  {
    best := i;
    for j := i + 1 to a.Length
      invariant i <= best < j
      invariant forall q :: i <= q < j && q != best ==> Better(a[best], a[q])
    {
      assert a[..][best] == a[best] && a[..][j] == a[j];
      if Better(a[j], a[best]) { best := j; }
    }
  }

  lemma Swapped(s: seq<Candidate>, i: nat, j: nat)
    requires i < |s| && j < |s| && Distinct(s)
    ensures Distinct(Exchanged(s, i, j)) && multiset(Exchanged(s, i, j)) == multiset(s)
  {
  }

  /** `std::nth_element`: what it promises is a partition, in no particular order. */
  method NthElement(a: array<Candidate>, k: nat)
    requires k <= a.Length && Distinct(a[..])
    modifies a
    ensures multiset(a[..]) == multiset(old(a[..])) && Distinct(a[..])
    ensures forall i, j :: 0 <= i < k <= j < a.Length ==> Better(a[i], a[j])
  {
    BringForward(a, k);
    ghost var s := a[..];
    assert forall i, j :: 0 <= i < k <= j < a.Length ==> s[i] == a[i] && s[j] == a[j];
  }

  /** `std::sort`. */
  method Sort(a: array<Candidate>)
    requires Distinct(a[..])
    modifies a
    ensures multiset(a[..]) == multiset(old(a[..]))
    ensures forall i, j :: 0 <= i < j < a.Length ==> Better(a[i], a[j])
  {
    BringForward(a, a.Length);
    ghost var s := a[..];
    assert forall i, j :: 0 <= i < j < a.Length ==> s[i] == a[i] && s[j] == a[j];
  }

  function CandidateAt(logits: seq<real>, seen: seq<bool>, cfg: Config, token: nat): Candidate
    requires token < |logits| && token < |seen| && cfg.temperature > 0.0
  {
    Candidate(token, Penalized(logits, seen, cfg.repetitionPenalty, token) / cfg.temperature)
  }

  function AllCandidates(logits: seq<real>, seen: seq<bool>, cfg: Config, vocab: nat): (all: seq<Candidate>)
    requires Readable(logits, seen, vocab) && cfg.temperature > 0.0
    ensures |all| == vocab && Tokenized(all)
  {
    seq(vocab, token requires 0 <= token < vocab => CandidateAt(logits, seen, cfg, token))
  }

  /** The candidate list after selection, truncation and sorting. */
  method TopCandidates(all: seq<Candidate>, topK: nat) returns (top: seq<Candidate>)
    requires Tokenized(all) && all != []
    ensures |top| == (if topK < |all| then topK else |all|) && IsTop(all, top)
  {
    var candidates := new Candidate[|all|](i requires 0 <= i < |all| => all[i]);
    assert candidates[..] == all;
    if candidates.Length > topK {
      NthElement(candidates, topK);
      ghost var split := candidates[..];
      var kept := new Candidate[topK](
        i requires 0 <= i < topK && i < candidates.Length reads candidates => candidates[i]);
      assert kept[..] == split[..topK];
      Sort(kept);
      TruncatedIsTop(all, split, topK, kept[..]);
      top := kept[..];
    } else {
      Sort(candidates);
      top := candidates[..];
      assert all[..|all|] == all;
      TruncatedIsTop(all, all, |all|, top);
    }
  }

  lemma TruncatedIsTop(all: seq<Candidate>, split: seq<Candidate>, k: nat, top: seq<Candidate>)
    requires k <= |split| && multiset(split) == multiset(all) && multiset(top) == multiset(split[..k])
    requires forall i, j :: 0 <= i < k <= j < |split| ==> Better(split[i], split[j])
    requires forall i, j :: 0 <= i < j < |top| ==> Better(top[i], top[j])
    ensures IsTop(all, top) && |top| == k
  {
    assert |top| == |multiset(top)| && |split[..k]| == |multiset(split[..k])|;
    forall i | 0 <= i < |top| ensures top[i] in split[..k] && top[i] in all {
      assert top[i] in multiset(top);
      assert top[i] in split[..k];
      assert top[i] in split;
      assert top[i] in multiset(all);
    }
    forall q | 0 <= q < k ensures split[q] in top {
      assert split[..k][q] == split[q];
      assert split[q] in multiset(split[..k]);
      assert split[q] in multiset(top);
    }
    forall i, c | 0 <= i < |top| && c in all && c !in top ensures Better(top[i], c) {
      assert c in multiset(split);
      var q :| 0 <= q < |split| && split[q] == c;
      var p :| 0 <= p < k && split[..k][p] == top[i];
      assert Better(split[p], split[q]);
    }
  }

  // ----- greedy search

  ghost predicate FirstBest(logits: seq<real>, seen: seq<bool>, penalty: real, vocab: nat, best: nat)
    requires Readable(logits, seen, vocab)
  {
    && best < vocab
    && (forall t :: 0 <= t < vocab ==> Penalized(logits, seen, penalty, t) <= Penalized(logits, seen, penalty, best))
    && forall t :: 0 <= t < best ==> Penalized(logits, seen, penalty, t) < Penalized(logits, seen, penalty, best)
  }

  /** The first of the largest logits, penalty aside. */
  predicate BestLogit(logits: seq<real>, vocab: nat, best: nat) {
    && best < vocab <= |logits|
    && forall t :: 0 <= t < vocab ==> logits[t] <= logits[best] && (t < best ==> logits[t] < logits[best])
  }

  lemma FirstBestUnique(logits: seq<real>, seen: seq<bool>, penalty: real, vocab: nat, a: nat, b: nat)
    requires Readable(logits, seen, vocab)
    requires FirstBest(logits, seen, penalty, vocab, a) && FirstBest(logits, seen, penalty, vocab, b)
    ensures a == b
  {
    assert Penalized(logits, seen, penalty, a) == Penalized(logits, seen, penalty, b);
    hide Penalized;
  }

  /** The penalty takes nothing from a token not seen yet: the best such token stays best. */
  lemma UnseenBestStays(logits: seq<real>, seen: seq<bool>, penalty: real, vocab: nat, best: nat)
    requires Readable(logits, seen, vocab) && BestLogit(logits, vocab, best) && !seen[best]
    ensures FirstBest(logits, seen, penalty, vocab, best)
  {
    hide Penalized;
    PenalizedScore(logits, seen, penalty, best);
    forall t | 0 <= t < vocab ensures Penalized(logits, seen, penalty, t) <= logits[t] {
      PenalizedScore(logits, seen, penalty, t);
    }
  }

  method Greedy(logits: seq<real>, seen: seq<bool>, penalty: real, vocab: nat) returns (best: nat)
    requires Readable(logits, seen, vocab)
    ensures FirstBest(logits, seen, penalty, vocab, best)
    ensures forall t: nat :: BestLogit(logits, vocab, t) && !seen[t] ==> best == t
  {
    hide Penalized;
    best := 0;
    var bestValue := Penalized(logits, seen, penalty, 0);
    for token := 1 to vocab
      invariant FirstBest(logits, seen, penalty, token, best)
      invariant bestValue == Penalized(logits, seen, penalty, best)
    {
      var value := Penalized(logits, seen, penalty, token);
      if value > bestValue { best, bestValue := token, value; }
    }
    forall t: nat | BestLogit(logits, vocab, t) && !seen[t] ensures best == t {
      UnseenBestStays(logits, seen, penalty, vocab, t);
      FirstBestUnique(logits, seen, penalty, vocab, best, t);
    }
  }

  lemma DivideKeepsOrder(x: real, y: real, t: real)
    requires t > 0.0
    ensures x <= y <==> x / t <= y / t
  {
    if x > y { assert (x - y) / t > 0.0; }
    if x <= y { assert (y - x) / t >= 0.0; }
  }

  /** The shortcut for `topK == 1` picks what selection would have picked. */
  lemma GreedyIsTopOne(logits: seq<real>, seen: seq<bool>, cfg: Config, vocab: nat, best: nat, top: seq<Candidate>)
    requires Readable(logits, seen, vocab) && cfg.temperature > 0.0 && top != []
    requires IsTop(AllCandidates(logits, seen, cfg, vocab), top)
    ensures FirstBest(logits, seen, cfg.repetitionPenalty, vocab, best) <==> best == top[0].token
  {
    hide Penalized;
    var all := AllCandidates(logits, seen, cfg, vocab);
    var first := top[0].token;
    assert all[first] == top[0];
    forall t | 0 <= t < vocab && t != first
      ensures Penalized(logits, seen, cfg.repetitionPenalty, t) <= Penalized(logits, seen, cfg.repetitionPenalty, first)
      ensures t < first ==>
        Penalized(logits, seen, cfg.repetitionPenalty, t) < Penalized(logits, seen, cfg.repetitionPenalty, first)
    {
      assert all[t] in all && Better(top[0], all[t]);
      DivideKeepsOrder(Penalized(logits, seen, cfg.repetitionPenalty, t),
                       Penalized(logits, seen, cfg.repetitionPenalty, first), cfg.temperature);
      DivideKeepsOrder(Penalized(logits, seen, cfg.repetitionPenalty, first),
                       Penalized(logits, seen, cfg.repetitionPenalty, t), cfg.temperature);
    }
    assert FirstBest(logits, seen, cfg.repetitionPenalty, vocab, first);
  }

  // ----- probabilities

  ghost predicate Increasing(exp: real -> real) { forall x, y :: x <= y ==> exp(x) <= exp(y) }

  function Weights(top: seq<Candidate>, exp: real -> real): (w: seq<real>)
    requires top != []
    ensures |w| == |top|
  {
    seq(|top|, i requires 0 <= i < |top| => exp(top[i].score - top[0].score))
  }

  function Sum(p: seq<real>, n: nat): real
    requires n <= |p|
  {
    if n == 0 then 0.0 else Sum(p, n - 1) + p[n - 1]
  }

  ghost predicate AllPositive(p: seq<real>) { forall i :: 0 <= i < |p| ==> p[i] > 0.0 }

  lemma {:induction false} SumGrows(p: seq<real>, m: nat, n: nat)
    requires AllPositive(p) && m <= n <= |p|
    ensures Sum(p, m) <= Sum(p, n) && (m < n ==> Sum(p, m) < Sum(p, n))
  {
    if m < n { SumGrows(p, m, n - 1); }
  }

  lemma {:induction false} SumDivided(w: seq<real>, p: seq<real>, total: real, n: nat)
    requires |p| == |w| && n <= |w| && total > 0.0
    requires forall i :: 0 <= i < |w| ==> p[i] == w[i] / total
    ensures Sum(p, n) == Sum(w, n) / total
  {
    if n > 0 { SumDivided(w, p, total, n - 1); }
  }

  /** `p` is the softmax of the candidates' scores. */
  ghost predicate Softmax(top: seq<Candidate>, exp: real -> real, p: seq<real>)
    requires top != []
  {
    var w := Weights(top, exp);
    && |p| == |w| && Sum(w, |w|) > 0.0
    && forall i :: 0 <= i < |p| ==> p[i] == w[i] / Sum(w, |w|)
  }

  lemma SoftmaxIsDistribution(top: seq<Candidate>, exp: real -> real, p: seq<real>)
    requires top != [] && Positive(exp) && Softmax(top, exp, p)
    ensures AllPositive(p) && Sum(p, |p|) == 1.0
  {
    var w := Weights(top, exp);
    var z := Sum(w, |w|);
    SumDivided(w, p, z, |w|);
    assert z / z == 1.0;
    forall i | 0 <= i < |p| ensures p[i] > 0.0 { assert w[i] > 0.0 && p[i] * z == w[i]; }
  }

  method Probabilities(top: seq<Candidate>, exp: real -> real) returns (p: seq<real>)
    requires top != [] && Positive(exp)
    ensures Softmax(top, exp, p)
  {
    var probabilities := new real[|top|](i => 0.0);
    var total := Exponentials(top, exp, probabilities);
    ghost var w := probabilities[..];
    WeightsPositive(top, exp);
    Normalize(probabilities, total);
    p := probabilities[..];
  }

  lemma WeightsPositive(top: seq<Candidate>, exp: real -> real)
    requires top != [] && Positive(exp)
    ensures AllPositive(Weights(top, exp)) && Sum(Weights(top, exp), |top|) > 0.0
  {
    SumGrows(Weights(top, exp), 0, |top|);
  }

  method Exponentials(top: seq<Candidate>, exp: real -> real, probabilities: array<real>) returns (total: real)
    requires top != [] && probabilities.Length == |top|
    modifies probabilities
    ensures probabilities[..] == Weights(top, exp) && total == Sum(Weights(top, exp), |top|)
  {
    ghost var w := Weights(top, exp);
    var maximum := top[0].score;
    total := 0.0;
    for i := 0 to |top|
      invariant forall k :: 0 <= k < i ==> probabilities[k] == w[k]
      invariant total == Sum(w, i)
    {
      probabilities[i] := exp(top[i].score - maximum);
      total := total + probabilities[i];
    }
  }

  method Normalize(probabilities: array<real>, total: real)
    requires total > 0.0
    modifies probabilities
    ensures forall k :: 0 <= k < probabilities.Length ==> probabilities[k] == old(probabilities[k]) / total
  {
    for i := 0 to probabilities.Length
      invariant forall k :: 0 <= k < i ==> probabilities[k] == old(probabilities[k]) / total
      invariant forall k :: i <= k < probabilities.Length ==> probabilities[k] == old(probabilities[k])
    {
      probabilities[i] := probabilities[i] / total;
    }
  }

  // ----- the nucleus

  /** `active` is the least non-empty prefix whose mass reaches `topP`. */
  ghost predicate Nucleus(p: seq<real>, topP: real, active: nat) {
    && 1 <= active <= |p|
    && if topP < 1.0 then Sum(p, active) >= topP && forall n :: 1 <= n < active ==> Sum(p, n) < topP
       else active == |p|
  }

  method Truncate(p: seq<real>, topP: real) returns (active: nat, total: real)
    requires p != [] && AllPositive(p) && Sum(p, |p|) == 1.0
    ensures Nucleus(p, topP, active) && total == Sum(p, active)
  {
    active := |p|;
    if topP < 1.0 {
      var cumulative := p[0];
      active := 1;
      while active < |p| && cumulative < topP
        invariant 1 <= active <= |p| && cumulative == Sum(p, active)
        invariant forall n :: 1 <= n < active ==> Sum(p, n) < topP
      {
        cumulative := cumulative + p[active];
        active := active + 1;
      }
      total := 0.0;
      for i := 0 to active
        invariant total == Sum(p, i)
      {
        total := total + p[i];
      }
    } else {
      total := 1.0;
    }
  }

  lemma BelowNucleus(p: seq<real>, topP: real, m: nat, n: nat)
    requires Nucleus(p, topP, m) && topP < 1.0 && n <= |p|
    ensures Sum(p, m) >= topP && (1 <= n < m ==> Sum(p, n) < topP)
  {
    hide Sum;
  }

  lemma NucleusUnique(p: seq<real>, topP: real, m: nat, n: nat)
    requires Nucleus(p, topP, m) && Nucleus(p, topP, n)
    ensures m == n
  {
    hide Sum;
    if topP < 1.0 {
      BelowNucleus(p, topP, m, n);
      BelowNucleus(p, topP, n, m);
    }
  }

  predicate Selection(q: seq<nat>, n: nat) {
    && (forall i :: 0 <= i < |q| ==> q[i] < n)
    && forall i, j :: 0 <= i < j < |q| ==> q[i] < q[j]
  }

  function Mass(p: seq<real>, q: seq<nat>): real
    requires Selection(q, |p|)
  {
    if q == [] then 0.0 else Mass(p, q[..|q| - 1]) + p[q[|q| - 1]]
  }

  predicate Descending(p: seq<real>) { forall i, j :: 0 <= i < j < |p| ==> p[i] >= p[j] }

  lemma {:induction false} IndexAtLeast(q: seq<nat>, n: nat, i: nat)
    requires Selection(q, n) && i < |q|
    ensures q[i] >= i
  {
    if i > 0 { IndexAtLeast(q, n, i - 1); }
  }

  /** No choice of that many candidates outweighs the first ones. */
  lemma {:induction false} PrefixIsHeaviest(p: seq<real>, q: seq<nat>)
    requires Descending(p) && Selection(q, |p|)
    ensures |q| <= |p| && Mass(p, q) <= Sum(p, |q|)
  {
    if q != [] {
      var last := |q| - 1;
      PrefixIsHeaviest(p, q[..last]);
      IndexAtLeast(q, |p|, last);
      assert p[last] >= p[q[last]];
    }
  }

  lemma SoftmaxDescends(all: seq<Candidate>, top: seq<Candidate>, exp: real -> real, p: seq<real>)
    requires top != [] && IsTop(all, top) && Positive(exp) && Increasing(exp) && Softmax(top, exp, p)
    ensures Descending(p)
  {
    var w := Weights(top, exp);
    forall i, j | 0 <= i < j < |p| ensures p[i] >= p[j] {
      assert Better(top[i], top[j]);
      assert w[i] >= w[j];
      DivideKeepsOrder(w[j], w[i], Sum(w, |w|));
    }
  }

  /** The nucleus is the smallest of all sets of candidates with that much mass, not only
      the smallest prefix. */
  lemma NucleusIsSmallest(all: seq<Candidate>, top: seq<Candidate>, exp: real -> real, p: seq<real>,
                          topP: real, active: nat, q: seq<nat>)
    requires top != [] && IsTop(all, top) && Positive(exp) && Increasing(exp) && Softmax(top, exp, p)
    requires topP <= 1.0 && Nucleus(p, topP, active) && Selection(q, |p|) && q != [] && Mass(p, q) >= topP
    ensures active <= |q|
  {
    SoftmaxDescends(all, top, exp, p);
    SoftmaxIsDistribution(top, exp, p);
    PrefixIsHeaviest(p, q);
    SumGrows(p, |q|, |p|);
    if topP < 1.0 { BelowNucleus(p, topP, active, |q|); }
  }

  // ----- the draw

  function Scaled(u: real, mass: real): real { u * mass }

  ghost predicate Drawn(p: seq<real>, active: nat, target: real, i: nat) {
    i < active <= |p| && Sum(p, i) < target <= Sum(p, i + 1)
  }

  lemma DrawUnique(p: seq<real>, active: nat, target: real, i: nat, j: nat)
    requires AllPositive(p) && Drawn(p, active, target, i) && Drawn(p, active, target, j)
    ensures i == j
  {
    if i < j { SumGrows(p, i + 1, j); }
    if j < i { SumGrows(p, j + 1, i); }
  }

  /** Subtracting probabilities until the target is used up; the loop never runs past the
      last active candidate. */
  method Draw(p: seq<real>, active: nat, goal: real) returns (i: nat)
    requires 1 <= active <= |p| && 0.0 < goal <= Sum(p, active)
    ensures Drawn(p, active, goal, i)
  {
    var target := goal;
    i := 0;
    while i < active
      invariant i <= active && target == goal - Sum(p, i) && target > 0.0
    {
      target := target - p[i];
      if target <= 0.0 { return; }
      i := i + 1;
    }
    assert false;
  }

  /** Candidate `i` is drawn exactly for the draws in an interval whose length is its
      softmax share among the nucleus alone. */
  lemma OwnsItsShare(top: seq<Candidate>, exp: real -> real, p: seq<real>, active: nat, i: nat, u: real)
    requires top != [] && Positive(exp) && Softmax(top, exp, p) && i < active <= |p|
    ensures var w := Weights(top, exp);
      && |w| == |p| && Sum(w, active) > 0.0
      && (Drawn(p, active, Scaled(u, Sum(p, active)), i) <==>
          Sum(w, i) / Sum(w, active) < u <= Sum(w, i + 1) / Sum(w, active))
      && Sum(w, i + 1) / Sum(w, active) - Sum(w, i) / Sum(w, active) == w[i] / Sum(w, active)
  {
    var w := Weights(top, exp);
    assert AllPositive(w);
    SumGrows(w, 0, active);
    ShareOf(w, p, active, i, u, Sum(w, |w|));
  }

  lemma ShareOf(w: seq<real>, p: seq<real>, active: nat, i: nat, u: real, z: real)
    requires |p| == |w| && i < active <= |w| && z > 0.0 && Sum(w, active) > 0.0
    requires forall k :: 0 <= k < |w| ==> p[k] == w[k] / z
    ensures Drawn(p, active, Scaled(u, Sum(p, active)), i) <==>
      Sum(w, i) / Sum(w, active) < u <= Sum(w, i + 1) / Sum(w, active)
    ensures Sum(w, i + 1) / Sum(w, active) - Sum(w, i) / Sum(w, active) == w[i] / Sum(w, active)
  {
    var mass := Sum(w, active);
    SumDivided(w, p, z, i);
    SumDivided(w, p, z, i + 1);
    SumDivided(w, p, z, active);
    DivideDifference(Sum(w, i), w[i], mass);
    assert Sum(w, i + 1) == Sum(w, i) + w[i];
    hide Sum, Scaled;
    Interval(Sum(w, i), Sum(w, i + 1), mass, z, u, Sum(p, i), Sum(p, i + 1), Sum(p, active));
  }

  lemma Interval(s: real, t: real, mass: real, z: real, u: real, ps: real, pt: real, pmass: real)
    requires mass > 0.0 && z > 0.0 && ps == s / z && pt == t / z && pmass == mass / z
    ensures ps < Scaled(u, pmass) <= pt <==> s / mass < u <= t / mass
  {
    Rescaled(s, mass, z, u, u * pmass);
    Rescaled(t, mass, z, u, u * pmass);
  }

  lemma DivideDifference(x: real, y: real, k: real)
    requires k > 0.0
    ensures (x + y) / k - x / k == y / k
  {
  }

  lemma Rescaled(s: real, mass: real, z: real, u: real, goal: real)
    requires mass > 0.0 && z > 0.0 && goal == u * (mass / z)
    ensures s / z < goal <==> s / mass < u
    ensures goal <= s / z <==> u <= s / mass
  {
    assert goal * z == u * mass;
    assert (s / z) * z == s && (s / mass) * mass == s;
    Ordered(s / z, goal, z);
    Ordered(s / mass, u, mass);
  }

  lemma Ordered(x: real, y: real, k: real)
    requires k > 0.0
    ensures x < y <==> x * k < y * k
  {
    if x < y { assert (y - x) * k > 0.0; } else { assert (x - y) * k >= 0.0; }
  }

  /** The whole stochastic path: from the scores, a stepped generator state and the
      configuration to the index of the token among the candidates. */
  ghost predicate Samples(all: seq<Candidate>, cfg: Config, exp: real -> real, state: seq<bool>, token: nat)
    requires Word(state)
  {
    exists top: seq<Candidate>, p: seq<real>, active: nat, i: nat ::
      SampledBy(all, cfg, exp, state, top, p, active, i) && top[i].token == token
  }

  /** Where in the nucleus's mass the draw falls. */
  function Goal(p: seq<real>, active: nat, state: seq<bool>): real
    requires active <= |p| && Word(state)
  {
    Scaled(Unit(state), Sum(p, active))
  }

  ghost predicate SampledBy(all: seq<Candidate>, cfg: Config, exp: real -> real, state: seq<bool>,
                            top: seq<Candidate>, p: seq<real>, active: nat, i: nat)
    requires Word(state)
  {
    && top != [] && IsTop(all, top) && |top| == (if cfg.topK < |all| then cfg.topK else |all|)
    && Softmax(top, exp, p) && Nucleus(p, cfg.topP, active) && i < active <= |p| == |top|
    && Drawn(p, active, Goal(p, active, state), i)
  }

  /** Configuration, scores and generator state decide the token. */
  lemma SampleIsDetermined(all: seq<Candidate>, cfg: Config, exp: real -> real, state: seq<bool>, t: nat, t': nat)
    requires Tokenized(all) && Positive(exp) && Word(state)
    requires Samples(all, cfg, exp, state, t) && Samples(all, cfg, exp, state, t')
    ensures t == t'
  {
    hide IsTop, Softmax, Nucleus, Drawn, Goal;
    var top: seq<Candidate>, p: seq<real>, active: nat, i: nat :|
      SampledBy(all, cfg, exp, state, top, p, active, i) && top[i].token == t;
    var top': seq<Candidate>, p': seq<real>, active': nat, i': nat :|
      SampledBy(all, cfg, exp, state, top', p', active', i') && top'[i'].token == t';
    TopUnique(all, top, top');
    SoftmaxUnique(top, exp, p, p');
    NucleusUnique(p, cfg.topP, active, active');
    SoftmaxIsDistribution(top, exp, p);
    DrawUnique(p, active, Goal(p, active, state), i, i');
  }

  lemma SoftmaxUnique(top: seq<Candidate>, exp: real -> real, p: seq<real>, q: seq<real>)
    requires top != [] && Softmax(top, exp, p) && Softmax(top, exp, q)
    ensures p == q
  {
  }

  method Sample(logits: seq<real>, vocab: nat, cfg: Config, seen: seq<bool>, exp: real -> real, state: seq<bool>)
    returns (token: nat, next: seq<bool>)
    requires Readable(logits, seen, vocab) && cfg.topK > 0 && Positive(exp) && Word(state)
    ensures token < vocab && Word(next)
    ensures cfg.temperature <= 0.0 || cfg.topK == 1 ==>
      next == state && FirstBest(logits, seen, cfg.repetitionPenalty, vocab, token)
    ensures cfg.temperature <= 0.0 || cfg.topK == 1 ==>
      forall t: nat :: BestLogit(logits, vocab, t) && !seen[t] ==> token == t
    ensures cfg.temperature > 0.0 && cfg.topK != 1 ==>
      next == NextState(state) && Samples(AllCandidates(logits, seen, cfg, vocab), cfg, exp, next, token)
  {
    hide IsTop, Softmax, Nucleus, Drawn, Goal, Scaled, Sum, NextState, Penalized, AllPositive;
    if cfg.temperature <= 0.0 || cfg.topK == 1 {
      token := Greedy(logits, seen, cfg.repetitionPenalty, vocab);
      next := state;
      return;
    }
    var all := AllCandidates(logits, seen, cfg, vocab);
    var top := TopCandidates(all, cfg.topK);
    var p := Probabilities(top, exp);
    SoftmaxIsDistribution(top, exp, p);
    SoftmaxLength(top, exp, p);
    var active, total := Truncate(p, cfg.topP);
    next := NextState(state);
    GoalInRange(p, cfg.topP, active, next);
    var goal := Scaled(Unit(next), total);
    var i := Draw(p, active, goal);
    DrawnAmong(all, top, p, active, goal, i);
    assert SampledBy(all, cfg, exp, next, top, p, active, i);
    token := top[i].token;
  }

  lemma SoftmaxLength(top: seq<Candidate>, exp: real -> real, p: seq<real>)
    requires top != [] && Softmax(top, exp, p)
    ensures |p| == |top|
  {
  }

  lemma GoalInRange(p: seq<real>, topP: real, active: nat, state: seq<bool>)
    requires AllPositive(p) && Nucleus(p, topP, active) && Word(state)
    ensures 1 <= active <= |p| && 0.0 < Goal(p, active, state) <= Sum(p, active)
    ensures Goal(p, active, state) == Scaled(Unit(state), Sum(p, active))
  {
    hide Unit;
    SumGrows(p, 0, active);
    assert Sum(p, 0) == 0.0;
    Fraction(Unit(state), Sum(p, active));
  }

  lemma Fraction(u: real, mass: real)
    requires 0.0 < u < 1.0 && mass > 0.0
    ensures 0.0 < Scaled(u, mass) <= mass
  {
    assert (1.0 - u) * mass > 0.0;
  }

  lemma DrawnAmong(all: seq<Candidate>, top: seq<Candidate>, p: seq<real>, active: nat, goal: real, i: nat)
    requires Tokenized(all) && IsTop(all, top) && |p| == |top| && Drawn(p, active, goal, i)
    ensures i < active <= |top| && top[i].token < |all|
  {
    assert top[i] in all;
  }
}
