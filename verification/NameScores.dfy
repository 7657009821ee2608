/**
 * The three token-set scores (aml/edit-distance.ts, lines 64-107, and aml/match.ts, lines 87-104).
 * Floating-point scores are modelled by reals.
 */
module NameScores {
  import opened Prelude
  import opened Sorting
  import opened EditDistance
  import opened EditRetrieval

  /** A name part. The tokenizer never produces an empty one. */
  type Word = t: string | t != "" witness "a"

  function RealMax(x: real, y: real): real {
    if x >= y then x else y
  }

  function Words(s: seq<Word>): set<Word> {
    set t | t in s
  }

  ghost predicate Distinct<T>(s: seq<T>) {
    forall i, j :: 0 <= i < j < |s| ==> s[i] != s[j]
  }

  /** First occurrences, in order. */
  function Dedupe(s: seq<Word>): (r: seq<Word>)
    ensures Distinct(r)
    ensures forall t :: t in r <==> t in s
  {
    if s == [] then []
    else
      var r := Dedupe(s[..|s| - 1]);
      if s[|s| - 1] in r then r else r + [s[|s| - 1]]
  }

  lemma ShareOfBound(x: real, y: real, z: real)
    requires 0.0 <= x <= y && 0.0 <= z <= 1.0
    ensures 0.0 <= x * z <= y
    ensures x > 0.0 && z > 0.0 ==> x * z > 0.0
  {
  }

  lemma Grows(q: real, y: real)
    requires y > 0.0
    ensures q > 1.0 ==> q * y > y
    ensures q == 1.0 ==> q * y == y
    ensures q < 0.0 ==> q * y < 0.0
    ensures q == 0.0 ==> q * y == 0.0
  {
  }

  lemma ShareOfWhole(x: real, y: real)
    requires 0.0 <= x <= y && y > 0.0
    ensures 0.0 <= x / y <= 1.0
    ensures x < y <==> x / y < 1.0
    ensures x > 0.0 <==> x / y > 0.0
  {
    var q := x / y;
    assert q * y == x;
    Grows(q, y);
  }

  // ---------- Overlap score ----------

  ghost function NameScore(a: seq<Word>, b: seq<Word>): real {
    var A, B := Words(a), Words(b);
    var inter := |A * B|;
    if inter == 0 then 0.0
    else
      OverlapSizes(A, B);
      var jaccard := inter as real / (|A| + |B| - inter) as real;
      var small, large := Min(|A|, |B|), Max(|A|, |B|);
      if small < 3 then jaccard
      else RealMax(jaccard, inter as real / small as real * 0.95 * (0.6 + 0.4 * (small as real / large as real)))
  }

  lemma OverlapSizes<T>(A: set<T>, B: set<T>)
    ensures |A * B| <= |A| && |A * B| <= |B| && |A + B| == |A| + |B| - |A * B|
    ensures |A * B| == |A| == |B| ==> A == B
  {
    assert A == (A * B) + (A - B);
    assert B == (A * B) + (B - A);
    assert A + B == A + (B - A);
  }

  /** The bonus for a contained name never reaches a full score. */
  lemma BonusRange(inter: nat, small: nat, large: nat)
    requires 0 < inter <= small <= large
    ensures 0.0 <= inter as real / small as real * 0.95 * (0.6 + 0.4 * (small as real / large as real)) <= 0.95
  {
    ShareOfWhole(inter as real, small as real);
    ShareOfWhole(small as real, large as real);
    ShareOfBound(inter as real / small as real * 0.95, 0.95, 0.6 + 0.4 * (small as real / large as real));
  }

  lemma NameScoreSymmetric(a: seq<Word>, b: seq<Word>)
    ensures NameScore(a, b) == NameScore(b, a)
  {
    assert Words(a) * Words(b) == Words(b) * Words(a);
  }

  lemma NameScoreRange(a: seq<Word>, b: seq<Word>)
    ensures 0.0 <= NameScore(a, b) <= 1.0
    ensures NameScore(a, b) > 0.0 <==> Words(a) * Words(b) != {}
    ensures NameScore(a, b) == 1.0 <==> Words(a) == Words(b) && a != []
  {
    var A, B := Words(a), Words(b);
    OverlapSizes(A, B);
    assert a != [] ==> a[0] in A;
    assert A == B ==> A * B == A;
    if A * B != {} {
      var inter := |A * B|;
      ShareOfWhole(inter as real, (|A| + |B| - inter) as real);
      BonusRange(inter, Min(|A|, |B|), Max(|A|, |B|));
    }
  }

  method CountShared(A: set<Word>, B: set<Word>) returns (inter: nat)
    ensures inter == |A * B|
  {
    inter := 0;
    var left := A;
    ghost var shared: set<Word> := {};
    while left != {}
      invariant left <= A && shared == (A - left) * B && inter == |shared|
    {
      var t :| t in left;
      if t in B {
        inter, shared := inter + 1, shared + {t};
      }
      left := left - {t};
    }
    assert shared == A * B;
  }

  method ComputeNameScore(a: seq<Word>, b: seq<Word>) returns (r: real)
    ensures r == NameScore(a, b)
  {
    var A, B := Words(a), Words(b);
    var inter := CountShared(A, B);
    if inter == 0 {
      return 0.0;
    }
    OverlapSizes(A, B);
    var jaccard := inter as real / (|A| + |B| - inter) as real;
    var small := Min(|A|, |B|);
    if small < 3 {
      return jaccard;
    }
    var contain := inter as real / small as real * 0.95;
    var ratio := small as real / Max(|A|, |B|) as real;
    return RealMax(jaccard, contain * (0.6 + 0.4 * ratio));
  }

  // ---------- Greedy bounded-edit score ----------

  datatype Pair = Pair(i: nat, j: nat, score: real)

  ghost function PairScore(t: Word, u: Word): real {
    1.0 - Min(Osa(t, u), 3) as real / Max(|t|, |u|) as real
  }

  lemma SupportedPairScore(t: Word, u: Word)
    requires SupportedEdits(t, u)
    ensures 0.0 < PairScore(t, u) <= 1.0
  {
    if t == u {
      OsaZeroIffEqual(t, u);
    }
    ShareOfWhole(Min(Osa(t, u), 3) as real, Max(|t|, |u|) as real);
  }

  function ExactLeft(a: seq<Word>, b: seq<Word>): set<nat> {
    set i: nat | i < |a| && a[i] in b
  }

  ghost predicate Pairable(a: seq<Word>, b: seq<Word>, i: nat, j: nat)
    requires i < |a| && j < |b|
  {
    i !in ExactLeft(a, b) && j !in ExactLeft(b, a) && SupportedEdits(a[i], b[j])
  }

  /** Unmatched pairs met before column j of row i. */
  ghost function PairsBefore(a: seq<Word>, b: seq<Word>, i: nat, j: nat): seq<Pair>
    requires i <= |a| && j <= |b| && (i == |a| ==> j == 0)
    decreases i, j
  {
    if j > 0 then
      PairsBefore(a, b, i, j - 1)
      + if Pairable(a, b, i, j - 1) then [Pair(i, j - 1, PairScore(a[i], b[j - 1]))] else []
    else if i > 0 then
      PairsRow(a, b, i - 1)
    else []
  }

  ghost function PairsRow(a: seq<Word>, b: seq<Word>, i: nat): seq<Pair>
    requires i < |a|
    decreases i, |b| + 1
  {
    PairsBefore(a, b, i, |b|)
  }

  function Less(s: string, t: string): bool {
    if t == "" then false
    else if s == "" then true
    else s[0] < t[0] || (s[0] == t[0] && Less(s[1..], t[1..]))
  }

  /** Strongest first, ties by the left and then the right word. */
  predicate Before(p: Pair, q: Pair, a: seq<Word>, b: seq<Word>) {
    var s, t := WordAt(a, p.i), WordAt(a, q.i);
    p.score > q.score
    || (p.score == q.score && (Less(s, t) || (s == t && Less(WordAt(b, p.j), WordAt(b, q.j)))))
  }

  function WordAt(words: seq<Word>, i: nat): string {
    if i < |words| then words[i] else ""
  }

  function NotBehind(a: seq<Word>, b: seq<Word>): (Pair, Pair) -> bool {
    (p, q) => !Before(q, p, a, b)
  }

  /** The library sort of the pairs. */
  function Ranked(s: seq<Pair>, a: seq<Word>, b: seq<Word>): (r: seq<Pair>)
    ensures multiset(r) == multiset(s)
    ensures forall q :: q in r <==> q in s
  {
    SortedBy(s, NotBehind(a, b))
  }

  ghost predicate Descending(s: seq<Pair>, a: seq<Word>, b: seq<Word>) {
    forall x, y :: 0 <= x < y < |s| ==> !Before(s[y], s[x], a, b)
  }

  lemma {:induction false} LessIsStrictOrder(s: string, t: string, u: string)
    ensures !(Less(s, t) && Less(t, s))
    ensures Less(s, t) || Less(t, s) || s == t
    ensures Less(s, t) && Less(t, u) ==> Less(s, u)
  {
    if s != "" && t != "" {
      LessIsStrictOrder(s[1..], t[1..], if u == "" then "" else u[1..]);
      assert s == [s[0]] + s[1..] && t == [t[0]] + t[1..];
    }
  }

  lemma BeforeIsOrder(p: Pair, q: Pair, r: Pair, a: seq<Word>, b: seq<Word>)
    ensures !(Before(p, q, a, b) && Before(q, p, a, b))
    ensures !Before(q, p, a, b) && !Before(r, q, a, b) ==> !Before(r, p, a, b)
  {
    LessOrdersThree(WordAt(a, p.i), WordAt(a, q.i), WordAt(a, r.i));
    LessOrdersThree(WordAt(b, p.j), WordAt(b, q.j), WordAt(b, r.j));
  }

  lemma LessOrdersThree(s: string, t: string, u: string)
    ensures !(Less(s, t) && Less(t, s)) && (Less(s, t) || Less(t, s) || s == t)
    ensures (s == t || Less(s, t)) && (t == u || Less(t, u)) ==> Less(s, u) || (s == t && t == u)
    ensures (Less(s, t) || Less(t, s) || s == t) && (Less(t, u) || Less(u, t) || t == u)
    ensures (Less(s, u) || Less(u, s) || s == u) && !(Less(t, u) && Less(u, t)) && !(Less(s, u) && Less(u, s))
  {
    LessIsStrictOrder(s, t, u);
    LessIsStrictOrder(t, u, s);
    LessIsStrictOrder(u, s, t);
  }

  /** The library sort: a permutation, strongest pair first. */
  lemma RankedIsDescending(s: seq<Pair>, a: seq<Word>, b: seq<Word>)
    ensures multiset(Ranked(s, a, b)) == multiset(s) && Descending(Ranked(s, a, b), a, b)
  {
    var le := NotBehind(a, b);
    forall p, q, r ensures (le(p, q) || le(q, p)) && (le(p, q) && le(q, r) ==> le(p, r)) {
      BeforeIsOrder(p, q, r, a, b);
    }
    SortedByIsSorted(s, le);
    var sorted := Ranked(s, a, b);
    forall x, y | 0 <= x < y < |sorted| ensures !Before(sorted[y], sorted[x], a, b) {
      assert le(sorted[x], sorted[y]);
    }
  }

  /** Sum of the pairs taken in order, each word at most once. */
  function Greedy(s: seq<Pair>, usedA: set<nat>, usedB: set<nat>): real {
    if s == [] then 0.0
    else if s[0].i !in usedA && s[0].j !in usedB
    then s[0].score + Greedy(s[1..], usedA + {s[0].i}, usedB + {s[0].j})
    else Greedy(s[1..], usedA, usedB)
  }

  lemma {:induction false} PairsBeforeAre(a: seq<Word>, b: seq<Word>, i: nat, j: nat)
    requires i <= |a| && j <= |b| && (i == |a| ==> j == 0)
    ensures forall p :: p in PairsBefore(a, b, i, j) <==>
              p.i < |a| && p.j < |b| && (p.i < i || (p.i == i && p.j < j))
              && Pairable(a, b, p.i, p.j) && p.score == PairScore(a[p.i], b[p.j])
    decreases i, j
  {
    if j > 0 {
      PairsBeforeAre(a, b, i, j - 1);
    } else if i > 0 {
      PairsBeforeAre(a, b, i - 1, |b|);
    }
  }

  lemma SubrangeSize(s: set<nat>, n: nat)
    requires forall x :: x in s ==> x < n
    ensures |s| <= n
  {
    if n == 0 {
      assert s == {};
    } else {
      SubrangeSize(s - {n - 1}, n - 1);
    }
  }

  lemma {:induction false} GreedyRange(s: seq<Pair>, usedA: set<nat>, usedB: set<nat>, n: nat)
    requires forall p :: p in s ==> p.i < n && 0.0 < p.score <= 1.0
    requires forall x :: x in usedA ==> x < n
    ensures 0.0 <= Greedy(s, usedA, usedB)
    ensures |usedA| as real + Greedy(s, usedA, usedB) <= n as real
    ensures s != [] && s[0].i !in usedA && s[0].j !in usedB ==> Greedy(s, usedA, usedB) > 0.0
  {
    if s == [] {
      SubrangeSize(usedA, n);
    } else if s[0].i !in usedA && s[0].j !in usedB {
      GreedyRange(s[1..], usedA + {s[0].i}, usedB + {s[0].j}, n);
    } else {
      GreedyRange(s[1..], usedA, usedB, n);
    }
  }

  ghost function RankedPairs(a: seq<Word>, b: seq<Word>): (r: seq<Pair>)
    ensures forall p ::
              p in r <==> p.i < |a| && p.j < |b| && Pairable(a, b, p.i, p.j) && p.score == PairScore(a[p.i], b[p.j])
  {
    PairsBeforeAre(a, b, |a|, 0);
    Ranked(PairsBefore(a, b, |a|, 0), a, b)
  }

  /** Points collected: one for each exact word, a pair's score for each greedy pair. */
  ghost function Points(a: seq<Word>, b: seq<Word>): real {
    |ExactLeft(a, b)| as real + Greedy(RankedPairs(a, b), ExactLeft(a, b), ExactLeft(b, a))
  }

  ghost function EditNameScore(left: seq<Word>, right: seq<Word>): real {
    var a, b := Dedupe(left), Dedupe(right);
    if a == [] || b == [] then 0.0 else Points(a, b) / Max(|a|, |b|) as real
  }

  lemma PointsRange(a: seq<Word>, b: seq<Word>)
    ensures 0.0 <= Points(a, b) <= |a| as real
    ensures Points(a, b) > 0.0 <==> ExactLeft(a, b) != {} || RankedPairs(a, b) != []
  {
    var ranked := RankedPairs(a, b);
    forall p | p in ranked ensures 0.0 < p.score <= 1.0 {
      SupportedPairScore(a[p.i], b[p.j]);
    }
    GreedyRange(ranked, ExactLeft(a, b), ExactLeft(b, a), |a|);
    if ranked != [] {
      assert ranked[0] in ranked;
    }
  }

  lemma SomePairSupported(a: seq<Word>, b: seq<Word>)
    requires ExactLeft(a, b) != {} || RankedPairs(a, b) != []
    ensures exists t, u :: t in a && u in b && SupportedEdits(t, u)
  {
    if ExactLeft(a, b) != {} {
      var i :| i in ExactLeft(a, b);
      assert a[i] in b && SupportedEdits(a[i], a[i]);
    } else {
      var p := RankedPairs(a, b)[0];
      assert p in RankedPairs(a, b);
      assert a[p.i] in a && b[p.j] in b;
    }
  }

  lemma SupportedPairCounts(a: seq<Word>, b: seq<Word>, t: Word, u: Word)
    requires t in a && u in b && SupportedEdits(t, u)
    ensures ExactLeft(a, b) != {} || RankedPairs(a, b) != []
  {
    var i :| 0 <= i < |a| && a[i] == t;
    var j :| 0 <= j < |b| && b[j] == u;
    if i !in ExactLeft(a, b) {
      if j in ExactLeft(b, a) {
        var k :| 0 <= k < |a| && a[k] == b[j];
        assert k in ExactLeft(a, b);
      } else {
        assert Pair(i, j, PairScore(t, u)) in RankedPairs(a, b);
      }
    }
  }

  /** The score is a proportion, and it is positive exactly when some word pair is within the supported edits. */
  lemma EditNameScoreRange(left: seq<Word>, right: seq<Word>)
    ensures 0.0 <= EditNameScore(left, right) <= 1.0
    ensures EditNameScore(left, right) > 0.0 <==> exists t, u :: t in left && u in right && SupportedEdits(t, u)
  {
    var a, b := Dedupe(left), Dedupe(right);
    assert left != [] ==> left[0] in a;
    assert right != [] ==> right[0] in b;
    if a != [] && b != [] {
      PointsRange(a, b);
      ShareOfWhole(Points(a, b), Max(|a|, |b|) as real);
      if Points(a, b) > 0.0 {
        SomePairSupported(a, b);
      }
      forall t, u | t in left && u in right && SupportedEdits(t, u) ensures Points(a, b) > 0.0 {
        SupportedPairCounts(a, b, t, u);
      }
    }
  }

  ghost predicate MatchedBelow(a: seq<Word>, b: seq<Word>, i: nat, usedA: set<nat>, usedB: set<nat>)
    requires i <= |a|
  {
    && (forall k: nat :: k in usedA <==> k < i && a[k] in b)
    && (forall j: nat :: j in usedB <==> j < |b| && b[j] in a[..i])
  }

  lemma MatchStep(a: seq<Word>, b: seq<Word>, i: nat, j: nat, usedA: set<nat>, usedB: set<nat>)
    requires Distinct(b) && i < |a| && MatchedBelow(a, b, i, usedA, usedB)
    ensures a[i] !in b ==> MatchedBelow(a, b, i + 1, usedA, usedB)
    ensures j < |b| && b[j] == a[i] ==> MatchedBelow(a, b, i + 1, usedA + {i}, usedB + {j})
  {
    assert a[..i + 1] == a[..i] + [a[i]];
  }

  method ExactWords(a: seq<Word>, b: seq<Word>) returns (usedA: set<nat>, usedB: set<nat>, score: real)
    requires Distinct(b)
    ensures usedA == ExactLeft(a, b) && usedB == ExactLeft(b, a) && score == |usedA| as real
  {
    usedA, usedB, score := {}, {}, 0.0;
    for i := 0 to |a|
      invariant MatchedBelow(a, b, i, usedA, usedB)
      invariant score == |usedA| as real
    {
      var j: nat := 0;
      if a[i] in b {
        j :| j < |b| && b[j] == a[i];
        MatchStep(a, b, i, j, usedA, usedB);
        usedA, usedB, score := usedA + {i}, usedB + {j}, score + 1.0;
      } else {
        MatchStep(a, b, i, j, usedA, usedB);
      }
    }
    assert a[..|a|] == a;
  }

  method CandidateAt(a: seq<Word>, b: seq<Word>, usedA: set<nat>, usedB: set<nat>, i: nat, j: nat)
      returns (pair: seq<Pair>)
    requires usedA == ExactLeft(a, b) && usedB == ExactLeft(b, a) && i < |a| && j < |b|
    ensures pair == if Pairable(a, b, i, j) then [Pair(i, j, PairScore(a[i], b[j]))] else []
  {
    pair := [];
    if i !in usedA && j !in usedB {
      var near := WithinSupportedEdits(a[i], b[j]);
      if near {
        var distance := BoundedEditDistance(a[i], b[j], 2);
        pair := [Pair(i, j, 1.0 - distance.value as real / Max(|a[i]|, |b[j]|) as real)];
      }
    }
  }

  method CandidatePairs(a: seq<Word>, b: seq<Word>, usedA: set<nat>, usedB: set<nat>) returns (pairs: seq<Pair>)
    requires usedA == ExactLeft(a, b) && usedB == ExactLeft(b, a)
    ensures pairs == PairsBefore(a, b, |a|, 0)
  {
    pairs := [];
    for i := 0 to |a|
      invariant pairs == PairsBefore(a, b, i, 0)
    {
      for j := 0 to |b|
        invariant pairs == PairsBefore(a, b, i, j)
      {
        var pair := CandidateAt(a, b, usedA, usedB, i, j);
        pairs := pairs + pair;
      }
      assert PairsBefore(a, b, i + 1, 0) == PairsRow(a, b, i);
    }
  }

  method ComputeEditNameScore(left: seq<Word>, right: seq<Word>) returns (r: real)
    ensures r == EditNameScore(left, right)
  {
    var a, b := Dedupe(left), Dedupe(right);
    if a == [] || b == [] {
      return 0.0;
    }
    var usedA, usedB, score := ExactWords(a, b);
    var pairs := CandidatePairs(a, b, usedA, usedB);
    PairsBeforeAre(a, b, |a|, 0);
    pairs := Ranked(pairs, a, b);
    for k := 0 to |pairs|
      invariant score + Greedy(pairs[k..], usedA, usedB) == Points(a, b)
    {
      assert pairs[k..][1..] == pairs[k + 1..];
      if pairs[k].i !in usedA && pairs[k].j !in usedB {
        usedA, usedB, score := usedA + {pairs[k].i}, usedB + {pairs[k].j}, score + pairs[k].score;
      }
    }
    return score / Max(|a|, |b|) as real;
  }

  // ---------- One missing word ----------

  datatype Partner = Partner(index: nat, score: real)

  /** The first strongest unused partner among the first j words. */
  ghost function BestPartner(t: Word, large: seq<Word>, used: set<nat>, j: nat): Option<Partner>
    requires j <= |large|
  {
    if j == 0 then None
    else
      var best := BestPartner(t, large, used, j - 1);
      if j - 1 !in used && SupportedEdits(t, large[j - 1])
         && (best.None? || PairScore(t, large[j - 1]) > best.value.score)
      then Some(Partner(j - 1, PairScore(t, large[j - 1])))
      else best
  }

  ghost function Pairing(small: seq<Word>, large: seq<Word>, used: set<nat>): Option<real> {
    if small == [] then Some(0.0)
    else
      match BestPartner(small[0], large, used, |large|)
      case None => None
      case Some(p) =>
        match Pairing(small[1..], large, used + {p.index})
        case None => None
        case Some(rest) => Some(p.score + rest)
  }

  ghost function MissingTokenNameScore(left: seq<Word>, right: seq<Word>): real {
    var a, b := Dedupe(left), Dedupe(right);
    if Abs(|a| - |b|) != 1 || Min(|a|, |b|) < 2 then 0.0
    else
      var small, large := if |a| < |b| then a else b, if |a| < |b| then b else a;
      match Pairing(small, large, {})
      case None => 0.0
      case Some(similarity) => 0.82 * (similarity / |small| as real)
  }

  lemma {:induction false} BestPartnerIs(t: Word, large: seq<Word>, used: set<nat>, j: nat)
    requires j <= |large|
    ensures var best := BestPartner(t, large, used, j);
            && (best.None? <==> forall k :: 0 <= k < j && SupportedEdits(t, large[k]) ==> k in used)
            && (best.Some? ==>
                  var p := best.value;
                  && p.index < j && p.index !in used && SupportedEdits(t, large[p.index])
                  && p.score == PairScore(t, large[p.index])
                  && forall k :: 0 <= k < j && k !in used && SupportedEdits(t, large[k]) ==>
                      PairScore(t, large[k]) <= p.score)
  {
    if j > 0 {
      BestPartnerIs(t, large, used, j - 1);
    }
  }

  lemma {:induction false} PairingRange(small: seq<Word>, large: seq<Word>, used: set<nat>)
    ensures var r := Pairing(small, large, used);
            r.Some? ==>
              && 0.0 <= r.value <= |small| as real
              && (small != [] ==> r.value > 0.0)
              && EachHasPartner(small, large)
  {
    if small != [] && Pairing(small, large, used).Some? {
      BestPartnerIs(small[0], large, used, |large|);
      var p := BestPartner(small[0], large, used, |large|).value;
      SupportedPairScore(small[0], large[p.index]);
      PairingRange(small[1..], large, used + {p.index});
      assert large[p.index] in large;
      assert small == [small[0]] + small[1..];
    }
  }

  ghost predicate EachHasPartner(small: seq<Word>, large: seq<Word>) {
    forall t :: t in small ==> exists u :: u in large && SupportedEdits(t, u)
  }

  /** Partners for all words of the shorter name, no two the same. */
  ghost predicate Matched(small: seq<Word>, large: seq<Word>, f: seq<nat>) {
    && |f| == |small|
    && (forall i :: 0 <= i < |f| ==> f[i] < |large| && SupportedEdits(small[i], large[f[i]]))
    && (forall i, j :: 0 <= i < j < |f| ==> f[i] != f[j])
  }

  lemma {:induction false} PairingMatches(small: seq<Word>, large: seq<Word>, used: set<nat>) returns (f: seq<nat>)
    requires Pairing(small, large, used).Some?
    ensures Matched(small, large, f) && forall k :: k in f ==> k !in used
  {
    if small == [] {
      f := [];
    } else {
      BestPartnerIs(small[0], large, used, |large|);
      var p := BestPartner(small[0], large, used, |large|).value;
      var rest := PairingMatches(small[1..], large, used + {p.index});
      f := [p.index] + rest;
      OneMoreMatched(small, large, p.index, rest);
    }
  }

  lemma OneMoreMatched(small: seq<Word>, large: seq<Word>, k: nat, rest: seq<nat>)
    requires small != [] && k < |large| && SupportedEdits(small[0], large[k])
    requires Matched(small[1..], large, rest) && k !in rest
    ensures Matched(small, large, [k] + rest)
  {
    var f := [k] + rest;
    forall i, j | 0 <= i < j < |f| ensures f[i] != f[j] {
      assert f[j] == rest[j - 1] && rest[j - 1] in rest;
      assert i > 0 ==> f[i] == rest[i - 1];
    }
  }

  /** Every word of the shorter name has a partner of its own among the words of the longer. */
  ghost predicate EachHasOwnPartner(small: seq<Word>, large: seq<Word>) {
    exists f :: Matched(Dedupe(small), Dedupe(large), f)
  }

  lemma EachPartner(small: seq<Word>, large: seq<Word>, t: Word) returns (u: Word)
    requires EachHasPartner(small, large) && t in small
    ensures u in large && SupportedEdits(t, u)
  {
    u :| u in large && SupportedEdits(t, u);
  }

  /** Review-level evidence only: never above 0.82, and every word of the shorter name needs its own partner. */
  lemma MissingTokenNameScoreRange(left: seq<Word>, right: seq<Word>)
    ensures 0.0 <= MissingTokenNameScore(left, right) <= 0.82
    ensures MissingTokenNameScore(left, right) > 0.0 ==>
              && Abs(|Words(left)| - |Words(right)|) == 1
              && Min(|Words(left)|, |Words(right)|) >= 2
              && if |Words(left)| < |Words(right)| then EachHasPartner(left, right) && EachHasOwnPartner(left, right)
                 else EachHasPartner(right, left) && EachHasOwnPartner(right, left)
  {
    var a, b := Dedupe(left), Dedupe(right);
    DedupeSize(left);
    DedupeSize(right);
    if Abs(|a| - |b|) == 1 && Min(|a|, |b|) >= 2 {
      var small, large := if |a| < |b| then a else b, if |a| < |b| then b else a;
      PairingRange(small, large, {});
      if Pairing(small, large, {}).Some? {
        var f := PairingMatches(small, large, {});
        ShareOfWhole(Pairing(small, large, {}).value, |small| as real);
      }
    }
  }

  lemma MissingTokenPair(left: seq<Word>, right: seq<Word>) returns (t: Word, u: Word)
    requires MissingTokenNameScore(left, right) > 0.0
    ensures t in left && u in right && SupportedEdits(t, u)
  {
    MissingTokenNameScoreRange(left, right);
    var first :| first in Words(left);
    var other :| other in Words(right);
    if |Words(left)| < |Words(right)| {
      t := first;
      u := EachPartner(left, right, t);
    } else {
      u := other;
      t := EachPartner(right, left, u);
      SupportedEditsSymmetric(u, t);
    }
  }

  lemma {:induction false} DistinctSize(s: seq<Word>)
    requires Distinct(s)
    ensures |Words(s)| == |s|
  {
    if s != [] {
      var n := |s| - 1;
      DistinctSize(s[..n]);
      assert Words(s) == Words(s[..n]) + {s[n]};
    }
  }

  lemma DedupeSize(s: seq<Word>)
    ensures |Dedupe(s)| == |Words(s)|
  {
    DistinctSize(Dedupe(s));
    assert Words(Dedupe(s)) == Words(s);
  }

  method ComputePairScore(t: Word, u: Word) returns (r: Option<real>)
    ensures r == if SupportedEdits(t, u) then Some(PairScore(t, u)) else None
    ensures r.Some? ==> r.value > 0.0
  {
    var near := WithinSupportedEdits(t, u);
    if !near {
      return None;
    }
    var distance := BoundedEditDistance(t, u, 2);
    SupportedPairScore(t, u);
    return Some(1.0 - distance.value as real / Max(|t|, |u|) as real);
  }

  method FindBestPartner(t: Word, large: seq<Word>, used: set<nat>) returns (best: int, bestScore: real)
    ensures -1 <= best < |large|
    ensures BestPartner(t, large, used, |large|) == if best < 0 then None else Some(Partner(best, bestScore))
  {
    best, bestScore := -1, -1.0;
    for j := 0 to |large|
      invariant -1 <= best < j
      invariant BestPartner(t, large, used, j) == if best < 0 then None else Some(Partner(best, bestScore))
      invariant best < 0 ==> bestScore == -1.0
    {
      if j !in used {
        var score := ComputePairScore(t, large[j]);
        if score.Some? && score.value > bestScore {
          best, bestScore := j, score.value;
        }
      }
    }
  }

  method ComputeMissingTokenNameScore(left: seq<Word>, right: seq<Word>) returns (r: real)
    ensures r == MissingTokenNameScore(left, right)
  {
    var a, b := Dedupe(left), Dedupe(right);
    if Abs(|a| - |b|) != 1 || Min(|a|, |b|) < 2 {
      return 0.0;
    }
    var small, large := if |a| < |b| then a else b, if |a| < |b| then b else a;
    var similarity := ComputePairing(small, large);
    return if similarity.None? then 0.0 else 0.82 * (similarity.value / |small| as real);
  }

  method ComputePairing(small: seq<Word>, large: seq<Word>) returns (r: Option<real>)
    ensures r == Pairing(small, large, {})
  {
    var used: set<nat> := {};
    var similarity := 0.0;
    ghost var goal := Pairing(small, large, {});
    for n := 0 to |small|
      invariant goal == match Pairing(small[n..], large, used)
                        case None => None
                        case Some(rest) => Some(similarity + rest)
    {
      var best, bestScore := FindBestPartner(small[n], large, used);
      assert small[n..][1..] == small[n + 1..];
      if best < 0 {
        return None;
      }
      used, similarity := used + {best}, similarity + bestScore;
    }
    return Some(similarity);
  }
}
