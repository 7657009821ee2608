/**
 * Deletion keys and boundary bigrams (aml/edit-distance.ts, lines 1-20 and 45-62): which tokens an
 * indexed lookup can reach, against which tokens it has to reach.
 */
module EditRetrieval {
  import opened Prelude
  import opened EditDistance

  type Token = string

  const MIN_EDIT_TOKEN := 4
  const MIN_TWO_EDIT_TOKEN := 6
  const MAX_EDIT_TOKEN := 64

  function SupportedEditLimit(t: Token): nat {
    if |t| < MIN_EDIT_TOKEN || |t| > MAX_EDIT_TOKEN then 0
    else if |t| < MIN_TWO_EDIT_TOKEN then 1 else 2
  }

  function Without(t: Token, i: nat): Token
    requires i < |t|
  {
    t[..i] + t[i + 1..]
  }

  function DeletionKeys(t: Token): set<string> {
    if |t| < MIN_EDIT_TOKEN || |t| > MAX_EDIT_TOKEN then {}
    else {t} + set i | 0 <= i < |t| :: Without(t, i)
  }

  function Padded(t: Token): string {
    "^" + t + "$"
  }

  function Bigram(p: string, i: nat): string
    requires i + 1 < |p|
  {
    [p[i], p[i + 1]]
  }

  function BoundaryGrams(t: Token): set<string> {
    set i | 0 <= i < |Padded(t)| - 1 :: Bigram(Padded(t), i)
  }

  function EditGrams(t: Token): set<string> {
    if SupportedEditLimit(t) < 2 then {} else BoundaryGrams(t)
  }

  /** What both match predicates decide, in terms of the distance itself. */
  ghost predicate OneEdit(left: Token, right: Token) {
    left == right || (SupportedEditLimit(left) >= 1 && SupportedEditLimit(right) >= 1 && Osa(left, right) <= 1)
  }

  ghost predicate SupportedEdits(left: Token, right: Token) {
    var limit := Min(SupportedEditLimit(left), SupportedEditLimit(right));
    left == right || (limit > 0 && Osa(left, right) <= limit)
  }

  method WithinOneEdit(left: Token, right: Token) returns (r: bool)
    ensures r <==> OneEdit(left, right)
  {
    if left == right {
      return true;
    }
    if SupportedEditLimit(left) < 1 || SupportedEditLimit(right) < 1 {
      return false;
    }
    var distance := BoundedEditDistance(left, right, 1);
    return distance.value <= 1;
  }

  method WithinSupportedEdits(left: Token, right: Token) returns (r: bool)
    ensures r <==> SupportedEdits(left, right)
  {
    if left == right {
      return true;
    }
    var limit := Min(SupportedEditLimit(left), SupportedEditLimit(right));
    if limit == 0 {
      return false;
    }
    var distance := BoundedEditDistance(left, right, limit);
    return distance.value <= limit;
  }

  lemma SupportedEditsSymmetric(left: Token, right: Token)
    ensures SupportedEdits(left, right) <==> SupportedEdits(right, left)
  {
    OsaIsSymmetric(left, right);
  }

  // ---------- One edit: a shared deletion key ----------

  lemma {:induction false} FreeScriptCopies(s: seq<Edit>)
    requires Cost(s) == 0
    ensures Source(s) == Target(s)
  {
    if s != [] {
      FreeScriptCopies(s[..|s| - 1]);
    }
  }

  /** A script of at most one priced step is a common prefix, one step and a common suffix. */
  lemma {:induction false} OneStepShape(s: seq<Edit>) returns (p: string, e: Edit, q: string)
    requires s != [] && Cost(s) <= 1
    ensures Source(s) == p + e.Left() + q
    ensures Target(s) == p + e.Right() + q
  {
    var rest, last := s[..|s| - 1], s[|s| - 1];
    if Cost(rest) == 0 {
      FreeScriptCopies(rest);
      p, e, q := Source(rest), last, "";
    } else {
      p, e, q := OneStepShape(rest);
      assert p + e.Left() + (q + [last.c]) == p + e.Left() + q + [last.c];
      assert p + e.Right() + (q + [last.c]) == p + e.Right() + q + [last.c];
      q := q + [last.c];
    }
  }

  lemma DropMiddle(p: string, c: char, q: string)
    ensures Without(p + [c] + q, |p|) == p + q
  {
  }

  lemma SwapDrops(p: string, x: char, y: char, q: string)
    ensures Without(p + [x, y] + q, |p|) == p + [y] + q == Without(p + [y, x] + q, |p| + 1)
  {
  }

  lemma WithoutIsKey(t: Token, i: nat)
    requires SupportedEditLimit(t) >= 1 && i < |t|
    ensures Without(t, i) in DeletionKeys(t) && t in DeletionKeys(t)
  {
  }

  /** One step applied between p and q leaves a common key behind. */
  lemma StepLeavesKey(p: string, e: Edit, q: string) returns (key: string)
    requires SupportedEditLimit(p + e.Left() + q) >= 1 && SupportedEditLimit(p + e.Right() + q) >= 1
    ensures key in DeletionKeys(p + e.Left() + q) && key in DeletionKeys(p + e.Right() + q)
  {
    match e {
      case Keep(c) => key := p + [c] + q;
      case Substitute(x, y) =>
        DropsOne(p, x, q);
        DropsOne(p, y, q);
        key := p + q;
      case Insert(c) =>
        DropsOne(p, c, q);
        NothingBetween(p, q);
        key := p + q;
      case Delete(c) =>
        DropsOne(p, c, q);
        NothingBetween(p, q);
        key := p + q;
      case Swap(x, y) => key := SwapLeavesKey(p, x, y, q);
    }
  }

  lemma NothingBetween(p: string, q: string)
    requires SupportedEditLimit(p + [] + q) >= 1
    ensures p + q in DeletionKeys(p + [] + q)
  {
    assert p + [] + q == p + q;
  }

  lemma DropsOne(p: string, c: char, q: string)
    requires SupportedEditLimit(p + [c] + q) >= 1
    ensures p + q in DeletionKeys(p + [c] + q)
  {
    WithoutIsKey(p + [c] + q, |p|);
    DropMiddle(p, c, q);
  }

  lemma SwapLeavesKey(p: string, x: char, y: char, q: string) returns (key: string)
    requires SupportedEditLimit(p + [x, y] + q) >= 1 && SupportedEditLimit(p + [y, x] + q) >= 1
    ensures key in DeletionKeys(p + [x, y] + q) && key in DeletionKeys(p + [y, x] + q)
  {
    WithoutIsKey(p + [x, y] + q, |p|);
    WithoutIsKey(p + [y, x] + q, |p| + 1);
    SwapDrops(p, x, y, q);
    key := p + [y] + q;
  }

  /** Tokens one supported edit apart meet in the deletion index. */
  lemma OneEditSharesDeletionKey(a: Token, b: Token) returns (key: string)
    requires SupportedEditLimit(a) >= 1 && SupportedEditLimit(b) >= 1 && Osa(a, b) <= 1
    ensures key in DeletionKeys(a) && key in DeletionKeys(b)
  {
    var s := OsaIsAttained(a, b);
    var p, e, q := OneStepShape(s);
    key := StepLeavesKey(p, e, q);
  }

  // ---------- Two edits: a shared boundary bigram ----------

  /** A script behind one more first step. */
  ghost predicate Prepends(e: Edit, s: seq<Edit>, longer: seq<Edit>) {
    && Source(longer) == e.Left() + Source(s) && Target(longer) == e.Right() + Target(s)
    && Cost(longer) == e.Price() + Cost(s)
  }

  lemma PrependsNothing(e: Edit)
    ensures Prepends(e, [], [e])
  {
    SplitLast([], e);
    assert [] + [e] == [e];
  }

  lemma PrependsBefore(e: Edit, rest: seq<Edit>, longer: seq<Edit>, last: Edit)
    requires Prepends(e, rest, longer)
    ensures Prepends(e, rest + [last], longer + [last])
  {
    SplitLast(longer, last);
    SplitLast(rest, last);
    Regroup(e.Left(), Source(rest), last.Left());
    Regroup(e.Right(), Target(rest), last.Right());
  }

  lemma {:induction false} PrependStep(e: Edit, s: seq<Edit>)
    ensures Prepends(e, s, [e] + s)
  {
    if s == [] {
      PrependsNothing(e);
      assert [e] + s == [e];
    } else {
      var n := |s| - 1;
      PrependStep(e, s[..n]);
      PrependsBefore(e, s[..n], [e] + s[..n], s[n]);
      Rejoin(e, s);
    }
  }

  lemma Rejoin(e: Edit, s: seq<Edit>)
    requires s != []
    ensures var n := |s| - 1; s[..n] + [s[n]] == s && [e] + s[..n] + [s[n]] == [e] + s
  {
  }

  /** The alignment of the padded tokens: both markers are kept. */
  function PadScript(s: seq<Edit>): seq<Edit> {
    [Keep('^')] + s + [Keep('$')]
  }

  lemma PadScriptAligns(s: seq<Edit>, a: Token, b: Token)
    requires Aligns(s, a, b)
    ensures Aligns(PadScript(s), Padded(a), Padded(b)) && Cost(PadScript(s)) == Cost(s)
  {
    PrependStep(Keep('^'), s);
    SplitLast([Keep('^')] + s, Keep('$'));
  }

  ghost predicate KeptPair(s: seq<Edit>, i: nat) {
    i + 1 < |s| && s[i].Keep? && s[i + 1].Keep?
  }

  /**
   * Pigeonhole: between two kept steps that are not neighbours stands a priced step, and a priced
   * step covers at most two code points.
   */
  lemma {:induction false} NoKeptPairIsShort(s: seq<Edit>)
    requires forall i: nat :: !KeptPair(s, i)
    ensures |Source(s)| <= 3 * Cost(s) + if s != [] && s[|s| - 1].Keep? then 1 else 0
  {
    if s != [] {
      var rest := s[..|s| - 1];
      forall i: nat ensures !KeptPair(rest, i) {
        assert KeptPair(rest, i) ==> KeptPair(s, i);
      }
      NoKeptPairIsShort(rest);
      if |s| > 1 {
        assert !KeptPair(s, |s| - 2);
      }
    }
  }

  lemma {:induction false} EndsOfPrefix(s: seq<Edit>, k: nat)
    requires k <= |s|
    ensures Source(s[..k]) <= Source(s) && Target(s[..k]) <= Target(s)
  {
    if k < |s| {
      EndsOfPrefix(s[..|s| - 1], k);
      assert s[..|s| - 1][..k] == s[..k];
    } else {
      assert s[..k] == s;
    }
  }

  lemma KeptPairIsShared(s: seq<Edit>, i: nat) returns (j: nat, k: nat)
    requires KeptPair(s, i)
    ensures j + 1 < |Source(s)| && k + 1 < |Target(s)|
    ensures Bigram(Source(s), j) == Bigram(Target(s), k)
  {
    var head := s[..i];
    SplitLast(head, s[i]);
    SplitLast(head + [s[i]], s[i + 1]);
    assert s[..i + 2] == head + [s[i]] + [s[i + 1]];
    EndsOfPrefix(s, i + 2);
    j, k := |Source(head)|, |Target(head)|;
    LastTwo(Source(head), s[i].c, s[i + 1].c, Source(s));
    LastTwo(Target(head), s[i].c, s[i + 1].c, Target(s));
  }

  lemma LastTwo(head: string, x: char, y: char, whole: string)
    requires head + [x] + [y] <= whole
    ensures |head| + 1 < |whole| && whole[|head|] == x && whole[|head| + 1] == y
  {
    assert (head + [x] + [y])[|head|] == x && (head + [x] + [y])[|head| + 1] == y;
  }

  /** k edits leave a boundary bigram alive in every token of at least 3k code points. */
  lemma FewEditsShareBigram(a: Token, b: Token) returns (gram: string)
    requires |a| >= 3 * Osa(a, b)
    ensures gram in BoundaryGrams(a) && gram in BoundaryGrams(b)
  {
    var s := OsaIsAttained(a, b);
    PadScriptAligns(s, a, b);
    var padded := PadScript(s);
    if forall i: nat :: !KeptPair(padded, i) {
      NoKeptPairIsShort(padded);
      assert false;
    }
    var i: nat :| KeptPair(padded, i);
    var j, k := KeptPairIsShared(padded, i);
    gram := Bigram(Padded(a), j);
    assert gram == Bigram(Padded(b), k);
  }

  /** The two-edit index admits tokens from length MIN_TWO_EDIT_TOKEN on: enough for every one of them. */
  lemma TwoEditsShareGram(a: Token, b: Token) returns (gram: string)
    requires SupportedEditLimit(a) == 2 && SupportedEditLimit(b) == 2 && Osa(a, b) <= 2
    ensures gram in EditGrams(a) && gram in EditGrams(b)
  {
    gram := FewEditsShareBigram(a, b);
  }

  // ---------- The bound 3k cannot be lowered ----------

  function Cycle(x: char, y: char, z: char, n: nat): string {
    seq(n, i requires 0 <= i => if i % 3 == 0 then x else if i % 3 == 1 then y else z)
  }

  lemma CycleGrows(x: char, y: char, z: char, n: nat)
    requires n % 3 == 2
    ensures Cycle(x, y, z, n + 3) == Cycle(x, y, z, n) + [z] + [x, y]
  {
    var more, longer := Cycle(x, y, z, n) + [z] + [x, y], Cycle(x, y, z, n + 3);
    assert longer[n] == z && longer[n + 1] == x && longer[n + 2] == y;
    assert forall i :: 0 <= i < n + 3 ==> longer[i] == more[i];
  }

  /** A cost that starts at one and grows by at most one every three code points. */
  lemma {:induction false} OneEveryThree(cost: nat -> nat, k: nat)
    requires k >= 1 && cost(2) <= 1 && forall n: nat :: n % 3 == 2 ==> cost(n + 3) <= cost(n) + 1
    ensures cost(3 * k - 1) <= k
  {
    if k > 1 {
      OneEveryThree(cost, k - 1);
      assert cost(3 * (k - 1) - 1 + 3) <= cost(3 * (k - 1) - 1) + 1;
    }
  }

  lemma SwapsAreCheap(k: nat)
    requires k >= 1
    ensures Osa(Cycle('a', 'b', 'c', 3 * k - 1), Cycle('b', 'a', 'c', 3 * k - 1)) <= k
  {
    var cost := (n: nat) => Osa(Cycle('a', 'b', 'c', n), Cycle('b', 'a', 'c', n));
    forall n: nat | n % 3 == 2 ensures cost(n + 3) <= cost(n) + 1 {
      OneMoreSwap(n);
    }
    OneSwap();
    ShortCycles();
    OneEveryThree(cost, k);
  }

  lemma OneMoreSwap(n: nat)
    requires n % 3 == 2
    ensures Osa(Cycle('a', 'b', 'c', n + 3), Cycle('b', 'a', 'c', n + 3))
            <= Osa(Cycle('a', 'b', 'c', n), Cycle('b', 'a', 'c', n)) + 1
  {
    CycleGrows('a', 'b', 'c', n);
    CycleGrows('b', 'a', 'c', n);
    KeepThenSwap(Cycle('a', 'b', 'c', n), Cycle('b', 'a', 'c', n));
  }

  lemma ShortCycles()
    ensures Cycle('a', 'b', 'c', 2) == "ab" && Cycle('b', 'a', 'c', 2) == "ba"
  {
  }

  lemma OneSwap()
    ensures Osa("ab", "ba") <= 1
  {
    OsaSwapStep("", "", 'a', 'b');
    assert "" + ['a', 'b'] == "ab" && "" + ['b', 'a'] == "ba";
  }

  lemma KeepThenSwap(a: string, b: string)
    ensures Osa(a + ['c'] + ['a', 'b'], b + ['c'] + ['b', 'a']) <= Osa(a, b) + 1
  {
    StepAddsItsPrice(a, b, Keep('c'));
    StepAddsItsPrice(a + ['c'], b + ['c'], Swap('a', 'b'));
  }

  /** Which code point may follow which in a padded cycle. */
  ghost predicate Follows(x: char, y: char, z: char, gram: string) {
    && |gram| == 2
    && gram[0] in ['^', x, y, z]
    && (gram[0] == '^' || gram[0] == z ==> gram[1] == x)
    && (gram[0] == x ==> gram[1] == y)
    && (gram[0] == y ==> gram[1] == z || gram[1] == '$')
  }

  lemma CycleGrams(x: char, y: char, z: char, n: nat, gram: string)
    requires n % 3 == 2 && x != y && y != z && x != z && '^' !in [x, y, z]
    requires gram in BoundaryGrams(Cycle(x, y, z, n))
    ensures Follows(x, y, z, gram)
  {
    var p := Padded(Cycle(x, y, z, n));
    var i :| 0 <= i < |p| - 1 && gram == Bigram(p, i);
    assert 1 <= i ==> p[i] == Cycle(x, y, z, n)[i - 1];
    assert i < n ==> p[i + 1] == Cycle(x, y, z, n)[i];
  }

  lemma CyclesDiffer(n: nat, gram: string)
    requires n % 3 == 2
    ensures !(gram in BoundaryGrams(Cycle('a', 'b', 'c', n)) && gram in BoundaryGrams(Cycle('b', 'a', 'c', n)))
  {
    if gram in BoundaryGrams(Cycle('a', 'b', 'c', n)) && gram in BoundaryGrams(Cycle('b', 'a', 'c', n)) {
      CycleGrams('a', 'b', 'c', n, gram);
      CycleGrams('b', 'a', 'c', n, gram);
      assert false;
    }
  }

  /** One code point below 3k, k edits can destroy every boundary bigram; for k = 2 that is length 5. */
  lemma ShorterTokensCanShareNothing(k: nat) returns (a: Token, b: Token)
    requires k >= 1
    ensures |a| == |b| == 3 * k - 1 && Osa(a, b) <= k
    ensures BoundaryGrams(a) !! BoundaryGrams(b)
  {
    var n := 3 * k - 1;
    a, b := Cycle('a', 'b', 'c', n), Cycle('b', 'a', 'c', n);
    SwapsAreCheap(k);
    forall gram ensures !(gram in BoundaryGrams(a) && gram in BoundaryGrams(b)) {
      CyclesDiffer(n, gram);
    }
  }

  /** MIN_TWO_EDIT_TOKEN is the least length from which two edits always leave a shared bigram. */
  lemma MinTwoEditTokenIsLeast(n: nat)
    requires n >= 1
    ensures n >= MIN_TWO_EDIT_TOKEN <==>
            forall a: Token, b: Token :: |a| >= n && |b| >= n && Osa(a, b) <= 2 ==>
                BoundaryGrams(a) * BoundaryGrams(b) != {}
  {
    if n >= MIN_TWO_EDIT_TOKEN {
      forall a: Token, b: Token | |a| >= n && |b| >= n && Osa(a, b) <= 2
        ensures BoundaryGrams(a) * BoundaryGrams(b) != {}
      {
        var gram := FewEditsShareBigram(a, b);
        assert gram in BoundaryGrams(a) * BoundaryGrams(b);
      }
    } else {
      var a, b := ShorterTokensCanShareNothing(2);
      assert BoundaryGrams(a) * BoundaryGrams(b) == {};
    }
  }

  // ---------- Together ----------

  /** A vocabulary token the lookup for `query` visits and accepts. */
  ghost predicate Retrieved(query: Token, near: Token) {
    || query == near
    || (DeletionKeys(query) * DeletionKeys(near) != {} && OneEdit(query, near))
    || (EditGrams(query) * EditGrams(near) != {} && SupportedEdits(query, near))
  }

  /** The two indexes lose nothing and admit nothing extra. */
  lemma RetrievalIsExact(query: Token, near: Token)
    ensures Retrieved(query, near) <==> SupportedEdits(query, near)
  {
    if SupportedEdits(query, near) && query != near {
      if Osa(query, near) <= 1 {
        var key := OneEditSharesDeletionKey(query, near);
        assert key in DeletionKeys(query) * DeletionKeys(near);
      } else {
        var gram := TwoEditsShareGram(query, near);
        assert gram in EditGrams(query) * EditGrams(near);
      }
    }
  }
}
