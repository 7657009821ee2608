/**
 * Bounded optimal-string-alignment distance (aml/edit-distance.ts, lines 22-43).
 * A token is the sequence of its code points after recomposition.
 */
module EditDistance {
  import opened Prelude

  // ---------- Reference definition: edit scripts ----------

  /** One step of an alignment. Steps never overlap, so a swapped pair is not edited again. */
  datatype Edit =
    | Keep(c: char)
    | Substitute(from: char, to: char)
    | Insert(c: char)
    | Delete(c: char)
    | Swap(first: char, second: char)
  {
    function Left(): string {
      match this
      case Keep(c) => [c]
      case Substitute(x, _) => [x]
      case Insert(_) => []
      case Delete(c) => [c]
      case Swap(x, y) => [x, y]
    }

    function Right(): string {
      match this
      case Keep(c) => [c]
      case Substitute(_, y) => [y]
      case Insert(c) => [c]
      case Delete(_) => []
      case Swap(x, y) => [y, x]
    }

    function Price(): nat {
      if Keep? then 0 else 1
    }

    function Mirror(): Edit {
      match this
      case Keep(c) => Keep(c)
      case Substitute(x, y) => Substitute(y, x)
      case Insert(c) => Delete(c)
      case Delete(c) => Insert(c)
      case Swap(x, y) => Swap(y, x)
    }
  }

  /** The string a script starts from. */
  function Source(s: seq<Edit>): string {
    if s == [] then "" else Source(s[..|s| - 1]) + s[|s| - 1].Left()
  }

  /** The string a script produces. */
  function Target(s: seq<Edit>): string {
    if s == [] then "" else Target(s[..|s| - 1]) + s[|s| - 1].Right()
  }

  function Cost(s: seq<Edit>): nat {
    if s == [] then 0 else Cost(s[..|s| - 1]) + s[|s| - 1].Price()
  }

  ghost predicate Aligns(s: seq<Edit>, a: string, b: string) {
    Source(s) == a && Target(s) == b
  }

  // ---------- The recurrence the matrix evaluates ----------

  function Osa(a: string, b: string): nat
    decreases |a| + |b|
  {
    var n, m := |a|, |b|;
    if n == 0 then m
    else if m == 0 then n
    else
      var edited := Min(Min(Osa(a[..n - 1], b), Osa(a, b[..m - 1])) + 1,
                        Osa(a[..n - 1], b[..m - 1]) + if a[n - 1] == b[m - 1] then 0 else 1);
      if n > 1 && m > 1 && a[n - 1] == b[m - 2] && a[n - 2] == b[m - 1]
      then Min(edited, Osa(a[..n - 2], b[..m - 2]) + 1)
      else edited
  }

  lemma {:induction false} SplitLast(s: seq<Edit>, e: Edit)
    ensures Source(s + [e]) == Source(s) + e.Left()
    ensures Target(s + [e]) == Target(s) + e.Right()
    ensures Cost(s + [e]) == Cost(s) + e.Price()
  {
    assert (s + [e])[..|s|] == s;
  }

  lemma OsaOneStep(a: string, b: string, x: char, y: char)
    ensures Osa(a + [x], b) <= Osa(a, b) + 1
    ensures Osa(a, b + [y]) <= Osa(a, b) + 1
    ensures Osa(a + [x], b + [y]) <= Osa(a, b) + if x == y then 0 else 1
  {
    assert (a + [x])[..|a|] == a && (b + [y])[..|b|] == b;
  }

  lemma OsaSwapStep(a: string, b: string, x: char, y: char)
    ensures Osa(a + [x, y], b + [y, x]) <= Osa(a, b) + 1
  {
    assert (a + [x, y])[..|a|] == a && (b + [y, x])[..|b|] == b;
  }

  /** Every step adds at most its price to the recurrence. */
  lemma StepAddsItsPrice(a: string, b: string, e: Edit)
    ensures Osa(a + e.Left(), b + e.Right()) <= Osa(a, b) + e.Price()
  {
    match e {
      case Keep(c) => OsaOneStep(a, b, c, c);
      case Substitute(x, y) => OsaOneStep(a, b, x, y);
      case Insert(c) => OsaOneStep(a, b, c, c); assert a + [] == a;
      case Delete(c) => OsaOneStep(a, b, c, c); assert b + [] == b;
      case Swap(x, y) => OsaSwapStep(a, b, x, y);
    }
  }

  /** No script is cheaper than the recurrence. */
  lemma {:induction false} OsaIsLowerBound(s: seq<Edit>)
    ensures Osa(Source(s), Target(s)) <= Cost(s)
  {
    if s != [] {
      OsaIsLowerBound(s[..|s| - 1]);
      StepAddsItsPrice(Source(s[..|s| - 1]), Target(s[..|s| - 1]), s[|s| - 1]);
    }
  }

  ghost predicate EndsInSwap(a: string, b: string) {
    |a| > 1 && |b| > 1 && a[|a| - 1] == b[|b| - 2] && a[|a| - 2] == b[|b| - 1]
  }

  lemma OsaChoices(a: string, b: string)
    requires a != "" || b != ""
    ensures var n, m := |a|, |b|;
            || (n > 0 && Osa(a, b) == Osa(a[..n - 1], b) + 1)
            || (m > 0 && Osa(a, b) == Osa(a, b[..m - 1]) + 1)
            || (n > 0 && m > 0 && Osa(a, b) == Osa(a[..n - 1], b[..m - 1]) + if a[n - 1] == b[m - 1] then 0 else 1)
            || (EndsInSwap(a, b) && Osa(a, b) == Osa(a[..n - 2], b[..m - 2]) + 1)
  {
  }

  /** Appends a step to an alignment of what remains when its two sides are cut off the ends. */
  lemma Append(s: seq<Edit>, e: Edit, a': string, b': string)
    requires Aligns(s, a', b')
    ensures Aligns(s + [e], a' + e.Left(), b' + e.Right())
    ensures Cost(s + [e]) == Cost(s) + e.Price()
  {
    SplitLast(s, e);
  }

  lemma Cut(a: string, k: nat)
    requires k <= |a|
    ensures a == a[..|a| - k] + a[|a| - k..]
    ensures k == 1 ==> a[|a| - k..] == [a[|a| - 1]]
    ensures k == 2 ==> a[|a| - k..] == [a[|a| - 2], a[|a| - 1]]
  {
  }

  /** The last step of a cheapest script. */
  lemma LastEdit(a: string, b: string) returns (x: string, y: string, e: Edit)
    requires a != "" || b != ""
    ensures a == x + e.Left() && b == y + e.Right() && |x| + |y| < |a| + |b|
    ensures Osa(a, b) == Osa(x, y) + e.Price()
  {
    var n, m := |a|, |b|;
    OsaChoices(a, b);
    if n > 0 && Osa(a, b) == Osa(a[..n - 1], b) + 1 {
      Cut(a, 1);
      x, y, e := a[..n - 1], b, Delete(a[n - 1]);
    } else if m > 0 && Osa(a, b) == Osa(a, b[..m - 1]) + 1 {
      Cut(b, 1);
      x, y, e := a, b[..m - 1], Insert(b[m - 1]);
    } else if EndsInSwap(a, b) && Osa(a, b) == Osa(a[..n - 2], b[..m - 2]) + 1 {
      Cut(a, 2);
      Cut(b, 2);
      x, y, e := a[..n - 2], b[..m - 2], Swap(a[n - 2], a[n - 1]);
    } else {
      Cut(a, 1);
      Cut(b, 1);
      x, y := a[..n - 1], b[..m - 1];
      e := if a[n - 1] == b[m - 1] then Keep(a[n - 1]) else Substitute(a[n - 1], b[m - 1]);
    }
  }

  /** Some script attains the recurrence. */
  lemma {:induction false} OsaIsAttained(a: string, b: string) returns (s: seq<Edit>)
    ensures Aligns(s, a, b) && Cost(s) == Osa(a, b)
    decreases |a| + |b|
  {
    if a == "" && b == "" {
      return [];
    }
    var x, y, e := LastEdit(a, b);
    var rest := OsaIsAttained(x, y);
    Append(rest, e, x, y);
    s := rest + [e];
  }

  /** The recurrence is the least cost of any non-overlapping alignment. */
  lemma OsaIsMinimum(a: string, b: string)
    ensures exists s :: Aligns(s, a, b) && Cost(s) == Osa(a, b)
    ensures forall s :: Aligns(s, a, b) ==> Osa(a, b) <= Cost(s)
  {
    var s := OsaIsAttained(a, b);
    forall t | Aligns(t, a, b) ensures Osa(a, b) <= Cost(t) {
      OsaIsLowerBound(t);
    }
  }

  function MirrorAll(s: seq<Edit>): seq<Edit> {
    if s == [] then [] else MirrorAll(s[..|s| - 1]) + [s[|s| - 1].Mirror()]
  }

  lemma MirrorSwapsSides(e: Edit)
    ensures e.Mirror().Left() == e.Right() && e.Mirror().Right() == e.Left() && e.Mirror().Price() == e.Price()
  {
  }

  lemma {:induction false} MirrorSwapsEnds(s: seq<Edit>)
    ensures Aligns(MirrorAll(s), Target(s), Source(s)) && Cost(MirrorAll(s)) == Cost(s)
  {
    if s != [] {
      var rest, last := s[..|s| - 1], s[|s| - 1];
      MirrorSwapsEnds(rest);
      MirrorSwapsSides(last);
      SplitLast(MirrorAll(rest), last.Mirror());
    }
  }

  /** Symmetry holds although the distance is not a metric. */
  lemma {:induction false} OsaIsSymmetric(a: string, b: string)
    ensures Osa(a, b) == Osa(b, a)
  {
    var s := OsaIsAttained(a, b);
    var t := OsaIsAttained(b, a);
    MirrorSwapsEnds(s);
    MirrorSwapsEnds(t);
    OsaIsLowerBound(MirrorAll(s));
    OsaIsLowerBound(MirrorAll(t));
  }

  lemma {:induction false} CostCoversLengthChange(s: seq<Edit>)
    ensures Abs(|Source(s)| - |Target(s)|) <= Cost(s)
  {
    if s != [] {
      CostCoversLengthChange(s[..|s| - 1]);
    }
  }

  lemma {:induction false} LengthGapBoundsOsa(a: string, b: string)
    ensures Abs(|a| - |b|) <= Osa(a, b) <= Max(|a|, |b|)
  {
    var s := OsaIsAttained(a, b);
    CostCoversLengthChange(s);
    OsaAtMostLonger(a, b);
  }

  lemma {:induction false} OsaAtMostLonger(a: string, b: string)
    ensures Osa(a, b) <= Max(|a|, |b|)
    decreases |a| + |b|
  {
    if |a| > 0 && |b| > 0 {
      OsaAtMostLonger(a[..|a| - 1], b[..|b| - 1]);
    }
  }

  lemma {:induction false} OsaZeroIffEqual(a: string, b: string)
    ensures Osa(a, b) == 0 <==> a == b
    decreases |a| + |b|
  {
    if |a| > 0 && |b| > 0 {
      OsaZeroIffEqual(a[..|a| - 1], b[..|b| - 1]);
      assert a == a[..|a| - 1] + [a[|a| - 1]];
      assert b == b[..|b| - 1] + [b[|b| - 1]];
    }
  }

  // ---------- The matrix loop ----------

  /** A table of the recurrence over the prefixes of a and b. */
  ghost predicate Solves(cell: (int, int) -> int, a: string, b: string) {
    && (forall i :: 0 <= i <= |a| ==> cell(i, 0) == i)
    && (forall j :: 0 <= j <= |b| ==> cell(0, j) == j)
    && (forall i, j {:trigger Next(cell, a, b, i, j)} :: 1 <= i <= |a| && 1 <= j <= |b| ==>
        cell(i, j) == Next(cell, a, b, i, j))
  }

  ghost function Next(cell: (int, int) -> int, a: string, b: string, i: int, j: int): int
    requires 1 <= i <= |a| && 1 <= j <= |b|
  {
    var edited := Min(Min(cell(i - 1, j) + 1, cell(i, j - 1) + 1), cell(i - 1, j - 1) + if a[i - 1] == b[j - 1] then 0
        else 1);
    if i > 1 && j > 1 && a[i - 1] == b[j - 2] && a[i - 2] == b[j - 1]
    then Min(edited, cell(i - 2, j - 2) + 1) else edited
  }

  ghost function Prefixes(a: string, b: string): (int, int) -> int {
    (i: int, j: int) => if 0 <= i <= |a| && 0 <= j <= |b| then Osa(a[..i], b[..j]) else 0
  }

  lemma PrefixesFollow(a: string, b: string, i: int, j: int)
    requires 1 <= i <= |a| && 1 <= j <= |b|
    ensures Prefixes(a, b)(i, j) == Next(Prefixes(a, b), a, b, i, j)
  {
    var x, y := a[..i], b[..j];
    assert x[..i - 1] == a[..i - 1] && y[..j - 1] == b[..j - 1];
    if i > 1 && j > 1 {
      assert x[..i - 2] == a[..i - 2] && y[..j - 2] == b[..j - 2];
    }
  }

  lemma PrefixesSolve(a: string, b: string)
    ensures Solves(Prefixes(a, b), a, b) && Prefixes(a, b)(|a|, |b|) == Osa(a, b)
  {
    assert a[..|a|] == a && b[..|b|] == b;
    forall i, j | 1 <= i <= |a| && 1 <= j <= |b| ensures Prefixes(a, b)(i, j) == Next(Prefixes(a, b), a, b, i, j) {
      PrefixesFollow(a, b, i, j);
    }
  }

  /** Rows up to the given one hold the table; the first column is numbered. */
  ghost predicate RowsSolved(rows: array2<int>, cell: (int, int) -> int, a: string, b: string, count: int)
    reads rows
  {
    && rows.Length0 == |a| + 1 && rows.Length1 == |b| + 1
    && (forall k :: 0 <= k <= |a| ==> rows[k, 0] == k)
    && (forall k, j :: 0 <= k < count && k <= |a| && 0 <= j <= |b| ==> rows[k, j] == cell(k, j))
  }

  method FillEdges(a: string, b: string, ghost cell: (int, int) -> int) returns (rows: array2<int>)
    requires Solves(cell, a, b)
    ensures fresh(rows) && RowsSolved(rows, cell, a, b, 1)
  {
    rows := new int[|a| + 1, |b| + 1]((i, j) => 0);
    for i := 0 to |a| + 1
      invariant forall k :: 0 <= k < i ==> rows[k, 0] == k
    {
      rows[i, 0] := i;
    }
    for j := 0 to |b| + 1
      invariant forall k :: 0 <= k <= |a| ==> rows[k, 0] == k
      invariant forall k :: 0 <= k < j ==> rows[0, k] == k
    {
      rows[0, j] := j;
    }
  }

  method LeastCost(rows: array2<int>, a: string, b: string, i: int, j: int, ghost cell: (int, int) -> int)
      returns (least: int)
    requires 1 <= i <= |a| && 1 <= j <= |b| && Solves(cell, a, b) && RowsSolved(rows, cell, a, b, i)
    requires rows[i, j - 1] == cell(i, j - 1)
    ensures least == cell(i, j)
  {
    assert cell(i, j) == Next(cell, a, b, i, j);
    var substitution := rows[i - 1, j - 1] + if a[i - 1] == b[j - 1] then 0 else 1;
    least := Min(Min(rows[i - 1, j] + 1, rows[i, j - 1] + 1), substitution);
    if i > 1 && j > 1 && a[i - 1] == b[j - 2] && a[i - 2] == b[j - 1] {
      least := Min(least, rows[i - 2, j - 2] + 1);
    }
  }

  method FillRow(rows: array2<int>, a: string, b: string, i: int, maxDistance: nat, ghost cell: (int, int) -> int)
      returns (rowMin: int)
    requires 1 <= i <= |a| && Solves(cell, a, b) && RowsSolved(rows, cell, a, b, i)
    modifies rows
    ensures RowsSolved(rows, cell, a, b, i + 1)
  {
    rowMin := maxDistance + 1;
    for j := 1 to |b| + 1
      invariant RowsSolved(rows, cell, a, b, i)
      invariant forall k :: 0 <= k < j ==> rows[i, k] == cell(i, k)
    {
      var least := LeastCost(rows, a, b, i, j, cell);
      rows[i, j] := least;
      if Abs(i - j) <= maxDistance {
        rowMin := Min(rowMin, least);
      }
    }
  }

  /** Fills the matrix; the corner it returns is the corner of the solved table. */
  method FillMatrix(a: string, b: string, maxDistance: nat, ghost cell: (int, int) -> int) returns (corner: int)
    requires Solves(cell, a, b)
    requires Abs(|a| - |b|) <= maxDistance
    ensures corner == cell(|a|, |b|)
  {
    var rows := FillEdges(a, b, cell);
    for i := 1 to |a| + 1
      invariant RowsSolved(rows, cell, a, b, i)
    {
      var rowMin := FillRow(rows, a, b, i, maxDistance, cell);
      if rowMin > maxDistance && i > |b| + maxDistance {
        // The program would return early here; the length check before the matrix makes the branch dead.
        assert false;
      }
    }
    return rows[|a|, |b|];
  }

  /**
   * Distance capped at one above the bound. The bound is a JavaScript number, so an unsafe or
   * negative one is refused.
   */
  method BoundedEditDistance(a: string, b: string, maxDistance: int) returns (r: Result<nat, string>)
    ensures r == if 0 <= maxDistance <= MAX_SAFE_INTEGER then Ok(Min(Osa(a, b), maxDistance + 1))
                 else Err("invalid edit-distance bound")
  {
    if maxDistance > MAX_SAFE_INTEGER || maxDistance < 0 {
      return Err("invalid edit-distance bound");
    }
    LengthGapBoundsOsa(a, b);
    if Abs(|a| - |b|) > maxDistance {
      return Ok(maxDistance + 1);
    }
    PrefixesSolve(a, b);
    var corner := FillMatrix(a, b, maxDistance, Prefixes(a, b));
    return Ok(Min(corner, maxDistance + 1));
  }
}
