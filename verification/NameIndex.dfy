/**
 * The name index and its lookup (aml/match.ts, lines 48-166). List names arrive normalised and
 * tokenised; the capacity limits are taken as never reached.
 */
module NameIndex {
  import opened Prelude
  import opened Sorting
  import opened EditDistance
  import opened EditRetrieval
  import opened NameScores

  datatype ListedName = ListedName(norm: string, tokens: seq<Word>)

  /** A sanctions entry, reduced to its names; the first is the primary name. */
  datatype Listing = Listing(names: seq<ListedName>)

  datatype IndexedName = IndexedName(entryIdx: nat, norm: string, tokens: seq<Word>, isAlias: bool)

  datatype Corpus = Corpus(
    names: seq<IndexedName>,
    byToken: map<Word, seq<nat>>,
    byDeletion: map<string, seq<Word>>,
    byGram: map<string, seq<Word>>)

  datatype MatchType = Exact | Fuzzy | Alias | Romanized | Wallet

  datatype Candidate = Candidate(entryIdx: nat, matchedName: string, score: real, matchType: MatchType)

  // ---------- Posting lists ----------

  function Posted<K, V>(index: map<K, seq<V>>, k: K, v: V): map<K, seq<V>> {
    index[k := (if k in index then index[k] else []) + [v]]
  }

  ghost predicate Lists<K, V>(index: map<K, seq<V>>, k: K, v: V) {
    k in index && v in index[k]
  }

  lemma PostedAdds<K(!new), V(!new)>(index: map<K, seq<V>>, k: K, v: V)
    ensures forall k': K, v': V :: Lists(Posted(index, k, v), k', v') <==> Lists(index, k', v') || (k' == k && v' == v)
  {
  }

  // ---------- What the index must contain ----------

  ghost predicate Usable(entries: seq<Listing>, ei: nat, ni: nat) {
    ei < |entries| && ni < |entries[ei].names|
    && entries[ei].names[ni].norm != "" && entries[ei].names[ni].tokens != []
  }

  ghost function NameAt(entries: seq<Listing>, ei: nat, ni: nat): IndexedName
    requires Usable(entries, ei, ni)
  {
    var name := entries[ei].names[ni];
    IndexedName(ei, name.norm, name.tokens, ni > 0)
  }

  ghost predicate Earlier(ei: nat, ni: nat, i: nat, j: nat) {
    ei < i || (ei == i && ni < j)
  }

  /** The indexed names are the usable list names met before name j of entry i. */
  ghost predicate NamesBefore(entries: seq<Listing>, names: seq<IndexedName>, i: nat, j: nat) {
    && (forall n :: n in names ==> exists ei: nat, ni: nat ::
          Earlier(ei, ni, i, j) && Usable(entries, ei, ni) && n == NameAt(entries, ei, ni))
    && (forall ei: nat, ni: nat :: Earlier(ei, ni, i, j) && Usable(entries, ei, ni) ==>
        NameAt(entries, ei, ni) in names)
  }

  ghost predicate TokensIndexed(names: seq<IndexedName>, byToken: map<Word, seq<nat>>) {
    && (forall t: Word, x: nat :: Lists(byToken, t, x) <==> x < |names| && t in names[x].tokens)
    && (forall t :: t in byToken ==> byToken[t] != [])
  }

  ghost predicate ValidCorpus(c: Corpus) {
    && TokensIndexed(c.names, c.byToken)
    && (forall k: string, t: Word :: Lists(c.byDeletion, k, t) <==> t in c.byToken && k in DeletionKeys(t))
    && (forall k: string, t: Word :: Lists(c.byGram, k, t) <==> t in c.byToken && k in EditGrams(t))
  }

  /** The postings of these words for one more name. */
  ghost predicate Adds(byToken: map<Word, seq<nat>>, r: map<Word, seq<nat>>, idx: nat, done: set<Word>) {
    && (forall t: Word, x: nat :: Lists(r, t, x) <==> Lists(byToken, t, x) || (x == idx && t in done))
    && (forall t :: t in r ==> r[t] != [])
  }

  lemma PostRound(byToken: map<Word, seq<nat>>, r: map<Word, seq<nat>>, idx: nat, done: set<Word>, t: Word)
    requires Adds(byToken, r, idx, done)
    ensures Adds(byToken, Posted(r, t, idx), idx, done + {t})
  {
    PostedAdds<Word, nat>(r, t, idx);
    var more := Posted(r, t, idx);
    forall u: Word, x: nat
      ensures Lists(more, u, x) <==> Lists(byToken, u, x) || (x == idx && u in done + {t})
    {
      assert Lists(more, u, x) <==> Lists(r, u, x) || (u == t && x == idx);
      assert Lists(r, u, x) <==> Lists(byToken, u, x) || (x == idx && u in done);
    }
  }

  lemma AllPosted(byToken: map<Word, seq<nat>>, r: map<Word, seq<nat>>, names: seq<IndexedName>)
    requires names != [] && TokensIndexed(names[..|names| - 1], byToken)
    requires Adds(byToken, r, |names| - 1, Words(names[|names| - 1].tokens))
    ensures TokensIndexed(names, r)
  {
    var idx := |names| - 1;
    assert forall x: nat :: x < idx ==> names[..idx][x] == names[x];
  }

  method PostTokens(byToken: map<Word, seq<nat>>, names: seq<IndexedName>) returns (r: map<Word, seq<nat>>)
    requires names != [] && TokensIndexed(names[..|names| - 1], byToken)
    ensures TokensIndexed(names, r)
  {
    r := byToken;
    var idx := |names| - 1;
    var todo := Words(names[idx].tokens);
    ghost var done: set<Word> := {};
    while todo != {}
      invariant todo + done == Words(names[idx].tokens) && todo !! done
      invariant Adds(byToken, r, idx, done)
    {
      var t :| t in todo;
      PostRound(byToken, r, idx, done, t);
      r := Posted(r, t, idx);
      todo, done := todo - {t}, done + {t};
    }
    AllPosted(byToken, r, names);
  }

  method PostKeys(index: map<string, seq<Word>>, keys: set<string>, token: Word) returns (r: map<string, seq<Word>>)
    ensures forall k: string, t: Word :: Lists(r, k, t) <==> Lists(index, k, t) || (t == token && k in keys)
  {
    r := index;
    var todo := keys;
    while todo != {}
      invariant todo <= keys
      invariant forall k: string, t: Word ::
                  Lists(r, k, t) <==> Lists(index, k, t) || (t == token && k in keys && k !in todo)
    {
      var key :| key in todo;
      PostedAdds<string, Word>(r, key, token);
      r := Posted(r, key, token);
      todo := todo - {key};
    }
  }

  /** The usable names among the first j of entry ei, in their order. */
  function EntryNames(entry: Listing, ei: nat, j: nat): seq<IndexedName>
    requires j <= |entry.names|
  {
    if j == 0 then []
    else
      var name := entry.names[j - 1];
      EntryNames(entry, ei, j - 1)
      + if name.norm != "" && name.tokens != [] then [IndexedName(ei, name.norm, name.tokens, j - 1 > 0)] else []
  }

  /** The usable names of the first i entries, entry by entry. */
  function NamesInOrder(entries: seq<Listing>, i: nat): seq<IndexedName>
    requires i <= |entries|
  {
    if i == 0 then []
    else NamesInOrder(entries, i - 1) + EntryNames(entries[i - 1], i - 1, |entries[i - 1].names|)
  }

  method BuildCorpus(entries: seq<Listing>) returns (c: Corpus)
    ensures ValidCorpus(c)
    ensures c.names == NamesInOrder(entries, |entries|)
    ensures NamesBefore(entries, c.names, |entries|, 0)
  {
    var names: seq<IndexedName> := [];
    var byToken: map<Word, seq<nat>> := map[];
    for ei := 0 to |entries|
      invariant NamesBefore(entries, names, ei, 0)
      invariant names == NamesInOrder(entries, ei)
      invariant TokensIndexed(names, byToken)
    {
      for ni := 0 to |entries[ei].names|
        invariant NamesBefore(entries, names, ei, ni)
        invariant names == NamesInOrder(entries, ei) + EntryNames(entries[ei], ei, ni)
        invariant TokensIndexed(names, byToken)
      {
        var name := entries[ei].names[ni];
        if name.norm != "" && name.tokens != [] {
          ghost var was := names;
          names := names + [IndexedName(ei, name.norm, name.tokens, ni > 0)];
          assert Usable(entries, ei, ni) && names[|was|] == NameAt(entries, ei, ni);
          assert names[..|names| - 1] == was;
          OneMoreName(entries, was, ei, ni);
          byToken := PostTokens(byToken, names);
        } else {
          SkippedName(entries, names, ei, ni);
        }
      }
      NextEntry(entries, names, ei);
    }
    var byDeletion: map<string, seq<Word>>, byGram: map<string, seq<Word>> := map[], map[];
    var todo := byToken.Keys;
    while todo != {}
      invariant todo <= byToken.Keys
      invariant forall k: string, t: Word ::
                  Lists(byDeletion, k, t) <==> t in byToken && t !in todo && k in DeletionKeys(t)
    {
      var token :| token in todo;
      byDeletion := PostKeys(byDeletion, DeletionKeys(token), token);
      todo := todo - {token};
    }
    todo := byToken.Keys;
    while todo != {}
      invariant todo <= byToken.Keys
      invariant forall k: string, t: Word :: Lists(byGram, k, t) <==> t in byToken && t !in todo && k in EditGrams(t)
    {
      var token :| token in todo;
      byGram := PostKeys(byGram, EditGrams(token), token);
      todo := todo - {token};
    }
    c := Corpus(names, byToken, byDeletion, byGram);
  }

  lemma OneMoreName(entries: seq<Listing>, names: seq<IndexedName>, ei: nat, ni: nat)
    requires NamesBefore(entries, names, ei, ni) && Usable(entries, ei, ni)
    ensures NamesBefore(entries, names + [NameAt(entries, ei, ni)], ei, ni + 1)
  {
    var more := names + [NameAt(entries, ei, ni)];
    forall n | n in more
      ensures exists e: nat, k: nat :: Earlier(e, k, ei, ni + 1) && Usable(entries, e, k) && n == NameAt(entries, e, k)
    {
      if n in names {
        var e: nat, k: nat :| Earlier(e, k, ei, ni) && Usable(entries, e, k) && n == NameAt(entries, e, k);
        assert Earlier(e, k, ei, ni + 1);
      } else {
        assert Earlier(ei, ni, ei, ni + 1);
      }
    }
    forall e: nat, k: nat | Earlier(e, k, ei, ni + 1) && Usable(entries, e, k) ensures NameAt(entries, e, k) in more {
      if !(e == ei && k == ni) {
        assert Earlier(e, k, ei, ni);
      }
    }
  }

  lemma SkippedName(entries: seq<Listing>, names: seq<IndexedName>, ei: nat, ni: nat)
    requires NamesBefore(entries, names, ei, ni) && !Usable(entries, ei, ni)
    ensures NamesBefore(entries, names, ei, ni + 1)
  {
    forall n | n in names
      ensures exists e: nat, k: nat :: Earlier(e, k, ei, ni + 1) && Usable(entries, e, k) && n == NameAt(entries, e, k)
    {
      var e: nat, k: nat :| Earlier(e, k, ei, ni) && Usable(entries, e, k) && n == NameAt(entries, e, k);
      assert Earlier(e, k, ei, ni + 1);
    }
    forall e: nat, k: nat | Earlier(e, k, ei, ni + 1) && Usable(entries, e, k) ensures NameAt(entries, e, k) in names {
      assert Earlier(e, k, ei, ni);
    }
  }

  lemma NextEntry(entries: seq<Listing>, names: seq<IndexedName>, ei: nat)
    requires ei < |entries| && NamesBefore(entries, names, ei, |entries[ei].names|)
    ensures NamesBefore(entries, names, ei + 1, 0)
  {
    forall n | n in names
      ensures exists e: nat, k: nat :: Earlier(e, k, ei + 1, 0) && Usable(entries, e, k) && n == NameAt(entries, e, k)
    {
      var e: nat, k: nat :| Earlier(e, k, ei, |entries[ei].names|) && Usable(entries, e, k) &&
          n == NameAt(entries, e, k);
      assert Earlier(e, k, ei + 1, 0);
    }
    forall e: nat, k: nat | Earlier(e, k, ei + 1, 0) && Usable(entries, e, k) ensures NameAt(entries, e, k) in names {
      assert Earlier(e, k, ei, |entries[ei].names|);
    }
  }

  // ---------- Scoring one name ----------

  ghost function Score(tokens: seq<Word>, name: seq<Word>, matchType: MatchType): real {
    RealMax(RealMax(NameScore(tokens, name), if matchType == Romanized then 0.0 else EditNameScore(tokens, name)),
            if matchType == Romanized then 0.0 else MissingTokenNameScore(tokens, name))
  }

  method ComputeScore(tokens: seq<Word>, name: seq<Word>, matchType: MatchType) returns (r: real)
    ensures r == Score(tokens, name, matchType)
  {
    var overlap := ComputeNameScore(tokens, name);
    var edited, missing := 0.0, 0.0;
    if matchType != Romanized {
      edited := ComputeEditNameScore(tokens, name);
      missing := ComputeMissingTokenNameScore(tokens, name);
    }
    return RealMax(RealMax(overlap, edited), missing);
  }

  /** The word relation a lookup of this kind has to cover. */
  ghost predicate Reaches(t: Word, u: Word, matchType: MatchType) {
    if matchType == Romanized then t == u else SupportedEdits(t, u)
  }

  /** A positive score needs one query word that reaches one word of the name. */
  lemma PositiveScoreHasReach(tokens: seq<Word>, name: seq<Word>, matchType: MatchType)
    requires Score(tokens, name, matchType) > 0.0
    ensures exists t: Word, u: Word :: t in tokens && u in name && Reaches(t, u, matchType)
  {
    if NameScore(tokens, name) > 0.0 {
      NameScoreRange(tokens, name);
      var t :| t in Words(tokens) * Words(name);
      assert t in tokens && t in name && Reaches(t, t, matchType);
    } else if EditNameScore(tokens, name) > 0.0 {
      EditNameScoreRange(tokens, name);
      var t: Word, u: Word :| t in tokens && u in name && SupportedEdits(t, u);
      assert Reaches(t, u, matchType);
    } else {
      var t: Word, u: Word := MissingTokenPair(tokens, name);
      assert Reaches(t, u, matchType);
    }
  }

  // ---------- Lookup ----------

  method NearTokens(corpus: Corpus, token: Word) returns (near: set<Word>)
    requires ValidCorpus(corpus)
    ensures forall u: Word :: u in near ==> SupportedEdits(token, u)
    ensures forall u: Word :: u in corpus.byToken && u != token && SupportedEdits(token, u) ==> u in near
  {
    near := OneEditTokens(corpus, token);
    ghost var before := near;
    var vocabulary := GramVocabulary(corpus, token);
    ghost var whole := vocabulary;
    while vocabulary != {}
      invariant vocabulary <= whole && before <= near
      invariant forall u: Word :: u in near ==> SupportedEdits(token, u)
      invariant forall u: Word :: u in whole - vocabulary && SupportedEdits(token, u) ==> u in near
    {
      var u :| u in vocabulary;
      var hit := WithinSupportedEdits(token, u);
      if hit {
        near := near + {u};
      }
      vocabulary := vocabulary - {u};
    }
    forall u: Word | u in corpus.byToken && u != token && SupportedEdits(token, u) ensures u in near {
      Retrieved(corpus, token, u);
    }
  }

  /** Every indexed word within the supported edits shares a posting with the query word. */
  lemma Retrieved(corpus: Corpus, token: Word, u: Word)
    requires ValidCorpus(corpus) && u in corpus.byToken && u != token && SupportedEdits(token, u)
    ensures (OneEdit(token, u) && exists key :: key in DeletionKeys(token) && Lists(corpus.byDeletion, key, u))
            || exists gram :: gram in EditGrams(token) && Lists(corpus.byGram, gram, u)
  {
    RetrievalIsExact(token, u);
    if DeletionKeys(token) * DeletionKeys(u) != {} && OneEdit(token, u) {
      var key :| key in DeletionKeys(token) * DeletionKeys(u);
      assert Lists(corpus.byDeletion, key, u);
    } else {
      var gram :| gram in EditGrams(token) * EditGrams(u);
      assert Lists(corpus.byGram, gram, u);
    }
  }

  /** The words one edit away that a deletion key of the query word lists. */
  method OneEditTokens(corpus: Corpus, token: Word) returns (near: set<Word>)
    ensures forall u: Word :: u in near ==> SupportedEdits(token, u)
    ensures forall key: string, u: Word ::
              key in DeletionKeys(token) && Lists(corpus.byDeletion, key, u) && OneEdit(token, u) ==> u in near
  {
    near := {};
    var keys := DeletionKeys(token);
    ghost var visited: set<string> := {};
    while keys != {}
      invariant keys <= DeletionKeys(token) && visited == DeletionKeys(token) - keys
      invariant forall u: Word :: u in near ==> SupportedEdits(token, u)
      invariant forall key: string, u: Word ::
                  key in visited && Lists(corpus.byDeletion, key, u) && OneEdit(token, u) ==> u in near
    {
      var key :| key in keys;
      var found := OneEditAmong(if key in corpus.byDeletion then corpus.byDeletion[key] else [], token);
      near := near + found;
      visited, keys := visited + {key}, keys - {key};
    }
  }

  method OneEditAmong(list: seq<Word>, token: Word) returns (found: set<Word>)
    ensures forall u: Word :: u in found ==> SupportedEdits(token, u)
    ensures forall u: Word :: u in list && OneEdit(token, u) ==> u in found
  {
    found := {};
    for k := 0 to |list|
      invariant forall u: Word :: u in found ==> SupportedEdits(token, u)
      invariant forall u: Word :: u in list[..k] && OneEdit(token, u) ==> u in found
    {
      var hit := WithinOneEdit(token, list[k]);
      if hit {
        found := found + {list[k]};
      }
      assert list[..k + 1] == list[..k] + [list[k]];
    }
    assert list[..|list|] == list;
  }

  method GramVocabulary(corpus: Corpus, token: Word) returns (vocabulary: set<Word>)
    ensures forall u: Word ::
              u in vocabulary <==> exists gram :: gram in EditGrams(token) && Lists(corpus.byGram, gram, u)
  {
    vocabulary := {};
    var grams := EditGrams(token);
    while grams != {}
      invariant grams <= EditGrams(token)
      invariant forall u: Word ::
                  u in vocabulary <==> exists gram :: gram in EditGrams(token) - grams && Lists(corpus.byGram, gram, u)
    {
      var gram :| gram in grams;
      var list := if gram in corpus.byGram then corpus.byGram[gram] else [];
      ghost var was := vocabulary;
      vocabulary := vocabulary + set u | u in list;
      forall u
        ensures u in vocabulary <==> exists g :: g in EditGrams(token) - (grams - {gram}) && Lists(corpus.byGram, g, u)
      {
        assert u in list <==> Lists(corpus.byGram, gram, u);
        assert EditGrams(token) - (grams - {gram}) == (EditGrams(token) - grams) + {gram};
      }
      grams := grams - {gram};
    }
  }

  /** Words of the vocabulary some query word reaches, plus the query words themselves. */
  method MatchingTokens(corpus: Corpus, tokens: seq<Word>, matchType: MatchType) returns (matching: set<Word>)
    requires ValidCorpus(corpus)
    ensures forall u: Word :: u in matching ==> exists t :: t in tokens && Reaches(t, u, matchType)
    ensures forall t: Word, u: Word :: t in tokens && u in corpus.byToken && Reaches(t, u, matchType) ==> u in matching
  {
    matching := Words(tokens);
    assert forall t :: t in tokens ==> Reaches(t, t, matchType);
    if matchType != Romanized {
      var todo := Words(tokens);
      while todo != {}
        invariant todo <= Words(tokens) <= matching
        invariant forall u: Word :: u in matching ==> exists t :: t in tokens && Reaches(t, u, matchType)
        invariant forall t: Word, u: Word ::
                    t in tokens && t !in todo && u in corpus.byToken && Reaches(t, u, matchType) ==> u in matching
      {
        var token :| token in todo;
        var near := NearTokens(corpus, token);
        assert forall u: Word :: u in near ==> Reaches(token, u, matchType);
        matching, todo := matching + near, todo - {token};
      }
    }
  }

  ghost predicate Mentions(names: seq<IndexedName>, x: nat, matching: set<Word>) {
    x < |names| && exists u :: u in matching && u in names[x].tokens
  }

  method CandidateNames(corpus: Corpus, matching: set<Word>) returns (found: set<nat>)
    requires ValidCorpus(corpus)
    ensures forall x: nat :: x in found <==> Mentions(corpus.names, x, matching)
  {
    found := {};
    var todo := matching;
    while todo != {}
      invariant todo <= matching
      invariant forall x: nat :: x in found <==> exists u :: u in matching - todo && Lists(corpus.byToken, u, x)
    {
      var u :| u in todo;
      ghost var was := found;
      var list := if u in corpus.byToken then corpus.byToken[u] else [];
      found := found + set x | x in list;
      forall x: nat ensures x in found <==> exists w :: w in matching - (todo - {u}) && Lists(corpus.byToken, w, x) {
        assert x in list <==> Lists(corpus.byToken, u, x);
        assert matching - (todo - {u}) == (matching - todo) + {u};
      }
      todo := todo - {u};
    }
    forall x: nat ensures x in found <==> Mentions(corpus.names, x, matching) {
      if x in found {
        var u :| u in matching && Lists(corpus.byToken, u, x);
      }
      if Mentions(corpus.names, x, matching) {
        var u :| u in matching && u in corpus.names[x].tokens;
        assert Lists(corpus.byToken, u, x);
      }
    }
  }

  // ---------- Brute force, as a specification ----------

  ghost function ReportedType(n: IndexedName, matchType: MatchType): MatchType {
    if n.isAlias && matchType == Fuzzy then Alias else matchType
  }

  /** The score every indexed name has against one query. */
  ghost function Scoring(tokens: seq<Word>, matchType: MatchType): IndexedName -> real {
    (n: IndexedName) => Score(tokens, n.tokens, matchType)
  }

  ghost predicate Reports(c: Candidate, n: IndexedName, score: IndexedName -> real, matchType: MatchType) {
    && c.entryIdx == n.entryIdx && c.matchedName == n.norm
    && c.score == score(n) && c.matchType == ReportedType(n, matchType)
  }

  /**
   * Every entry with a name scoring at least minScore is reported once, through one of its best
   * names; nothing else is reported.
   */
  ghost predicate BestPerEntry(names: set<IndexedName>, score: IndexedName -> real, matchType: MatchType,
      minScore: real,
                               best: set<Candidate>)
  {
    && (forall c :: c in best ==> c.score >= minScore && exists n :: n in names && Reports(c, n, score, matchType))
    && (forall n :: n in names && score(n) >= minScore ==>
          exists c :: c in best && c.entryIdx == n.entryIdx && c.score >= score(n))
    && (forall c, d :: c in best && d in best && c.entryIdx == d.entryIdx ==> c == d)
  }

  ghost function Elements<T>(s: seq<T>): set<T> {
    set x | x in s
  }

  ghost predicate StrongestFirst(r: seq<Candidate>) {
    forall i, j :: 0 <= i < j < |r| ==> r[i].score >= r[j].score
  }

  function Stronger(): (Candidate, Candidate) -> bool {
    (c: Candidate, d: Candidate) => c.score >= d.score
  }

  lemma InsertKeepsOrder(c: Candidate, s: seq<Candidate>)
    requires StrongestFirst(s)
    ensures StrongestFirst(Inserted(c, s, Stronger()))
  {
    var r := Inserted(c, s, Stronger());
    InsertedIsSorted(c, s, Stronger());
    forall i, j | 0 <= i < j < |r| ensures r[i].score >= r[j].score {
      assert Stronger()(r[i], r[j]);
    }
  }

  ghost predicate BestSoFar(best: map<nat, Candidate>, seen: set<IndexedName>, score: IndexedName -> real,
      matchType: MatchType,
                            minScore: real)
  {
    && (forall e :: e in best ==> best[e].entryIdx == e && best[e].score >= minScore)
    && (forall e :: e in best ==> exists n :: n in seen && Reports(best[e], n, score, matchType))
    && (forall n :: n in seen && score(n) >= minScore ==> n.entryIdx in best && best[n.entryIdx].score >= score(n))
  }

  /** Effect of scoring one more name on the map of best candidates. */
  function Improve(best: map<nat, Candidate>, n: IndexedName, s: real, matchType: MatchType, minScore: real): map<nat,
      Candidate> {
    if s < minScore then best
    else if n.entryIdx !in best || s > best[n.entryIdx].score
    then best[n.entryIdx := Candidate(n.entryIdx, n.norm, s, if n.isAlias &&
        matchType == Fuzzy then Alias else matchType)]
    else best
  }

  lemma ImproveKeepsBest(best: map<nat, Candidate>, seen: set<IndexedName>, n: IndexedName, score: IndexedName -> real,
                         matchType: MatchType, minScore: real)
    requires BestSoFar(best, seen, score, matchType, minScore)
    ensures BestSoFar(Improve(best, n, score(n), matchType, minScore), seen + {n}, score, matchType, minScore)
  {
    var r := Improve(best, n, score(n), matchType, minScore);
    forall e | e in r ensures exists m :: m in seen + {n} && Reports(r[e], m, score, matchType) {
      if e in best && r[e] == best[e] {
        var m :| m in seen && Reports(best[e], m, score, matchType);
        assert m in seen + {n};
      } else {
        assert n in seen + {n} && Reports(r[e], n, score, matchType);
      }
    }
  }

  method KeepBest(corpus: Corpus, found: set<nat>, tokens: seq<Word>, matchType: MatchType, minScore: real)
    returns (best: map<nat, Candidate>)
    requires forall x :: x in found ==> x < |corpus.names|
    ensures BestSoFar(best, (set x | x in found :: corpus.names[x]), Scoring(tokens, matchType), matchType, minScore)
  {
    best := map[];
    var todo := found;
    ghost var score := Scoring(tokens, matchType);
    ghost var seen: set<IndexedName> := {};
    while todo != {}
      invariant todo <= found
      invariant seen == set x | x in found && x !in todo :: corpus.names[x]
      invariant BestSoFar(best, seen, score, matchType, minScore)
    {
      var ni :| ni in todo;
      var n := corpus.names[ni];
      var s := ComputeScore(tokens, n.tokens, matchType);
      assert s == score(n);
      ImproveKeepsBest(best, seen, n, score, matchType, minScore);
      best := Improve(best, n, s, matchType, minScore);
      seen, todo := seen + {n}, todo - {ni};
    }
    assert seen == set x | x in found :: corpus.names[x];
  }

  /** Names the blocking step drops cannot reach a positive score. */
  lemma DroppedNamesScoreNothing(corpus: Corpus, matching: set<Word>, tokens: seq<Word>, matchType: MatchType, x: nat)
    requires ValidCorpus(corpus) && x < |corpus.names|
    requires forall t: Word, u: Word :: t in tokens && u in corpus.byToken && Reaches(t, u, matchType) ==> u in matching
    ensures Score(tokens, corpus.names[x].tokens, matchType) > 0.0 ==> Mentions(corpus.names, x, matching)
  {
    if Score(tokens, corpus.names[x].tokens, matchType) > 0.0 {
      PositiveScoreHasReach(tokens, corpus.names[x].tokens, matchType);
      var t: Word, u: Word :| t in tokens && u in corpus.names[x].tokens && Reaches(t, u, matchType);
      assert Lists(corpus.byToken, u, x);
    }
  }

  method SortedByScore(best: map<nat, Candidate>) returns (r: seq<Candidate>)
    requires forall e :: e in best ==> best[e].entryIdx == e
    ensures forall c :: c in r <==> c.entryIdx in best && c == best[c.entryIdx]
    ensures StrongestFirst(r) && OncePerEntry(r)
  {
    r := [];
    var todo := best.Keys;
    while todo != {}
      invariant todo <= best.Keys
      invariant forall c :: c in r <==> c.entryIdx in best && c.entryIdx !in todo && c == best[c.entryIdx]
      invariant StrongestFirst(r) && OncePerEntry(r)
    {
      var e :| e in todo;
      InsertKeepsOrder(best[e], r);
      InsertKeepsOnce(best[e], r);
      r := Inserted(best[e], r, Stronger());
      todo := todo - {e};
    }
  }

  ghost predicate OncePerEntry(r: seq<Candidate>) {
    forall i, j :: 0 <= i < j < |r| ==> r[i].entryIdx != r[j].entryIdx
  }

  lemma {:induction false} InsertKeepsOnce(c: Candidate, s: seq<Candidate>)
    requires OncePerEntry(s) && forall d :: d in s ==> d.entryIdx != c.entryIdx
    ensures OncePerEntry(Inserted(c, s, Stronger()))
  {
    if s != [] && s[0].score >= c.score {
      var tail := Inserted(c, s[1..], Stronger());
      InsertKeepsOnce(c, s[1..]);
      forall k | 0 <= k < |tail| ensures s[0].entryIdx != tail[k].entryIdx {
        assert tail[k] in tail;
        if tail[k] != c {
          assert tail[k] in s[1..];
        }
      }
    }
  }

  /** The indexed lookup equals scoring every name, for direct and romanized queries. */
  method CandidatesFor(corpus: Corpus, tokens: seq<Word>, matchType: MatchType, minScore: real)
      returns (r: seq<Candidate>)
    requires ValidCorpus(corpus)
    requires minScore > 0.0
    ensures BestPerEntry(Elements(corpus.names), Scoring(tokens, matchType), matchType, minScore, Elements(r))
    ensures StrongestFirst(r) && OncePerEntry(r)
  {
    var matching := MatchingTokens(corpus, tokens, matchType);
    var found := CandidateNames(corpus, matching);
    var best := KeepBest(corpus, found, tokens, matchType, minScore);
    r := SortedByScore(best);
    ghost var score := Scoring(tokens, matchType);
    forall x: nat | x < |corpus.names| ensures score(corpus.names[x]) >= minScore ==> x in found {
      DroppedNamesScoreNothing(corpus, matching, tokens, matchType, x);
    }
    BlockingLosesNothing(corpus, found, best, r, score, matchType, minScore);
  }

  lemma BlockingLosesNothing(corpus: Corpus, found: set<nat>, best: map<nat, Candidate>, r: seq<Candidate>,
                             score: IndexedName -> real, matchType: MatchType, minScore: real)
    requires forall x :: x in found ==> x < |corpus.names|
    requires forall x: nat :: x < |corpus.names| && score(corpus.names[x]) >= minScore ==> x in found
    requires BestSoFar(best, (set x | x in found :: corpus.names[x]), score, matchType, minScore)
    requires forall c :: c in r <==> c.entryIdx in best && c == best[c.entryIdx]
    ensures BestPerEntry(Elements(corpus.names), score, matchType, minScore, Elements(r))
  {
    var kept, all, reported := set x | x in found :: corpus.names[x], Elements(corpus.names), Elements(r);
    forall n | n in all && score(n) >= minScore
      ensures exists c :: c in reported && c.entryIdx == n.entryIdx && c.score >= score(n)
    {
      var x :| 0 <= x < |corpus.names| && corpus.names[x] == n;
      assert n in kept;
      assert best[n.entryIdx] in r;
    }
    forall c | c in reported ensures exists n :: n in all && Reports(c, n, score, matchType) {
      var n :| n in kept && Reports(best[c.entryIdx], n, score, matchType);
      assert n in all;
    }
  }

  /** End to end: building the index and looking up equals scoring every usable list name. */
  method Screen(entries: seq<Listing>, tokens: seq<Word>, matchType: MatchType, minScore: real)
      returns (r: seq<Candidate>)
    requires minScore > 0.0
    ensures BestPerEntry(UsableNames(entries), Scoring(tokens, matchType), matchType, minScore, Elements(r))
    ensures StrongestFirst(r) && OncePerEntry(r)
  {
    var corpus := BuildCorpus(entries);
    r := CandidatesFor(corpus, tokens, matchType, minScore);
    IndexHoldsUsableNames(entries, corpus.names);
  }

  /** Every list name with a normal form and at least one part. */
  ghost function UsableNames(entries: seq<Listing>): set<IndexedName> {
    set ei: nat, ni: nat | ei < |entries| && ni < |entries[ei].names| &&
        Usable(entries, ei, ni) :: NameAt(entries, ei, ni)
  }

  lemma IndexHoldsUsableNames(entries: seq<Listing>, names: seq<IndexedName>)
    requires NamesBefore(entries, names, |entries|, 0)
    ensures Elements(names) == UsableNames(entries)
  {
    forall n | n in Elements(names) ensures n in UsableNames(entries) {
      var ei: nat, ni: nat :| Earlier(ei, ni, |entries|, 0) && Usable(entries, ei, ni) && n == NameAt(entries, ei, ni);
    }
    forall n | n in UsableNames(entries) ensures n in Elements(names) {
      var ei: nat, ni: nat :| Usable(entries, ei, ni) && n == NameAt(entries, ei, ni);
      assert Usable(entries, ei, ni);
      assert Earlier(ei, ni, |entries|, 0);
    }
  }
}
