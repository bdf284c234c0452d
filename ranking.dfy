/**
 * The similarity ranking of `SearchEngine.semantic_search` and the re-sort of
 * `SearchEngine.search`, as functions of the table.
 *
 * The embedding model and the cosine similarity stay abstract: the caller
 * supplies the query vector and a deterministic `cosine` that gives `None`
 * when numpy raises (vectors of different lengths), which the source's outer
 * handler turns into an empty result.  Scores are exact reals.
 */
module Ranking {
  import opened Wrappers
  import opened Text
  import opened Records

  // ---------------------------------------------------------------------------
  // Keyword boost

  /** `query.lower().split()` */
  function QueryKeywords(query: string): seq<string> {
    SplitWs(Lower(query))
  }

  /** Some keyword occurs in the lower-cased, space-joined skills. */
  predicate SkillsMatch(query: string, skills: seq<string>) {
    ContainsAny(Lower(Join(skills, " ")), QueryKeywords(query))
  }

  /** The summary is present and non-empty and some keyword occurs in it, lower-cased. */
  predicate SummaryMatch(query: string, summary: Option<string>) {
    summary.Some? && summary.value != "" && ContainsAny(Lower(summary.value), QueryKeywords(query))
  }

  /** The amount added to the cosine score: 0.1 per field with a keyword hit. */
  function KeywordBoost(query: string, skills: seq<string>, summary: Option<string>): (b: real)
    ensures b == 0.0 || b == 0.1 || b == 0.2
    ensures b == 0.0 <==> !SkillsMatch(query, skills) && !SummaryMatch(query, summary)
    ensures b == 0.2 <==> SkillsMatch(query, skills) && SummaryMatch(query, summary)
  {
    (if SkillsMatch(query, skills) then 0.1 else 0.0) + (if SummaryMatch(query, summary) then 0.1 else 0.0)
  }

  /** The boost does not depend on the case of the query. */
  lemma BoostIgnoresQueryCase(query: string, skills: seq<string>, summary: Option<string>)
    ensures KeywordBoost(Lower(query), skills, summary) == KeywordBoost(query, skills, summary)
  {
    LowerIdempotent(query);
  }

  /** A query made only of whitespace has no keywords and boosts nothing. */
  lemma BlankQueryNoBoost(query: string, skills: seq<string>, summary: Option<string>)
    requires forall i :: 0 <= i < |query| ==> IsSpace(query[i])
    ensures KeywordBoost(query, skills, summary) == 0.0
  {
    SplitWsBlank(Lower(query));
  }

  // ---------------------------------------------------------------------------
  // Scoring scan

  /** A `(similarity, resume_id)` pair of the `similarities` list. */
  datatype Scored = Scored(score: real, id: int)

  /** What the scan does with one row. */
  datatype Step = Skip | Score(entry: Scored) | Abort

  function ScanRow(row: Row, q: Vector, query: string, cosine: (Vector, Vector) -> Option<real>): (s: Step)
    ensures s.Score? ==> s.entry.id == row.id
  {
    match row.embedding
    case Json(v) =>
      (match cosine(q, v)
       case Some(c) => Score(Scored(c + KeywordBoost(query, row.skills, row.summary), row.id))
       case None => Abort)
    case _ => Skip
  }

  /** The `similarities` list after the loop, or `None` when the loop raised. */
  function Scan(rows: seq<Row>, q: Vector, query: string, cosine: (Vector, Vector) -> Option<real>): Option<seq<Scored>>
    decreases |rows|
  {
    if rows == [] then Some([])
    else
      match Scan(rows[..|rows| - 1], q, query, cosine)
      case None => None
      case Some(acc) =>
        match ScanRow(rows[|rows| - 1], q, query, cosine)
        case Skip => Some(acc)
        case Abort => None
        case Score(e) => Some(acc + [e])
  }

  /** The scan fails exactly when some row aborts it. */
  lemma {:induction false} ScanAborts(rows: seq<Row>, q: Vector, query: string, cosine: (Vector, Vector) -> Option<real>)
    ensures Scan(rows, q, query, cosine).None? <==>
      exists i :: 0 <= i < |rows| && ScanRow(rows[i], q, query, cosine) == Abort
    decreases |rows|
  {
    if rows != [] {
      var init, last := rows[..|rows| - 1], rows[|rows| - 1];
      ScanAborts(init, q, query, cosine);
      if Scan(init, q, query, cosine).None? {
        var i :| 0 <= i < |init| && ScanRow(init[i], q, query, cosine) == Abort;
        assert rows[i] == init[i];
      } else if ScanRow(last, q, query, cosine) != Abort {
        forall i | 0 <= i < |rows| ensures ScanRow(rows[i], q, query, cosine) != Abort {
          if i < |init| {
            assert rows[i] == init[i];
          }
        }
      }
    }
  }

  /** Every entry of the scan is the score of some row. */
  lemma {:induction false} ScanSound(rows: seq<Row>, q: Vector, query: string, cosine: (Vector, Vector) -> Option<real>)
    requires Scan(rows, q, query, cosine).Some?
    ensures forall e :: e in Scan(rows, q, query, cosine).value ==>
      exists i :: 0 <= i < |rows| && ScanRow(rows[i], q, query, cosine) == Score(e)
    decreases |rows|
  {
    if rows != [] {
      var init, last := rows[..|rows| - 1], rows[|rows| - 1];
      var acc := Scan(init, q, query, cosine).value;
      ScanSound(init, q, query, cosine);
      forall e | e in Scan(rows, q, query, cosine).value
        ensures exists i :: 0 <= i < |rows| && ScanRow(rows[i], q, query, cosine) == Score(e)
      {
        if e in acc {
          var i :| 0 <= i < |init| && ScanRow(init[i], q, query, cosine) == Score(e);
          assert rows[i] == init[i];
        } else {
          assert ScanRow(rows[|rows| - 1], q, query, cosine) == Score(e);
        }
      }
    }
  }

  /** Every row the scan scores contributes its entry. */
  lemma ScanComplete(rows: seq<Row>, q: Vector, query: string, cosine: (Vector, Vector) -> Option<real>)
    requires Scan(rows, q, query, cosine).Some?
    ensures forall i :: 0 <= i < |rows| && ScanRow(rows[i], q, query, cosine).Score? ==>
      ScanRow(rows[i], q, query, cosine).entry in Scan(rows, q, query, cosine).value
  {
    forall i | 0 <= i < |rows| && ScanRow(rows[i], q, query, cosine).Score?
      ensures ScanRow(rows[i], q, query, cosine).entry in Scan(rows, q, query, cosine).value
    {
      ScanHas(rows, q, query, cosine, i);
    }
  }

  /** The entry of one scored row is in the scan. */
  lemma {:induction false} ScanHas(rows: seq<Row>, q: Vector, query: string,
                                   cosine: (Vector, Vector) -> Option<real>, i: int)
    requires Scan(rows, q, query, cosine).Some?
    requires 0 <= i < |rows| && ScanRow(rows[i], q, query, cosine).Score?
    ensures ScanRow(rows[i], q, query, cosine).entry in Scan(rows, q, query, cosine).value
    decreases |rows|
  {
    var init := rows[..|rows| - 1];
    ScanStep(rows, q, query, cosine);
    if i < |init| {
      assert rows[i] == init[i];
      ScanHas(init, q, query, cosine, i);
    }
  }

  /** One step of the scan: a successful scan extends the scan of all rows but the last. */
  lemma ScanStep(rows: seq<Row>, q: Vector, query: string, cosine: (Vector, Vector) -> Option<real>)
    requires rows != [] && Scan(rows, q, query, cosine).Some?
    ensures Scan(rows[..|rows| - 1], q, query, cosine).Some?
    ensures forall x :: x in Scan(rows[..|rows| - 1], q, query, cosine).value ==> x in Scan(rows, q, query, cosine).value
    ensures ScanRow(rows[|rows| - 1], q, query, cosine).Score? ==>
      ScanRow(rows[|rows| - 1], q, query, cosine).entry in Scan(rows, q, query, cosine).value
  {
    var acc := Scan(rows[..|rows| - 1], q, query, cosine).value;
    match ScanRow(rows[|rows| - 1], q, query, cosine)
    case Skip =>
    case Score(e) => assert Scan(rows, q, query, cosine).value == acc + [e];
  }

  // ---------------------------------------------------------------------------
  // Sorting on (score, id), descending

  /** `a` sorts strictly before `b` in `sorted(pairs, reverse=True)`. */
  predicate Above(a: Scored, b: Scored) {
    a.score > b.score || (a.score == b.score && a.id > b.id)
  }

  predicate SortedDesc(s: seq<Scored>) {
    forall i, j :: 0 <= i < j < |s| ==> !Above(s[j], s[i])
  }

  function InsertDesc(x: Scored, s: seq<Scored>): (r: seq<Scored>)
    ensures multiset(r) == multiset(s) + multiset{x}
  {
    if s == [] || !Above(s[0], x) then [x] + s
    else
      assert s == [s[0]] + s[1..];
      [s[0]] + InsertDesc(x, s[1..])
  }

  lemma {:induction false} InsertDescSorted(x: Scored, s: seq<Scored>)
    requires SortedDesc(s)
    ensures SortedDesc(InsertDesc(x, s))
  {
    if s != [] && Above(s[0], x) {
      InsertDescSorted(x, s[1..]);
      var t := InsertDesc(x, s[1..]);
      forall y | y in t ensures !Above(y, s[0]) {
        assert y in multiset(t);
        if y != x {
          assert y in s[1..];
        }
      }
    }
  }

  /** `sorted(pairs, reverse=True)`: a descending permutation. */
  function SortDesc(s: seq<Scored>): (r: seq<Scored>)
    ensures multiset(r) == multiset(s)
    ensures SortedDesc(r)
  {
    if s == [] then []
    else
      var t := SortDesc(s[1..]);
      InsertDescSorted(s[0], t);
      assert s == [s[0]] + s[1..];
      InsertDesc(s[0], t)
  }

  /** Everything kept by a head of a descending list is at least as high as everything dropped. */
  lemma HeadIsBest(s: seq<Scored>, k: int, e: Scored, t: Scored)
    requires SortedDesc(s)
    requires e in s && e !in Head(s, k) && t in Head(s, k)
    ensures !Above(e, t)
  {
    var h := Head(s, k);
    var a :| 0 <= a < |h| && h[a] == t;
    var b :| 0 <= b < |s| && s[b] == e;
    if b < |h| {
      assert s[b] == h[b];
    }
    assert s[a] == t;
  }

  // ---------------------------------------------------------------------------
  // Fetching the matched rows

  /** A result of `semantic_search`. */
  datatype Match = Match(id: int, name: string, skills: seq<string>, experience: string,
                         education: string, contact: Contact, summary: string, score: real)

  function TopIds(top: seq<Scored>): set<int> {
    set e | e in top :: e.id
  }

  /** `SELECT ... WHERE id IN (...)`: the rows whose id is listed, in table order. */
  function Selected(rows: seq<Row>, ids: set<int>): (r: seq<Row>)
    ensures forall row :: row in r <==> row in rows && row.id in ids
    ensures |r| <= |rows|
  {
    if rows == [] then []
    else (if rows[0].id in ids then [rows[0]] else []) + Selected(rows[1..], ids)
  }

  /** `next((score for score, rid in top_matches if rid == id), 0)` */
  function ScoreFor(top: seq<Scored>, id: int): (r: real)
    ensures id in TopIds(top) ==> Scored(r, id) in top
  {
    if top == [] then 0.0
    else if top[0].id == id then top[0].score
    else
      assert id in TopIds(top) ==> id in TopIds(top[1..]);
      ScoreFor(top[1..], id)
  }

  /** A fetched row as a result dictionary (`column or ""` for the optional text columns). */
  function ToMatch(row: Row, score: real): Match {
    Match(row.id, row.name, row.skills, row.experience, row.education.GetOr(""),
          row.contact, row.summary.GetOr(""), score)
  }

  /** The loop that turns the fetched rows into results. */
  function Fetch(rows: seq<Row>, top: seq<Scored>): seq<Match> {
    var sel := Selected(rows, TopIds(top));
    seq(|sel|, i requires 0 <= i < |sel| => ToMatch(sel[i], ScoreFor(top, sel[i].id)))
  }

  /** What `semantic_search(query, top_k)` returns, given the query vector `q`. */
  function Ranked(rows: seq<Row>, q: Vector, query: string, topK: int,
                  cosine: (Vector, Vector) -> Option<real>): seq<Match>
  {
    match Scan(rows, q, query, cosine)
    case None => []
    case Some(es) =>
      if es == [] then [] else Fetch(rows, Head(SortDesc(es), topK))
  }

  // ---------------------------------------------------------------------------
  // Facts about the ranking

  lemma {:induction false} TopIdsBound(top: seq<Scored>)
    ensures |TopIds(top)| <= |top|
  {
    if top != [] {
      TopIdsBound(top[1..]);
      assert TopIds(top) == {top[0].id} + TopIds(top[1..]);
    }
  }

  lemma {:induction false} SelectedIgnores(rows: seq<Row>, ids: set<int>, x: int)
    requires forall i :: 0 <= i < |rows| ==> rows[i].id != x
    ensures Selected(rows, ids) == Selected(rows, ids - {x})
  {
    if rows != [] {
      SelectedIgnores(rows[1..], ids, x);
    }
  }

  /** With distinct rowids, no more rows are fetched than ids are asked for. */
  lemma {:induction false} SelectedBound(rows: seq<Row>, ids: set<int>)
    requires TableValid(rows)
    ensures |Selected(rows, ids)| <= |ids|
  {
    if rows != [] {
      var rest := rows[1..];
      assert TableValid(rest);
      if rows[0].id in ids {
        SelectedIgnores(rest, ids, rows[0].id);
        SelectedBound(rest, ids - {rows[0].id});
      } else {
        SelectedBound(rest, ids);
      }
    }
  }

  /** Rows fetched by id come out in table order, so their ids ascend. */
  lemma {:induction false} SelectedAscending(rows: seq<Row>, ids: set<int>)
    requires TableValid(rows)
    ensures TableValid(Selected(rows, ids))
  {
    if rows != [] {
      var rest := rows[1..];
      assert TableValid(rest);
      SelectedAscending(rest, ids);
      var s := Selected(rows, ids);
      if rows[0].id in ids {
        forall j | 0 < j < |s| ensures s[0].id < s[j].id {
          assert s[j] in rest;
        }
      }
    }
  }

  /** The rows selected from a longer prefix of the table. */
  lemma {:induction false} SelectedSnoc(rows: seq<Row>, x: Row, ids: set<int>)
    ensures Selected(rows + [x], ids) == Selected(rows, ids) + (if x.id in ids then [x] else [])
  {
    if rows != [] {
      assert (rows + [x])[1..] == rows[1..] + [x];
      SelectedSnoc(rows[1..], x, ids);
    }
  }

  /** Distinct rowids: one id, one row. */
  lemma SameIdSameRow(rows: seq<Row>, i: int, j: int)
    requires TableValid(rows)
    requires 0 <= i < |rows| && 0 <= j < |rows| && rows[i].id == rows[j].id
    ensures i == j
  {
  }

  /** A fetched result is a listed row with the score listed for it. */
  lemma FetchFrom(rows: seq<Row>, top: seq<Scored>, m: Match)
    requires m in Fetch(rows, top)
    ensures exists i :: 0 <= i < |rows| && m == ToMatch(rows[i], m.score) && Scored(m.score, m.id) in top
  {
    var sel := Selected(rows, TopIds(top));
    var k :| 0 <= k < |sel| && m == ToMatch(sel[k], ScoreFor(top, sel[k].id));
    assert sel[k] in rows;
    var i :| 0 <= i < |rows| && rows[i] == sel[k];
  }

  /** A listed row is fetched. */
  lemma FetchTo(rows: seq<Row>, top: seq<Scored>, i: int)
    requires 0 <= i < |rows| && rows[i].id in TopIds(top)
    ensures exists m :: m in Fetch(rows, top) && m.id == rows[i].id
  {
    var sel := Selected(rows, TopIds(top));
    assert rows[i] in sel;
    var k :| 0 <= k < |sel| && sel[k] == rows[i];
    assert Fetch(rows, top)[k].id == rows[i].id;
  }

  /** What the head of the sorted scan keeps was in the scan. */
  lemma HeadFromScan(es: seq<Scored>, k: int, e: Scored)
    requires e in Head(SortDesc(es), k)
    ensures e in es
  {
    var s := SortDesc(es);
    assert e in s;
    assert e in multiset(s);
  }

  /** A non-empty result is the fetch of the head of the sorted scan. */
  lemma RankedUnfold(rows: seq<Row>, q: Vector, query: string, topK: int,
                     cosine: (Vector, Vector) -> Option<real>)
    requires Ranked(rows, q, query, topK, cosine) != []
    ensures Scan(rows, q, query, cosine).Some?
    ensures Ranked(rows, q, query, topK, cosine)
            == Fetch(rows, Head(SortDesc(Scan(rows, q, query, cosine).value), topK))
  {
  }

  /** Every result comes from a table row: its fields, and the score that row was given. */
  lemma RankedFromRow(rows: seq<Row>, q: Vector, query: string, topK: int,
                      cosine: (Vector, Vector) -> Option<real>, m: Match)
    requires TableValid(rows)
    requires m in Ranked(rows, q, query, topK, cosine)
    ensures exists i :: 0 <= i < |rows| && m == ToMatch(rows[i], m.score)
                        && ScanRow(rows[i], q, query, cosine) == Score(Scored(m.score, m.id))
  {
    RankedUnfold(rows, q, query, topK, cosine);
    var es := Scan(rows, q, query, cosine).value;
    var top := Head(SortDesc(es), topK);
    var e := Scored(m.score, m.id);
    FetchFrom(rows, top, m);
    var i :| 0 <= i < |rows| && m == ToMatch(rows[i], m.score) && e in top;
    HeadFromScan(es, topK, e);
    ScanSound(rows, q, query, cosine);
    var j :| 0 <= j < |rows| && ScanRow(rows[j], q, query, cosine) == Score(e);
    assert rows[j].id == e.id == rows[i].id;
    SameIdSameRow(rows, i, j);
  }

  /** `semantic_search` returns at most `top_k` results. */
  lemma RankedBound(rows: seq<Row>, q: Vector, query: string, topK: int,
                    cosine: (Vector, Vector) -> Option<real>)
    requires TableValid(rows)
    ensures 0 <= topK ==> |Ranked(rows, q, query, topK, cosine)| <= topK
  {
    match Scan(rows, q, query, cosine)
    case None =>
    case Some(es) =>
      if es != [] {
        var top := Head(SortDesc(es), topK);
        SelectedBound(rows, TopIds(top));
        TopIdsBound(top);
      }
  }

  /** A row without a usable embedding (NULL, empty or unparsable) never appears in the results. */
  lemma RankedExcludesUnindexed(rows: seq<Row>, q: Vector, query: string, topK: int,
                                cosine: (Vector, Vector) -> Option<real>, i: int)
    requires TableValid(rows)
    requires 0 <= i < |rows| && !rows[i].embedding.Json?
    ensures forall m :: m in Ranked(rows, q, query, topK, cosine) ==> m.id != rows[i].id
  {
    forall m | m in Ranked(rows, q, query, topK, cosine) ensures m.id != rows[i].id {
      RankedFromRow(rows, q, query, topK, cosine, m);
      var j :| 0 <= j < |rows| && m == ToMatch(rows[j], m.score)
               && ScanRow(rows[j], q, query, cosine) == Score(Scored(m.score, m.id));
      if i < j { assert rows[i].id < rows[j].id; }
      if j < i { assert rows[j].id < rows[i].id; }
    }
  }

  /** Every result's score is the cosine of its row plus that row's keyword boost. */
  lemma RankedScore(rows: seq<Row>, q: Vector, query: string, topK: int,
                    cosine: (Vector, Vector) -> Option<real>, m: Match)
    requires TableValid(rows)
    requires m in Ranked(rows, q, query, topK, cosine)
    ensures exists i :: 0 <= i < |rows| && rows[i].id == m.id && rows[i].embedding.Json?
                        && cosine(q, rows[i].embedding.vector).Some?
                        && m.score == cosine(q, rows[i].embedding.vector).value
                                      + KeywordBoost(query, rows[i].skills, rows[i].summary)
  {
    RankedFromRow(rows, q, query, topK, cosine, m);
  }

  /**
   * One half of the top-k promise: a scored row that was left out is never
   * above any result, so ties at the cut-off go to the higher id.
   * `RankedComplete` and `RankedCount` give the other half.
   */
  lemma RankedTopK(rows: seq<Row>, q: Vector, query: string, topK: int,
                   cosine: (Vector, Vector) -> Option<real>, m: Match, i: int)
    requires TableValid(rows)
    requires m in Ranked(rows, q, query, topK, cosine)
    requires 0 <= i < |rows| && ScanRow(rows[i], q, query, cosine).Score?
    requires forall m' :: m' in Ranked(rows, q, query, topK, cosine) ==> m'.id != rows[i].id
    ensures !Above(ScanRow(rows[i], q, query, cosine).entry, Scored(m.score, m.id))
  {
    RankedUnfold(rows, q, query, topK, cosine);
    var es := Scan(rows, q, query, cosine).value;
    ScanComplete(rows, q, query, cosine);
    var s := SortDesc(es);
    var top := Head(s, topK);
    var e := ScanRow(rows[i], q, query, cosine).entry;
    assert e in multiset(s);
    FetchFrom(rows, top, m);
    if e in top {
      assert rows[i].id in TopIds(top);
      FetchTo(rows, top, i);
      assert false;
    }
    HeadIsBest(s, topK, e, Scored(m.score, m.id));
  }

  /**
   * The other half of the top-k promise: every row whose entry the
   * `[:top_k]` cut keeps is fetched.
   */
  lemma RankedComplete(rows: seq<Row>, q: Vector, query: string, topK: int,
                       cosine: (Vector, Vector) -> Option<real>, i: int)
    requires Scan(rows, q, query, cosine).Some?
    requires 0 <= i < |rows| && ScanRow(rows[i], q, query, cosine).Score?
    requires ScanRow(rows[i], q, query, cosine).entry
             in Head(SortDesc(Scan(rows, q, query, cosine).value), topK)
    ensures exists m :: m in Ranked(rows, q, query, topK, cosine) && m.id == rows[i].id
  {
    var es := Scan(rows, q, query, cosine).value;
    var top := Head(SortDesc(es), topK);
    var e := ScanRow(rows[i], q, query, cosine).entry;
    HeadFromScan(es, topK, e);
    assert rows[i].id in TopIds(top);
    FetchTo(rows, top, i);
  }

  /** The scan's ids strictly ascend. */
  predicate IdsAscending(s: seq<Scored>) {
    forall a, b :: 0 <= a < b < |s| ==> s[a].id < s[b].id
  }

  /** The scan visits the rows in table order, so its ids ascend with the rowids. */
  lemma {:induction false} ScanAscending(rows: seq<Row>, q: Vector, query: string,
                                         cosine: (Vector, Vector) -> Option<real>)
    requires TableValid(rows) && Scan(rows, q, query, cosine).Some?
    ensures IdsAscending(Scan(rows, q, query, cosine).value)
    decreases |rows|
  {
    if rows != [] {
      var init := rows[..|rows| - 1];
      assert TableValid(init);
      ScanStep(rows, q, query, cosine);
      ScanAscending(init, q, query, cosine);
      var acc := Scan(init, q, query, cosine).value;
      var step := ScanRow(rows[|rows| - 1], q, query, cosine);
      if step.Score? {
        ScanSound(init, q, query, cosine);
        var all := acc + [step.entry];
        assert Scan(rows, q, query, cosine).value == all;
        forall a, b | 0 <= a < b < |all| ensures all[a].id < all[b].id {
          if b == |acc| {
            assert all[a] in acc;
            var j :| 0 <= j < |init| && ScanRow(init[j], q, query, cosine) == Score(all[a]);
            assert init[j] == rows[j];
          } else {
            assert all[a] == acc[a] && all[b] == acc[b];
          }
        }
      }
    }
  }

  /** Ascending ids are distinct: one id per entry. */
  lemma {:induction false} TopIdsAscending(s: seq<Scored>)
    requires IdsAscending(s)
    ensures |TopIds(s)| == |s|
  {
    if s != [] {
      TopIdsAscending(s[1..]);
      assert TopIds(s) == {s[0].id} + TopIds(s[1..]);
      assert s[0].id !in TopIds(s[1..]);
    }
  }

  /** A prefix of a list with distinct ids has distinct ids. */
  lemma TopIdsPrefix(s: seq<Scored>, k: nat)
    requires |TopIds(s)| == |s| && k <= |s|
    ensures |TopIds(s[..k])| == k
  {
    assert s == s[..k] + s[k..];
    assert TopIds(s) == TopIds(s[..k]) + TopIds(s[k..]);
    TopIdsBound(s[..k]);
    TopIdsBound(s[k..]);
  }

  /** The ids of a sequence depend only on its elements, not their order. */
  lemma TopIdsPermuted(s: seq<Scored>, t: seq<Scored>)
    requires multiset(s) == multiset(t)
    ensures TopIds(s) == TopIds(t) && |s| == |t|
  {
    forall x | x in TopIds(s) ensures x in TopIds(t) {
      var e :| e in s && e.id == x;
      assert e in multiset(t);
    }
    forall x | x in TopIds(t) ensures x in TopIds(s) {
      var e :| e in t && e.id == x;
      assert e in multiset(s);
    }
    assert |s| == |multiset(s)|;
  }

  function RowIds(rows: seq<Row>): set<int> {
    set r | r in rows :: r.id
  }

  /** The ids of the rows after the first cover every id the first row does not carry. */
  lemma RowIdsTail(rows: seq<Row>, ids: set<int>)
    requires rows != [] && ids <= RowIds(rows)
    ensures ids - {rows[0].id} <= RowIds(rows[1..])
  {
    forall x | x in ids - {rows[0].id} ensures x in RowIds(rows[1..]) {
      var r :| r in rows && r.id == x;
      assert r != rows[0];
      assert rows == [rows[0]] + rows[1..];
    }
  }

  /** With distinct rowids, every listed id that a row carries fetches exactly one row. */
  lemma {:induction false} SelectedCount(rows: seq<Row>, ids: set<int>)
    requires TableValid(rows) && ids <= RowIds(rows)
    ensures |Selected(rows, ids)| == |ids|
  {
    if rows != [] {
      var rest := rows[1..];
      assert TableValid(rest);
      RowIdsTail(rows, ids);
      if rows[0].id in ids {
        SelectedIgnores(rest, ids, rows[0].id);
        SelectedCount(rest, ids - {rows[0].id});
      } else {
        assert ids == ids - {rows[0].id};
        SelectedCount(rest, ids);
      }
    }
  }

  /** The ids kept by the cut are ids of table rows. */
  lemma TopIdsInTable(rows: seq<Row>, q: Vector, query: string, topK: int,
                      cosine: (Vector, Vector) -> Option<real>)
    requires Scan(rows, q, query, cosine).Some?
    ensures TopIds(Head(SortDesc(Scan(rows, q, query, cosine).value), topK)) <= RowIds(rows)
  {
    var es := Scan(rows, q, query, cosine).value;
    var top := Head(SortDesc(es), topK);
    ScanSound(rows, q, query, cosine);
    forall x | x in TopIds(top) ensures x in RowIds(rows) {
      var e :| e in top && e.id == x;
      HeadFromScan(es, topK, e);
      var i :| 0 <= i < |rows| && ScanRow(rows[i], q, query, cosine) == Score(e);
      assert rows[i] in rows;
    }
  }

  /**
   * When the scan succeeds, `semantic_search` returns exactly as many results
   * as the `[:top_k]` cut keeps entries: `min(top_k, n)` for `n` scored rows.
   */
  lemma RankedCount(rows: seq<Row>, q: Vector, query: string, topK: int,
                    cosine: (Vector, Vector) -> Option<real>)
    requires TableValid(rows) && Scan(rows, q, query, cosine).Some?
    ensures |Ranked(rows, q, query, topK, cosine)|
            == |Head(SortDesc(Scan(rows, q, query, cosine).value), topK)|
    ensures var n := |Scan(rows, q, query, cosine).value|;
      0 <= topK ==> |Ranked(rows, q, query, topK, cosine)| == (if topK < n then topK else n)
  {
    var es := Scan(rows, q, query, cosine).value;
    if es != [] {
      var s := SortDesc(es);
      var top := Head(s, topK);
      ScanAscending(rows, q, query, cosine);
      TopIdsAscending(es);
      TopIdsPermuted(es, s);
      TopIdsPrefix(s, |top|);
      assert top == s[..|top|];
      TopIdsInTable(rows, q, query, topK, cosine);
      SelectedCount(rows, TopIds(top));
    }
  }

  /** With no embedded row the scan scores nothing and cannot fail. */
  lemma {:induction false} ScanUnindexed(rows: seq<Row>, q: Vector, query: string,
                                         cosine: (Vector, Vector) -> Option<real>)
    requires forall i :: 0 <= i < |rows| ==> !rows[i].embedding.Json?
    ensures Scan(rows, q, query, cosine) == Some([])
    decreases |rows|
  {
    if rows != [] {
      var init := rows[..|rows| - 1];
      assert forall i :: 0 <= i < |init| ==> init[i] == rows[i];
      ScanUnindexed(init, q, query, cosine);
    }
  }

  /** A store with no embedded row gives no results. */
  lemma RankedEmptyStore(rows: seq<Row>, q: Vector, query: string, topK: int,
                         cosine: (Vector, Vector) -> Option<real>)
    requires forall i :: 0 <= i < |rows| ==> !rows[i].embedding.Json?
    ensures Ranked(rows, q, query, topK, cosine) == []
  {
    ScanUnindexed(rows, q, query, cosine);
  }

  /** The results come out in table order. */
  lemma RankedInTableOrder(rows: seq<Row>, q: Vector, query: string, topK: int,
                           cosine: (Vector, Vector) -> Option<real>)
    requires TableValid(rows)
    ensures var r := Ranked(rows, q, query, topK, cosine);
      forall i, j :: 0 <= i < j < |r| ==> r[i].id < r[j].id
  {
    match Scan(rows, q, query, cosine)
    case None =>
    case Some(es) =>
      if es != [] {
        SelectedAscending(rows, TopIds(Head(SortDesc(es), topK)));
      }
  }

  // ---------------------------------------------------------------------------
  // The re-sort in `search`: stable, by score, descending

  function InsertByScore(m: Match, s: seq<Match>): (r: seq<Match>)
    ensures multiset(r) == multiset(s) + multiset{m}
  {
    if s == [] || s[0].score <= m.score then [m] + s
    else
      assert s == [s[0]] + s[1..];
      [s[0]] + InsertByScore(m, s[1..])
  }

  lemma InsertByScoreMembers(m: Match, s: seq<Match>, y: Match)
    requires y in InsertByScore(m, s)
    ensures y == m || y in s
  {
    assert y in multiset(InsertByScore(m, s));
  }

  /** Descending by score; equal scores in ascending id order. */
  predicate ScoreOrdered(s: seq<Match>) {
    forall i, j :: 0 <= i < j < |s| ==>
      s[i].score > s[j].score || (s[i].score == s[j].score && s[i].id < s[j].id)
  }

  lemma {:induction false} InsertByScoreOrdered(m: Match, s: seq<Match>)
    requires ScoreOrdered(s)
    requires forall y :: y in s ==> m.id < y.id
    ensures ScoreOrdered(InsertByScore(m, s))
  {
    if s != [] && s[0].score > m.score {
      InsertByScoreOrdered(m, s[1..]);
      var t := InsertByScore(m, s[1..]);
      forall y | y in t
        ensures s[0].score > y.score || (s[0].score == y.score && s[0].id < y.id)
      {
        InsertByScoreMembers(m, s[1..], y);
      }
    }
  }

  /** `sorted(results, key=score, reverse=True)` */
  function SortByScore(s: seq<Match>): (r: seq<Match>)
    ensures multiset(r) == multiset(s)
  {
    if s == [] then []
    else
      assert s == [s[0]] + s[1..];
      InsertByScore(s[0], SortByScore(s[1..]))
  }

  /**
   * The re-sort is descending by score and stable: on a list in table order,
   * equal scores stay in ascending id order.
   */
  lemma {:induction false} SortByScoreOrdered(s: seq<Match>)
    requires forall i, j :: 0 <= i < j < |s| ==> s[i].id < s[j].id
    ensures ScoreOrdered(SortByScore(s))
  {
    if s != [] {
      var t := SortByScore(s[1..]);
      SortByScoreOrdered(s[1..]);
      forall y | y in t ensures s[0].id < y.id {
        assert y in multiset(t);
        assert y in s[1..];
        var k :| 0 <= k < |s[1..]| && s[1..][k] == y;
        assert s[k + 1] == y;
      }
      InsertByScoreOrdered(s[0], t);
    }
  }
}
