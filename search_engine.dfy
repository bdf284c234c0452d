/**
 * `SearchEngine`: the resume store and its search, over the `resumes`
 * table.  The sentence-transformer model is the function `embed`, the numpy
 * cosine similarity the function `cosine` (`None` where numpy raises), both
 * fixed when the engine is built.
 */
module Engine {
  import opened Wrappers
  import opened Text
  import opened Records
  import opened Ranking
  import opened Answer

  /** How many candidates `search` retrieves. */
  const SearchTopK := 5
  const NoResults := "No matching resumes found for your query."

  class SearchEngine {
    /** The `resumes` table, in rowid order. */
    var rows: seq<Row>
    const embed: string -> Vector
    const cosine: (Vector, Vector) -> Option<real>

    /** SQLite's rowids: positive and ascending in scan order. */
    ghost predicate Valid()
      reads this
    {
      TableValid(rows)
    }

    /** `__init__`: `CREATE TABLE IF NOT EXISTS` keeps whatever the database file already holds. */
    constructor (existing: seq<Row>, embed: string -> Vector, cosine: (Vector, Vector) -> Option<real>)
      requires TableValid(existing)
      ensures Valid()
      ensures rows == existing && this.embed == embed && this.cosine == cosine
    {
      rows := existing;
      this.embed := embed;
      this.cosine := cosine;
    }

    /**
     * `store_resume`: embed the record's text; reject an empty embedding;
     * otherwise update every row of that name and report the first one's id,
     * or insert a row under the next rowid.
     */
    method StoreResume(r: ResumeData) returns (res: Result<int, StoreError>)
      requires Valid()
      modifies this
      ensures Valid()
      ensures match Store(old(rows), r, embed(RecordText(r)))
              case Err(e) => res == Err(e) && rows == old(rows)
              case Ok(written) => res == Ok(written.1) && rows == written.0
      ensures res.Ok? ==> exists i :: 0 <= i < |rows| && rows[i].id == res.value
                                       && Holds(rows[i], r, embed(RecordText(r)))
    {
      var emb := embed(RecordText(r));
      if |emb| == 0 {
        return Err(EmbeddingFailed);
      }
      UpsertValid(rows, r, emb);
      var existing := FirstIdNamed(rows, r.name);
      if existing.Some? {
        UpsertExisting(rows, r, emb);
        var before := rows;
        rows := seq(|before|, i requires 0 <= i < |before| =>
                      if before[i].name == r.name then Overwrite(before[i], r, emb) else before[i]);
        res := Ok(existing.value);
      } else {
        UpsertNew(rows, r, emb);
        var id := NextId(rows);
        rows := rows + [NewRow(id, r, emb)];
        res := Ok(id);
      }
    }

    /** The scoring loop of `semantic_search`; `None` when a row makes it raise. */
    method ScanTable(q: Vector, query: string) returns (similarities: Option<seq<Scored>>)
      ensures similarities == Scan(rows, q, query, cosine)
    {
      var acc: seq<Scored> := [];
      var i := 0;
      while i < |rows|
        invariant 0 <= i <= |rows|
        invariant Scan(rows[..i], q, query, cosine) == Some(acc)
      {
        assert rows[..i + 1][..i] == rows[..i];
        var step := ScanRow(rows[i], q, query, cosine);
        if step.Abort? {
          ScanAborts(rows, q, query, cosine);
          return None;
        }
        if step.Score? {
          acc := acc + [step.entry];
        }
        i := i + 1;
      }
      assert rows[..i] == rows;
      return Some(acc);
    }

    /** The second query of `semantic_search` and the loop over its rows: the listed rows, in table order. */
    method FetchTop(top: seq<Scored>) returns (results: seq<Match>)
      ensures results == Fetch(rows, top)
    {
      var ids := TopIds(top);
      results := [];
      var j := 0;
      while j < |rows|
        invariant 0 <= j <= |rows|
        invariant var sel := Selected(rows[..j], ids);
          |results| == |sel| &&
          forall k :: 0 <= k < |sel| ==> results[k] == ToMatch(sel[k], ScoreFor(top, sel[k].id))
      {
        SelectedSnoc(rows[..j], rows[j], ids);
        assert rows[..j + 1] == rows[..j] + [rows[j]];
        if rows[j].id in ids {
          results := results + [ToMatch(rows[j], ScoreFor(top, rows[j].id))];
        }
        j := j + 1;
      }
      assert rows[..j] == rows;
    }

    /**
     * `semantic_search`: score every row that has an embedding, keep the
     * best `topK` pairs on `(score, id)`, and fetch those rows in table order.
     */
    method SemanticSearch(query: string, topK: int) returns (results: seq<Match>)
      requires Valid()
      ensures results == Ranked(rows, embed(query), query, topK, cosine)
      ensures 0 <= topK ==> |results| <= topK
      ensures forall i, j :: 0 <= i < j < |results| ==> results[i].id < results[j].id
    {
      RankedBound(rows, embed(query), query, topK, cosine);
      RankedInTableOrder(rows, embed(query), query, topK, cosine);
      var similarities := ScanTable(embed(query), query);
      if similarities.None? || similarities.value == [] {
        return [];
      }
      results := FetchTop(Head(SortDesc(similarities.value), topK));
    }

    /**
     * `search`: the five best candidates, re-sorted by score, with the
     * model's analysis; a fixed message when nothing matches.
     */
    method Search(query: string, llm: string -> Option<string>) returns (matches: seq<Match>, analysis: string)
      requires Valid()
      ensures matches == SortByScore(Ranked(rows, embed(query), query, SearchTopK, cosine))
      ensures |matches| <= SearchTopK && ScoreOrdered(matches)
      ensures matches == [] ==> analysis == NoResults
      ensures matches != [] ==> analysis == GenerateAnswer(query, matches, llm)
    {
      var top := SemanticSearch(query, SearchTopK);
      if top == [] {
        return [], NoResults;
      }
      matches := SortByScore(top);
      assert |matches| == |multiset(matches)| == |top|;
      SortByScoreOrdered(top);
      analysis := GenerateAnswer(query, matches, llm);
    }

    /** `clear_index`: every row is deleted. */
    method ClearIndex()
      modifies this
      ensures Valid() && rows == []
    {
      rows := [];
    }

    /**
     * `verify_database`: every row whose embedding is NULL or empty gets the
     * embedding of its own text; nothing else changes.
     */
    method VerifyDatabase()
      requires Valid()
      modifies this
      ensures Valid()
      ensures rows == Repair(old(rows), embed)
    {
      RepairValid(rows, embed);
      var i := 0;
      while i < |rows|
        invariant 0 <= i <= |rows| == |old(rows)|
        invariant forall k :: 0 <= k < i ==> rows[k] == RepairRow(old(rows)[k], embed)
        invariant forall k :: i <= k < |rows| ==> rows[k] == old(rows)[k]
      {
        if rows[i].embedding == Null || rows[i].embedding == Blank {
          rows := rows[i := rows[i].(embedding := Json(embed(RowText(rows[i]))))];
        }
        i := i + 1;
      }
    }
  }
}
