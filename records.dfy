/**
 * The `resumes` table of the search engine and the two ways it is written:
 * the upsert keyed on `name` done by `SearchEngine.store_resume` and the
 * embedding repair done by `SearchEngine.verify_database`.
 *
 * The table is a sequence of rows in rowid order, which is also the order in
 * which SQLite scans it.  Columns that hold JSON text (`skills`, `contact`) are
 * kept decoded; the `embedding` column keeps the four shapes the engine tells
 * apart.
 */
module Records {
  import opened Wrappers
  import opened Text

  /** An embedding as returned by the sentence-transformer model. */
  type Vector = seq<real>

  /** A contact mapping, in insertion order as Python dicts keep it. */
  type Contact = seq<(string, string)>

  /** What the TEXT column `embedding` of a row holds. */
  datatype Embedding =
    | Null              // SQL NULL: rows written through the ORM, which has no such column
    | Blank             // the empty string
    | Malformed         // text that `json.loads` (or numpy) rejects with a decode or type error
    | Json(vector: Vector)  // a JSON list of numbers

  /** The record handed to `store_resume`. */
  datatype ResumeData = ResumeData(
    name: string,
    skills: seq<string>,
    experience: string,
    education: Option<string>,
    contact: Contact,
    summary: Option<string>,
    createdAt: Option<string>)

  datatype Row = Row(
    id: int,
    name: string,
    skills: seq<string>,
    experience: string,
    education: Option<string>,
    contact: Contact,
    summary: Option<string>,
    embedding: Embedding,
    createdAt: Option<string>)

  datatype StoreError = EmbeddingFailed

  /** The rowids SQLite hands out are positive and the scan order is rowid order. */
  ghost predicate TableValid(rows: seq<Row>) {
    && (forall i :: 0 <= i < |rows| ==> rows[i].id >= 1)
    && (forall i, j :: 0 <= i < j < |rows| ==> rows[i].id < rows[j].id)
  }

  function Values(c: Contact): seq<string> {
    seq(|c|, i requires 0 <= i < |c| => c[i].1)
  }

  /** `contact.get(key)` */
  function Get(c: Contact, key: string): Option<string> {
    if c == [] then None
    else if c[0].0 == key then Some(c[0].1)
    else Get(c[1..], key)
  }

  function Names(rows: seq<Row>): seq<string> {
    seq(|rows|, i requires 0 <= i < |rows| => rows[i].name)
  }

  // ---------------------------------------------------------------------------
  // The text that is embedded

  /**
   * The embedding text: summary, the skills joined with spaces, experience,
   * education and the contact values joined with spaces, empty parts dropped
   * and the rest joined with single spaces.
   */
  function EmbeddingText(summary: string, skills: seq<string>, experience: string,
                         education: string, contact: Contact): string
  {
    Join(NonEmpty([summary, Join(skills, " "), experience, education, Join(Values(contact), " ")]), " ")
  }

  /** The text `store_resume` embeds (absent optional fields count as ""). */
  function RecordText(r: ResumeData): string {
    EmbeddingText(r.summary.GetOr(""), r.skills, r.experience, r.education.GetOr(""), r.contact)
  }

  /** The text `verify_database` rebuilds from a stored row (`column or ''`). */
  function RowText(row: Row): string {
    EmbeddingText(row.summary.GetOr(""), row.skills, row.experience, row.education.GetOr(""), row.contact)
  }

  /** Every non-empty part of the embedding text occurs in it. */
  lemma EmbeddingTextHasParts(summary: string, skills: seq<string>, experience: string,
                              education: string, contact: Contact, part: string)
    requires part in [summary, Join(skills, " "), experience, education, Join(Values(contact), " ")]
    requires part != ""
    ensures Contains(EmbeddingText(summary, skills, experience, education, contact), part)
  {
    var parts := [summary, Join(skills, " "), experience, education, Join(Values(contact), " ")];
    var kept := NonEmpty(parts);
    FilterMembers(parts, Present);
    assert part in kept;
    var i :| 0 <= i < |kept| && kept[i] == part;
    JoinContains(kept, " ", i);
  }

  /** With every part present, the text is the five parts in order, one space apart. */
  lemma EmbeddingTextInOrder(summary: string, skills: seq<string>, experience: string,
                             education: string, contact: Contact)
    requires summary != "" && Join(skills, " ") != "" && experience != ""
    requires education != "" && Join(Values(contact), " ") != ""
    ensures EmbeddingText(summary, skills, experience, education, contact)
         == summary + " " + Join(skills, " ") + " " + experience + " " + education + " " + Join(Values(contact), " ")
  {
    JoinPresentFive(summary, Join(skills, " "), experience, education, Join(Values(contact), " "));
  }

  lemma JoinPresentFive(a: string, b: string, c: string, d: string, e: string)
    requires a != "" && b != "" && c != "" && d != "" && e != ""
    ensures Join(NonEmpty([a, b, c, d, e]), " ") == a + " " + b + " " + c + " " + d + " " + e
  {
    FilterAll([a, b, c, d, e], Present);
    JoinFive(a, b, c, d, e, " ");
  }

  /** An absent summary contributes nothing: the text starts with the next present part. */
  lemma EmbeddingTextSkipsEmptySummary(skills: seq<string>, experience: string,
                                       education: string, contact: Contact)
    ensures EmbeddingText("", skills, experience, education, contact)
         == Join(NonEmpty([Join(skills, " "), experience, education, Join(Values(contact), " ")]), " ")
  {
    var rest := [Join(skills, " "), experience, education, Join(Values(contact), " ")];
    assert ["", Join(skills, " "), experience, education, Join(Values(contact), " ")] == [""] + rest;
    FilterCons("", rest, Present);
    assert [] + Filter(rest, Present) == Filter(rest, Present);
  }

  /** A row written by `store_resume` gives back, on repair, the text it was embedded from. */
  lemma RepairTextMatchesStoreText(r: ResumeData, id: int, emb: Vector)
    ensures RowText(NewRow(id, r, emb)) == RecordText(r)
  {
  }

  // ---------------------------------------------------------------------------
  // Upsert keyed on name

  /** The rowid SQLite assigns to an insert: one more than the largest, or 1. */
  function NextId(rows: seq<Row>): int {
    if rows == [] then 1 else rows[|rows| - 1].id + 1
  }

  function NewRow(id: int, r: ResumeData, emb: Vector): Row {
    Row(id, r.name, r.skills, r.experience, r.education, r.contact, r.summary, Json(emb), r.createdAt)
  }

  /** The UPDATE: every column but `id` and `name` is overwritten, `created_at` included. */
  function Overwrite(row: Row, r: ResumeData, emb: Vector): Row {
    row.(skills := r.skills, experience := r.experience, education := r.education,
         contact := r.contact, summary := r.summary, embedding := Json(emb), createdAt := r.createdAt)
  }

  /** The row holds exactly the fields of `r` and the embedding `emb`. */
  predicate Holds(row: Row, r: ResumeData, emb: Vector) {
    && row.name == r.name && row.skills == r.skills && row.experience == r.experience
    && row.education == r.education && row.contact == r.contact && row.summary == r.summary
    && row.embedding == Json(emb) && row.createdAt == r.createdAt
  }

  /** `SELECT id FROM resumes WHERE name = ?` followed by `fetchone()`. */
  function FirstIdNamed(rows: seq<Row>, name: string): (r: Option<int>)
    ensures r.None? <==> name !in Names(rows)
    ensures r.Some? ==> exists i :: 0 <= i < |rows| && rows[i].name == name && rows[i].id == r.value
                                      && forall j :: 0 <= j < i ==> rows[j].name != name
  {
    if rows == [] then None
    else if rows[0].name == name then assert Names(rows)[0] == name; Some(rows[0].id)
    else
      var r := FirstIdNamed(rows[1..], name);
      assert Names(rows) == [rows[0].name] + Names(rows[1..]);
      if r.Some? then
        var i :| 0 <= i < |rows[1..]| && rows[1..][i].name == name && rows[1..][i].id == r.value
                 && forall j :: 0 <= j < i ==> rows[1..][j].name != name;
        assert rows[i + 1] == rows[1..][i];
        r
      else r
  }

  /**
   * The write `store_resume` makes once the embedding is known: update every
   * row carrying the name and report the first one's id, or insert a new row.
   */
  function Upsert(rows: seq<Row>, r: ResumeData, emb: Vector): (seq<Row>, int) {
    match FirstIdNamed(rows, r.name)
    case Some(id) =>
      (seq(|rows|, i requires 0 <= i < |rows| =>
         if rows[i].name == r.name then Overwrite(rows[i], r, emb) else rows[i]), id)
    case None =>
      (rows + [NewRow(NextId(rows), r, emb)], NextId(rows))
  }

  /**
   * `store_resume` as a whole: an empty embedding is rejected before the
   * table is touched; otherwise the upsert.
   */
  function Store(rows: seq<Row>, r: ResumeData, emb: Vector): Result<(seq<Row>, int), StoreError> {
    if |emb| == 0 then Err(EmbeddingFailed) else Ok(Upsert(rows, r, emb))
  }

  /** Updating an existing name keeps the row count and the id, and touches only rows of that name. */
  lemma UpsertExisting(rows: seq<Row>, r: ResumeData, emb: Vector)
    requires r.name in Names(rows)
    ensures var (t, id) := Upsert(rows, r, emb);
      && |t| == |rows|
      && (exists i :: 0 <= i < |rows| && rows[i].name == r.name && rows[i].id == id)
      && (forall i :: 0 <= i < |rows| && rows[i].name != r.name ==> t[i] == rows[i])
      && (forall i :: 0 <= i < |rows| && rows[i].name == r.name ==>
            t[i].id == rows[i].id && Holds(t[i], r, emb))
  {
  }

  /** Inserting a new name appends one row with a fresh, larger id and keeps the others. */
  lemma UpsertNew(rows: seq<Row>, r: ResumeData, emb: Vector)
    requires r.name !in Names(rows)
    ensures var (t, id) := Upsert(rows, r, emb);
      && |t| == |rows| + 1 && t[..|rows|] == rows
      && t[|rows|].id == id && Holds(t[|rows|], r, emb)
      && (TableValid(rows) ==> forall i :: 0 <= i < |rows| ==> rows[i].id < id)
  {
    var (t, id) := Upsert(rows, r, emb);
    assert t[..|rows|] == rows;
    if TableValid(rows) && rows != [] {
      forall i | 0 <= i < |rows| ensures rows[i].id < id {
        if i < |rows| - 1 {
          assert rows[i].id < rows[|rows| - 1].id;
        }
      }
    }
  }

  /** The upsert keeps rowids positive and ascending. */
  lemma {:induction false} UpsertValid(rows: seq<Row>, r: ResumeData, emb: Vector)
    requires TableValid(rows)
    ensures TableValid(Upsert(rows, r, emb).0)
  {
    if r.name !in Names(rows) {
      UpsertNew(rows, r, emb);
      var t := Upsert(rows, r, emb).0;
      forall i, j | 0 <= i < j < |t| ensures t[i].id < t[j].id {
        if j < |rows| {
          assert t[i] == rows[i] && t[j] == rows[j];
        } else {
          assert t[i] == rows[i];
        }
      }
      if rows == [] {
        assert t[0].id == 1;
      }
    }
  }

  /**
   * Names are a de-duplication key: afterwards the name occurs once if it
   * occurred at most once before, and no other name changes its count.
   */
  lemma UpsertNameCount(rows: seq<Row>, r: ResumeData, emb: Vector, other: string)
    ensures var t := Upsert(rows, r, emb).0;
      && multiset(Names(t))[r.name] == (if r.name in Names(rows) then multiset(Names(rows))[r.name] else 1)
      && (other != r.name ==> multiset(Names(t))[other] == multiset(Names(rows))[other])
  {
    var t := Upsert(rows, r, emb).0;
    if r.name in Names(rows) {
      assert Names(t) == Names(rows);
    } else {
      assert Names(t) == Names(rows) + [r.name];
    }
  }

  /**
   * Two writes of the same name leave one entry for it: the second write
   * reports the first write's id, adds no row, and every row of that name
   * holds the second write's fields.
   */
  lemma UpsertTwice(rows: seq<Row>, r1: ResumeData, e1: Vector, r2: ResumeData, e2: Vector)
    requires r1.name == r2.name
    ensures var (t1, id1) := Upsert(rows, r1, e1);
            var (t2, id2) := Upsert(t1, r2, e2);
      && id2 == id1 && |t2| == |t1|
      && (forall i :: 0 <= i < |t2| && t2[i].name == r2.name ==> Holds(t2[i], r2, e2))
      && (forall i :: 0 <= i < |t2| && t2[i].name != r2.name ==> t2[i] == t1[i])
  {
    var (t1, id1) := Upsert(rows, r1, e1);
    assert Names(t1) == (if r1.name in Names(rows) then Names(rows) else Names(rows) + [r1.name]);
    assert r2.name in Names(t1);
    if r1.name in Names(rows) {
      var i :| 0 <= i < |rows| && rows[i].name == r1.name && rows[i].id == id1
                && forall j :: 0 <= j < i ==> rows[j].name != r1.name;
      assert t1[i].id == id1 && t1[i].name == r1.name;
      assert forall j :: 0 <= j < i ==> t1[j].name != r1.name;
      var k :| 0 <= k < |t1| && t1[k].name == r2.name && t1[k].id == FirstIdNamed(t1, r2.name).value
                && forall j :: 0 <= j < k ==> t1[j].name != r2.name;
      assert k == i;
    } else {
      forall j | 0 <= j < |rows| ensures t1[j].name != r1.name {
        assert Names(rows)[j] == rows[j].name;
      }
      assert t1[|rows|].name == r1.name;
    }
  }

  /** A failed embedding leaves the table as it was. */
  lemma StoreRejectsEmptyEmbedding(rows: seq<Row>, r: ResumeData)
    ensures Store(rows, r, []) == Err(EmbeddingFailed)
  {
  }

  // ---------------------------------------------------------------------------
  // Repair of missing embeddings

  /** A row the repair scan selects: `embedding IS NULL OR embedding = ''`. */
  predicate MissingEmbedding(row: Row) {
    row.embedding == Null || row.embedding == Blank
  }

  function RepairRow(row: Row, embed: string -> Vector): Row {
    if MissingEmbedding(row) then row.(embedding := Json(embed(RowText(row)))) else row
  }

  /** The table after `verify_database`. */
  function Repair(rows: seq<Row>, embed: string -> Vector): seq<Row> {
    seq(|rows|, i requires 0 <= i < |rows| => RepairRow(rows[i], embed))
  }

  /**
   * After a repair no row misses its embedding; a repaired row is embedded
   * from its own text and changes in no other column; every other row is
   * left as it was.
   */
  lemma RepairFixesMissing(rows: seq<Row>, embed: string -> Vector)
    ensures var t := Repair(rows, embed);
      && |t| == |rows|
      && (forall i :: 0 <= i < |t| ==> !MissingEmbedding(t[i]))
      && (forall i :: 0 <= i < |rows| && MissingEmbedding(rows[i]) ==>
            t[i] == rows[i].(embedding := Json(embed(RowText(rows[i])))))
      && (forall i :: 0 <= i < |rows| && !MissingEmbedding(rows[i]) ==> t[i] == rows[i])
  {
  }

  /** A second repair finds nothing to fix. */
  lemma RepairIdempotent(rows: seq<Row>, embed: string -> Vector)
    ensures Repair(Repair(rows, embed), embed) == Repair(rows, embed)
  {
  }

  /** Repair keeps the rowids, so the table stays valid. */
  lemma RepairValid(rows: seq<Row>, embed: string -> Vector)
    requires TableValid(rows)
    ensures TableValid(Repair(rows, embed))
  {
  }
}
