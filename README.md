# Recruiting search core, modelled in Dafny

This project models the logic at the centre of a résumé-search service for recruiters.
The service stores parsed résumés in a `resumes` table, each with a sentence embedding.
It ranks the rows against a free-text query by cosine similarity plus a keyword boost.
It asks a language model to explain the matches.
Around that engine sit several smaller pieces:

- the HTTP handlers that show a résumé in detail, pick screening questions, draft and check outreach e-mails, and compute dashboard counts;
- the rule-based résumé extractors used when the language model fails;
- the clean-up of generated screening questions;
- the e-mail templates;
- a mock background-check table.

The table is a sequence of rows in row-id order. Ids strictly ascend (`Records.TableValid`).
The sentence embedder (`embed: string -> Vector`) and the cosine score are parameters.
The cosine score is `(Vector, Vector) -> Option<real>`, where `None` stands for numpy raising on a shape mismatch.
The language model is an oracle `string -> Option<string>`, where `None` means the call raised.
Regular-expression search and `int()` parsing are also oracles.
Code that updates state in place is imperative Dafny:
- the search engine is a class whose `rows` field the methods reassign;
- the background checker is a class over a `map`;
- the source's loop-and-append code becomes methods with loop invariants, each proved equal to a specification function.
Everything else is functions and lemmas.

Modules, one per file:
- `wrappers.dfy`: `Option` and `Result`.
- `text.dfy`: Python string helpers (split, strip, lower, join, substring) and their lemmas.
- `records.dfy`: the row type, the embedding text, the upsert and the repair.
- `ranking.dfy`: the boost, the scoring scan, the top-k cut, the fetch and the final re-sort.
- `answer.dfy`: the explanation prompt and its fallbacks.
- `search_engine.dfy`: the `SearchEngine` class.
- `resume_detail.dfy`: first name, degrees, certifications, level and skills.
- `search_routes.dfy`: the handlers.
- `dashboard.dfy`: dashboard counts.
- `resume_parser.dfy`: extractors and parse.
- `screening.dfy`: question clean-up.
- `email_generator.dfy`: templates.
- `background_check.dfy`: the checker.

Where the code and the service's design description disagree, the model follows the code:
- **Ids are reused.** The `id` column is an `INTEGER PRIMARY KEY` without `AUTOINCREMENT`. So a new id is the largest id plus one (or 1 for an empty table), and ids are reused after `clear_index`.
- **Malformed embeddings are not repaired.** `verify_database` repairs only NULL and empty embeddings. A row whose stored embedding is not valid JSON is never repaired, and `semantic_search` silently skips it.
- **Ties at the cut-off go to the higher id.** The top-k cut sorts on `(score, id)` in reverse, not on insertion order. The final re-sort in `search` is stable, so equal scores end up in ascending id order.
- **An upsert updates every row of that name.** Its `UPDATE … WHERE name = ?` touches every row carrying the name, and it reports the first such row's id.
- **A blank name is an error.** In `get_resume_details`, a name made only of whitespace makes `split()[0]` raise, and the handler answers 500.
- **Certification keywords match as substrings.** Certification keywords are plain substrings, case-sensitive, so "CA" matches any part containing those two capitals.
- **A 400 inside a handler's `try` becomes a 500.** The enclosing `except` re-raises it with detail "<prefix>: 400: <detail>" (`SearchRoutes.Wrap`).

## Model

| member | source | states |
|---|---|---|
| Records.EmbeddingTextHasParts | app/services/search_engine.py:49-56 | every non-empty part (summary, skills, experience, education, contact values) occurs in the embedded text |
| Records.EmbeddingTextInOrder | app/services/search_engine.py:49-56 | with all five parts present the text is summary, skills, experience, education and contact values in that order, single spaces between |
| Records.EmbeddingTextSkipsEmptySummary | app/services/search_engine.py:56 | an empty summary is dropped by `filter(None, …)`: the text is the join of the remaining non-empty parts |
| Records.RepairTextMatchesStoreText | app/services/search_engine.py:357-364 | the text the repair rebuilds from a stored row equals the text `store_resume` embedded for that record |
| Records.FirstIdNamed | app/services/search_engine.py:76-77 | the lookup finds nothing exactly when no row has the name, and otherwise returns the id of the first row with that name |
| Records.UpsertExisting | app/services/search_engine.py:79-96 | an existing name keeps the row count and returns an existing row's id; rows of other names are unchanged; every row of that name gets the new fields, embedding and `created_at` and keeps its id |
| Records.UpsertNew | app/services/search_engine.py:97-113 | a new name appends one row after the unchanged old rows, with a fresh id larger than every existing id |
| Records.UpsertValid | app/services/search_engine.py:75-113 | the upsert keeps ids strictly ascending |
| Records.UpsertNameCount | app/services/search_engine.py:75-113 | the upsert adds no second row for a name already present, creates exactly one for a new name, and leaves the count of every other name unchanged |
| Records.UpsertTwice | app/services/search_engine.py:75-113 | storing the same name twice reports the same id, adds no row, and leaves the second write's fields in every row of that name |
| Records.StoreRejectsEmptyEmbedding | app/services/search_engine.py:62-63 | an empty embedding is rejected before the table is touched |
| Records.RepairFixesMissing | app/services/search_engine.py:336-372 | after repair no row lacks an embedding; each repaired row holds the embedding of its own rebuilt text; every other row is unchanged; the row count is kept |
| Records.RepairIdempotent | app/services/search_engine.py:336-372 | a second repair changes nothing |
| Records.RepairValid | app/services/search_engine.py:336-372 | repair keeps ids strictly ascending |
| Ranking.KeywordBoost | app/services/search_engine.py:174-190 | the boost is exactly 0, 0.1 or 0.2: 0 iff no query word is in the skills or the summary, 0.2 iff both match |
| Ranking.BoostIgnoresQueryCase | app/services/search_engine.py:174-175 | lower-casing the query first does not change the boost |
| Ranking.BlankQueryNoBoost | app/services/search_engine.py:174-190 | a query made of whitespace has no keywords and gets no boost |
| Ranking.ScanRow | app/services/search_engine.py:153-196 | a scored row is scored under its own id |
| Ranking.ScanAborts | app/services/search_engine.py:153-196 | the scan fails (and the search returns nothing) exactly when some row's cosine raises |
| Ranking.ScanSound | app/services/search_engine.py:153-196 | every entry of the similarity list comes from a row that scores to it |
| Ranking.ScanComplete | app/services/search_engine.py:153-196 | every row that scores is in the similarity list |
| Ranking.ScanUnindexed | app/services/search_engine.py:148-158 | a table with no usable embedding gives an empty similarity list |
| Ranking.InsertDescSorted | app/services/search_engine.py:203 | inserting into a list sorted descending on (score, id) keeps it sorted |
| Ranking.SortDesc | app/services/search_engine.py:203 | `sorted(similarities, reverse=True)` is a permutation, descending on (score, id) |
| Ranking.HeadIsBest | app/services/search_engine.py:203 | an entry cut off by `[:top_k]` is not above any entry kept |
| Ranking.Selected | app/services/search_engine.py:207-216 | the second query returns exactly the table rows whose id was selected, and no more rows than the table has |
| Ranking.ScoreFor | app/services/search_engine.py:219 | the score looked up for a selected id is that id's entry in the top list |
| Ranking.TopIdsBound | app/services/search_engine.py:205 | there are no more selected ids than top entries |
| Ranking.SelectedBound | app/services/search_engine.py:207-216 | with unique ids, no more rows come back than ids were asked for |
| Ranking.SelectedAscending | app/services/search_engine.py:207-216 | rows come back in ascending id order |
| Ranking.RankedBound | app/services/search_engine.py:203-237 | `semantic_search` returns at most `top_k` results |
| Ranking.RankedFromRow | app/services/search_engine.py:203-237 | every result is built from one table row and carries that row's scan score |
| Ranking.RankedScore | app/services/search_engine.py:160-192 | a result's score is the row's cosine similarity plus its keyword boost |
| Ranking.RankedExcludesUnindexed | app/services/search_engine.py:143-158 | a row with a NULL, empty or unparsable embedding never appears in the results |
| Ranking.RankedTopK | app/services/search_engine.py:203 | a scored row left out of the results does not rank above any result on (score, id) |
| Ranking.RankedComplete | app/services/search_engine.py:203-230 | every row whose entry the `[:top_k]` cut of the (score, id) descending sort keeps is among the results |
| Ranking.ScanAscending | app/services/search_engine.py:148-193 | the similarity list is built in table order, so its ids strictly ascend |
| Ranking.SelectedCount | app/services/search_engine.py:209-216 | with distinct rowids, fetching a set of ids that all belong to rows returns exactly one row per id |
| Ranking.RankedCount | app/services/search_engine.py:203-237 | when the scan succeeds, the number of results equals the number of entries the cut keeps, `min(top_k, n)` for `n` scored rows |
| Ranking.RankedEmptyStore | app/services/search_engine.py:148-200 | with no usable embedding the search returns `[]` |
| Ranking.RankedInTableOrder | app/services/search_engine.py:207-237 | `semantic_search` results are in ascending id order, not score order |
| Ranking.InsertByScore | app/services/search_engine.py:293 | inserting a match adds exactly that match |
| Ranking.InsertByScoreOrdered | app/services/search_engine.py:293 | inserting a match with a smaller id than all others into a score-ordered list keeps it score-ordered (ties by id) |
| Ranking.SortByScore | app/services/search_engine.py:293 | the re-sort is a permutation |
| Ranking.SortByScoreOrdered | app/services/search_engine.py:293 | re-sorting an id-ascending list gives descending scores, equal scores in ascending id order (a stable sort) |
| Answer.Entry | app/services/search_engine.py:248-252 | a candidate's block starts with its "Name: " line, holds its skills joined by ", ", its experience and its education each on a line of its own, and ends with its "Summary: " text |
| Answer.Entries | app/services/search_engine.py:247-254 | one block per match, in the matches' order, each laid out from that match's own name, skills, experience, education and summary |
| Answer.PromptNamesEveryCandidate | app/services/search_engine.py:247-268 | every candidate's "Name: …" line occurs in the prompt |
| Answer.EntryNamesCandidate | app/services/search_engine.py:248 | a candidate's block contains its name line |
| Answer.PromptQuotesQuery | app/services/search_engine.py:256-258 | the prompt quotes the query verbatim |
| Answer.NoMatchesNoCall | app/services/search_engine.py:244-245 | with no matches the answer is "No matching resumes found." whatever the model would do |
| Answer.AnswerFallback | app/services/search_engine.py:270-275 | a failed model call gives "Error generating analysis. Please try again."; a reply is returned stripped |
| Answer.AnswerTrimmed | app/services/search_engine.py:270-272 | a non-empty answer has no whitespace at either end |
| Engine.SearchEngine.StoreResume | app/services/search_engine.py:45-128 | the table becomes the upsert of the record with its embedding (or is left alone on an empty embedding), ids stay ascending, and the returned id names a row holding the record |
| Engine.SearchEngine.ScanTable | app/services/search_engine.py:152-196 | the loop builds exactly the similarity list of the scan, or fails as the scan does |
| Engine.SearchEngine.FetchTop | app/services/search_engine.py:205-237 | the loop over the fetched rows builds exactly the fetch of the top entries |
| Engine.SearchEngine.SemanticSearch | app/services/search_engine.py:130-240 | the result is the ranked selection, at most `top_k` long, in ascending id order |
| Engine.SearchEngine.Search | app/services/search_engine.py:277-307 | matches are the top 5 re-sorted by descending score (ties by id); none gives "No matching resumes found for your query."; otherwise the analysis is the model's answer |
| Engine.SearchEngine.ClearIndex | app/services/search_engine.py:309-319 | the table is empty afterwards |
| Engine.SearchEngine.VerifyDatabase | app/services/search_engine.py:321-379 | the table becomes its repair |
| ResumeDetail.FirstNameFails | app/routes/search.py:153 | taking the first name raises exactly for a non-empty, all-whitespace name |
| ResumeDetail.FirstNameIsWord | app/routes/search.py:153 | a first name is a non-empty word without whitespace that occurs in the name |
| ResumeDetail.EducationDetails | app/routes/search.py:156-166 | one degree entry per stripped non-empty comma part, in order, year and institution `None`; none when education is empty |
| ResumeDetail.CollectDegrees | app/routes/search.py:160-166 | the loop keeps exactly the non-empty parts |
| ResumeDetail.Certifications | app/routes/search.py:168-178 | one certification per part naming a certification keyword, in order |
| ResumeDetail.CollectCertifications | app/routes/search.py:172-178 | the loop keeps exactly the parts with a keyword |
| ResumeDetail.CertificationPresent | app/routes/search.py:173 | a part naming a keyword is non-empty |
| ResumeDetail.CertificationsAreDegrees | app/routes/search.py:156-178 | the certifications are a sub-list of the degree entries |
| ResumeDetail.DegreeNamesClean | app/routes/search.py:159-161 | every degree entry is non-empty, has no comma and no surrounding whitespace |
| ResumeDetail.ScreeningLevel | app/routes/search.py:222 | the level is "senior" or "mid" |
| ResumeDetail.ScreeningLevelIgnoresCase | app/routes/search.py:222 | the level does not depend on the case of the experience text |
| ResumeDetail.AnyFiveIsSenior | app/routes/search.py:222 | a "5" anywhere gives "senior" |
| ResumeDetail.MentionsSeniorIsSenior | app/routes/search.py:222 | the word "senior" in any case gives "senior" |
| ResumeDetail.MidOtherwise | app/routes/search.py:222 | without a "5" or "senior" the level is "mid" |
| ResumeDetail.KeySkillsStartWithPrimary | app/routes/search.py:239-241 | the key skills start with the skill used (the first one, or "developer") |
| ResumeDetail.KeySkillsNameEverySkill | app/routes/search.py:239-241 | every listed skill occurs in the key skills |
| SearchRoutes.Decimal | app/routes/search.py:205 | `str()` of a status code is a non-empty string of digits |
| SearchRoutes.Wrap | app/routes/search.py:204-205 | a handler's failure is a 500 whose detail is the handler's prefix, ": " and the exception's text |
| SearchRoutes.WrapNotFound | app/routes/search.py:137-205 | a missing résumé reaches the client as 500 "<prefix>: 404: Resume not found" |
| SearchRoutes.WrapQueryRequired | app/routes/search.py:57-77 | an empty query reaches the client as 500 "Error searching candidates: 400: Search query is required" |
| SearchRoutes.RowWithId | app/routes/search.py:130-135 | the row fetched has the id, and nothing is fetched only when no row has it |
| SearchRoutes.SearchCandidates | app/routes/search.py:53-77 | an empty query fails before the table is touched; otherwise the table is repaired and the search's matches returned, with the fixed analysis when there are none and the language model's answer for those matches otherwise |
| SearchRoutes.GetResumeDetails | app/routes/search.py:122-205 | 404 (wrapped) for an unknown id, the wrapped `IndexError` for a blank name, otherwise every field of the row plus the degree and certification lists |
| SearchRoutes.GetScreeningQuestions | app/routes/search.py:207-225 | 404 (wrapped) for an unknown id; otherwise the questions for the primary skill at the chosen level, or the fallback questions |
| SearchRoutes.OutreachNotFound | app/routes/search.py:236-257 | an unknown id gives 500 "Error generating outreach email: 404: Resume not found" |
| SearchRoutes.OutreachUsesGeneratorDefaults | app/routes/search.py:238-255 | the handler's own environment reads agree with the generator's defaults: the e-mail is the generator's with the name, skill and key skills only |
| SearchRoutes.SendEmailChecksPayloadFirst | app/routes/search.py:262-266 | an incomplete payload gives 400 "Missing to, subject, or body." whatever the SMTP configuration |
| SearchRoutes.SendEmailRejectsOnlyBadPayload | app/routes/search.py:262-273 | a 400 comes back exactly when `to`, `subject` or `body` is missing or empty |
| SearchRoutes.SendEmailReady | app/routes/search.py:262-279 | the message is sent exactly when the payload is complete, the port parses to a non-zero number and host, user, password and sender are set; it goes to the payload's address from the sender |
| SearchRoutes.SendEmailDefaultPort | app/routes/search.py:268 | without `SMTP_PORT` the port is 587 |
| Dashboard.Locations | app/routes/search.py:309-317 | at most one location per row, each non-empty |
| Dashboard.Distinct | app/routes/search.py:349-351 | the distinct values are no more than the values |
| Dashboard.DistinctMembers | app/routes/search.py:349-351 | the distinct values are exactly the values, without repeats |
| Dashboard.CollectLocations | app/routes/search.py:309-317 | the loop collects exactly the truthy `location` of each row's contact, in order |
| Dashboard.CollectSkills | app/routes/search.py:320-327 | the loop concatenates every row's skills, in order |
| Dashboard.TopByCount | app/routes/search.py:318-328 | the top value has maximal count among the values, or is "" for an empty list |
| Dashboard.CountDistribution | app/routes/search.py:330-351 | one entry per distinct value in first-seen order, each with its count |
| Dashboard.DashboardMetrics | app/routes/search.py:288-364 | the total is the row count; top location and top skill are of maximal count; both distributions count their lists |
| Dashboard.CountsSumToLength | app/routes/search.py:349-351 | the counts of the distinct values add up to the list's length |
| Dashboard.DistributionTotal | app/routes/search.py:345-351 | a distribution's counts sum to the length of its list and are all at least 1 |
| Dashboard.LocationsPerRow | app/routes/search.py:309-317 | there is one location per row that has one |
| Dashboard.LocationCountsCoverRows | app/routes/search.py:309-351 | the location counts sum to the number of rows that have a location |
| Dashboard.TopLocationEmpty | app/routes/search.py:318 | the top location is "" exactly when no row has a location |
| ResumeParser.ExtractContact | app/services/resume_parser.py:135-149 | the contact holds only `email` and `phone`, each the match found, and is `None` rather than empty |
| ResumeParser.ExtractSkills | app/services/resume_parser.py:97-106 | the loop keeps exactly the keywords mentioned in the text |
| ResumeParser.KeepMentioned | app/services/resume_parser.py:99-104 | the loop over any keyword list keeps exactly the mentioned ones, in order |
| ResumeParser.SkillsExact | app/services/resume_parser.py:102-104 | a skill is found iff it is a keyword whose lower-cased form occurs in the lower-cased text |
| ResumeParser.SkillsOrdered | app/services/resume_parser.py:9-106 | the skills are in keyword-list order, without repeats |
| ResumeParser.ExtractNameFirstLine | app/services/resume_parser.py:90-95 | the name is the first line, stripped ("Unknown" is never returned) |
| ResumeParser.ExtractExperience | app/services/resume_parser.py:108-121 | the loop returns what the first-capture rule gives |
| ResumeParser.ExperienceCases | app/services/resume_parser.py:110-121 | the experience is "<capture> years" from the first pattern that matches the lower-cased text, or "Experience not specified" when none does |
| ResumeParser.ExtractEducation | app/services/resume_parser.py:123-133 | the nested loops return the first line with a degree keyword, stripped, or `None` |
| ResumeParser.FindFirstLine | app/services/resume_parser.py:128-133 | the nested loops return the first line naming any key, stripped |
| ResumeParser.FirstLineWithNone | app/services/resume_parser.py:128-133 | nothing is found exactly when no line names a key |
| ResumeParser.FirstLineWithFirst | app/services/resume_parser.py:128-131 | a line found is the first one that names a key, stripped |
| ResumeParser.ParseResumeText | app/services/resume_parser.py:55-88 | a reply that cleans and decodes gives its fields with defaults; any failure gives the rule-based fallback |
| ResumeParser.ParseWithRules | app/services/resume_parser.py:81-88 | the fallback record is built by the five extractors |
| ResumeParser.OpeningFenceRemoved | app/services/resume_parser.py:61 | a leading "```json" fence and the whitespace after it are removed |
| ResumeParser.ClosingFenceRemoved | app/services/resume_parser.py:61 | a trailing "```" fence and the whitespace before it are removed |
| ResumeParser.FenceRemoved | app/services/resume_parser.py:59-61 | a fenced reply is cleaned to the JSON inside |
| ResumeParser.UnfencedReplyStripped | app/services/resume_parser.py:59-60 | a reply not starting with "```" is only stripped |
| ResumeParser.DefaultsWhenAbsent | app/services/resume_parser.py:67-74 | with every field absent the defaults are "Unknown", [], "Experience not specified", None, {} and "No summary available" |
| ResumeParser.FallbackSummary | app/services/resume_parser.py:87 | the fallback summary is always "No summary available" |
| Screening.GenerateQuestions | app/services/screening_generator.py:5-26 | a failed call gives the five fixed questions; a reply gives its cleaned questions |
| Screening.CleanLines | app/services/screening_generator.py:12-16 | the loop keeps exactly the non-empty de-numbered lines, in order |
| Screening.Unnumbered | app/services/screening_generator.py:14 | one result per line; each is a suffix of its line that does not start with a digit, dot, dash or space, and every character cut off the front is one of those |
| Screening.QuestionsBound | app/services/screening_generator.py:17 | at most 5 questions |
| Screening.QuestionsClean | app/services/screening_generator.py:11-17 | every question is non-empty and does not start with a digit, '.', '-' or space |
| Screening.QuestionsInOrder | app/services/screening_generator.py:11-17 | the questions are a prefix of the cleaned lines, which keep the reply's line order |
| Screening.FallbackAboutSkill | app/services/screening_generator.py:20-26 | exactly five fallback questions, numbered "1." to "5.", each naming the skill |
| EmailGenerator.FormatShowsHole | app/services/email_generator.py:34-53 | a placeholder in a template is replaced by its value |
| EmailGenerator.UnknownTemplate | app/services/email_generator.py:33 | an unknown template name gives the "initial_outreach" e-mail |
| EmailGenerator.SubjectNamesCompany | app/services/email_generator.py:3-20 | every subject contains the resolved company name |
| EmailGenerator.GreetingFirst | app/services/email_generator.py:3-20 | a body opening with the greeting starts "Hi <name>," |
| EmailGenerator.BodyGreets | app/services/email_generator.py:3-54 | every body starts "Hi <name>," |
| EmailGenerator.ArgumentsWin | app/services/email_generator.py:25-31 | non-empty arguments are used as given |
| EmailGenerator.DefaultsApply | app/services/email_generator.py:25-31 | with no arguments and no environment the fixed defaults apply ("Our Company", "Developer", the skill, "", "AI Recruiter", "Recruiter", "PeopleGPT") |
| BackgroundCheck.Seed | app/services/background_check.py:6-11 | the initial table holds John, Alice and Bob |
| BackgroundCheck.SeedStatuses | app/services/background_check.py:6-11 | John and Bob are flagged, Alice is clear |
| BackgroundCheck.BackgroundChecker.constructor | app/services/background_check.py:5-11 | a new checker holds the seed table |
| BackgroundCheck.BackgroundChecker.Check | app/services/background_check.py:13-34 | a known name gives its stored record whatever the location; an unknown one gives "clear"/"No records found in <location>" or "flagged"/"Verification required for <location>"; the table is not changed |
| BackgroundCheck.BackgroundChecker.AddRecord | app/services/background_check.py:36-41 | the entry for the name is set (overwriting), every other entry is unchanged |
| BackgroundCheck.AddThenCheck | app/services/background_check.py:13-41 | a check after `add_record` returns exactly the record added |

## Left out

- Reading PDFs (`fitz`) is not modelled. The parser takes the text.
- SQLite, connections, schema creation, `created_at` generation and the JSON (de)serialisation of columns are not modelled. A stored column is already decoded; an embedding column is NULL, empty, unparsable or a vector.
- The embedding model and the numpy cosine arithmetic are parameters.
- Ranking.ScanRow: a zero-norm vector gives a NaN cosine in the source. The oracle returns a real or nothing, so NaN scores, which break the total order the sorts rely on, are not modelled.
- Ranking.KeywordBoost: scores are exact reals, not floats. In floating point `c + 0.1 + 0.1` need not equal `c + 0.2`, which can change who wins a tie at the top-k cut.
- Ranking.SelectedAscending: the second `SELECT … WHERE id IN (…)` has no `ORDER BY`, so SQLite does not promise an order. The model takes the table's row-id order, which is what `Ranking.RankedInTableOrder` and the stable re-sort in `search` then build on.
- Text.Lower: `lower()`, `split()` and `strip()` are modelled on ASCII only (ASCII letters are lowered; whitespace is ASCII whitespace and the separators `\x1c`–`\x1f`). Non-ASCII letters and spaces can change keyword boosts, first names and the screening level.
- The Groq client is the `llm` oracle. Its temperature and token limits are not modelled.
- Regular-expression matching (experience, e-mail and phone patterns, and the fence regex's own scanning) is an oracle or is specialised to the fence shapes proved about.
- Randomness: the status that `BackgroundCheck.BackgroundChecker.Check` invents for an unknown name is a nondeterministic choice between "clear" and "flagged".
- Printing and logging are not modelled.
- The `location` and `experience_years` parameters of `search` are unused in the source, so they are not modelled.
- `Dashboard.DashboardMetrics`: the skill distribution holds raw counts rather than `round(100 * count / total)`, because percentages are float arithmetic.
- `Dashboard.DashboardMetrics`: the average experience and the experience distribution are not modelled, because they parse floats.
- `Dashboard.DashboardMetrics`: the handler's catch-all fallback is not modelled, because in this model no step can fail.
- `Dashboard.DashboardMetrics`: a contact column holding JSON `null` is not modelled; a missing contact is an empty mapping.
- Records.Repair: a stored row always has a skills list and a contact mapping. In the source, a row to repair whose skills column is NULL (`json.loads(None)`) or whose contact column holds JSON `null` (`.values()` on `None`) makes `verify_database` raise. Such rows come from the ORM upload path, which stores a missing contact as JSON `null`.
- Engine.SearchEngine.VerifyDatabase: never fails in the model. In the source, the failure above happens before `commit()`, so the repairs made so far are discarded. `search_candidates` then answers 500 "Error searching candidates: …", which `SearchRoutes.SearchCandidates` does not model either.
- ResumeParser.ParseResumeText: a key that the model's JSON reply holds with the value `null` is treated as absent. In the source, `.get(key, default)` then gives `None`, not the default.
- `Dashboard.TopByCount` returns some value of maximal count. Which one wins a tie is decided by Python's set iteration order, which the model does not fix.
- `SearchRoutes.SendEmail`: building the MIME message and talking to the SMTP server are not modelled. The result is the outgoing message. `int()` on the port is the `parseInt` oracle; when it raises, the handler answers 500 "Internal Server Error".
- The wiring-only routes (`get_all_resumes`, `get_resume`, `add_candidate`, `clear_index`, the upload, background, screening and e-mail routers) are not modelled. They add no logic beyond calls into the modelled services.
- `clean_json_response` is the identity and is not modelled separately.
