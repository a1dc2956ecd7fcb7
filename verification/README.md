# Per-competition billing report

A model of the billing batch of a multi-tenant competition platform. For every
tenant, and every competition of that tenant whose `finished_at` is set, the
batch classifies each participant as a *player* (has a score) or a *visitor*
(opened the competition without scoring). It then counts both kinds and
appends one `billing_report` row: 100 yen per player and 10 yen per visitor.

Two modules:

- `BillingSpec` (`billing_spec.dfy`) holds the values: `CompetitionRow`, one
  row of the grouped visit-history query (`VisitSummary`), the two categories,
  and the eight-column `BillingReport`. It also holds the reference
  definitions the batch is proved against. `VisitorMap` and `MarkPlayers`
  give the billing map after each of the two passes, one row at a time.
  `BillingReportOf` gives the row written for one competition, and
  `BatchReports` the rows of a whole run. Closed-form descriptions
  (`InTimeVisitors`, `Scored`, `CountOf`) are stated independently, and
  lemmas connect the two.
- `BillingReportBatch` (`billing_batch.dfy`) is the program as it runs.
  `AdminDb` is the administrative store's `billing_report` table.
  `BuildBillingMap` fills the map in place over the visit rows and then the
  score rows. `CountCategories` is the counting loop.
  `BillingReportByCompetition` looks up the competition, builds the map,
  counts only when finished, and inserts the row. `RunBatch` is the driver's
  nested loop over tenants and their competitions; `BillTenant` is its inner
  loop.

"Finished" follows Python truthiness of `finished_at`: the value must be
present and non-zero. The driver's listing (line 125) admits `finished_at = 0`;
billing (lines 79 and 98) treats it as unfinished, so such a competition is
billed with zero counts (`ZeroFinishedAtBilledEmpty`).

The two queries are inputs. The visit rows (`SELECT player_id,
MIN(created_at) ... GROUP BY player_id`) are a `seq<VisitSummary>`. The
scored ids (`SELECT DISTINCT(player_id) ...`) are a `seq<PlayerId>`. Neither
operation requires the rows to be distinct. The map and the counts do not
depend on it. Only the cutoff lemma `CutoffIsStrict` assumes one row per player
(`DistinctVisitors`), since "the player's first visit" needs it. In the
driver the stores are functions: `tableOf` gives a tenant's competition table,
and `visitsOf` and `scoresOf` give the query results for a tenant and
competition id.

## Model

| member | source | states |
|---|---|---|
| `BillingSpec.VisitorMapIsInTimeVisitors` | python/billing_report_initialize_data.py:75-83 | after the visit pass the map's keys are exactly the players with a visit row not strictly after a truthy `finished_at`, each mapped to Visitor |
| `BillingSpec.MarkPlayersOverrides` | python/billing_report_initialize_data.py:92-94 | the score pass adds every scored id, maps each scored id to Player, and leaves every other entry unchanged (last writer wins) |
| `BillingSpec.BillingMapClassifies` | python/billing_report_initialize_data.py:75-94 | the final map's keys are the in-time visitors plus the scored ids; an entry is Player iff its id scored and Visitor iff it did not |
| `BillingSpec.ScoredIsPlayer` | python/billing_report_initialize_data.py:92-94 | every scored id is in the map as Player, whether it visited before, after or not at all |
| `BillingSpec.CutoffIsStrict` | python/billing_report_initialize_data.py:78-83 | a non-scoring player with one visit row is in the map iff not (finished and `finished_at < min_created_at`); a visit exactly at `finished_at` still counts; if present the entry is Visitor |
| `BillingSpec.UnseenIsNotBilled` | python/billing_report_initialize_data.py:75-94 | an id with no visit row and no score row is not in the map and in neither category's key set |
| `BillingSpec.CountsPartition` | python/billing_report_initialize_data.py:99-103 | the Player count plus the Visitor count equals the number of map keys: each participant is counted exactly once |
| `BillingSpec.UnfinishedBillsNothing` | python/billing_report_initialize_data.py:96-103 | if `finished_at` is absent or 0 the row has zero players, zero visitors and zero yen, whatever the visit and score rows |
| `BillingSpec.FinishedCounts` | python/billing_report_initialize_data.py:96-103 | if finished, `player_count` is the number of distinct scored ids, `visitor_count` the number of in-time visitors who did not score, and their sum the size of the map |
| `BillingSpec.ReportAmounts` | python/billing_report_initialize_data.py:105-115 | the row carries the tenant id, competition id and title; `billing_player_yen = 100 * player_count`, `billing_visitor_yen = 10 * visitor_count`, `billing_yen` their sum, all non-negative |
| `BillingSpec.ExampleFinished` | python/billing_report_initialize_data.py:61-115 | finished at 100 with A visiting at 50, B at 150, C only scoring and D visiting at 100 and scoring: 2 players, 1 visitor, 200 + 10 = 210 yen |
| `BillingSpec.ExampleUnfinished` | python/billing_report_initialize_data.py:96-103 | the same data with no `finished_at`: zero counts and zero yen |
| `BillingSpec.RetrieveCompetition` | python/billing_report_initialize_data.py:52-58 | the lookup by id returns a row of the table with that id, and returns nothing iff no row has that id |
| `BillingSpec.FinishedCompetitions` | python/billing_report_initialize_data.py:124-127 | the listed competitions are exactly the table's rows of the tenant whose `finished_at` is present (0 included) |
| `BillingSpec.CompetitionReports` | python/billing_report_initialize_data.py:128-129 | one row per listed competition, in order, each carrying the tenant id and that competition's id |
| `BillingSpec.BatchRowPerListedCompetition` | python/billing_report_initialize_data.py:118-129 | the batch writes exactly as many rows as the driver lists competitions over all tenants, and every row carries a listed tenant and the id of one of that tenant's listed competitions |
| `BillingSpec.ZeroFinishedAtBilledEmpty` | python/billing_report_initialize_data.py:96-129 | a competition with `finished_at = 0` is listed by the driver and billed with zero counts and zero yen |
| `BillingReportBatch.AdminDb.Insert` | python/billing_report_initialize_data.py:105-115 | the insert appends the row and keeps every earlier row; there is no uniqueness check |
| `BillingReportBatch.BuildBillingMap` | python/billing_report_initialize_data.py:75-94 | the in-place map built by the two loops equals the reference map: keys are in-time visitors plus scored ids, and an entry is Player iff its id scored |
| `BillingReportBatch.CountCategories` | python/billing_report_initialize_data.py:96-103 | the counting loop returns the number of Player entries and of Visitor entries, which together are all the keys |
| `BillingReportBatch.BillingReportByCompetition` | python/billing_report_initialize_data.py:61-115 | a missing competition fails with CompetitionNotFound and writes nothing; otherwise exactly one row, `BillingReportOf` of the inputs, is appended and earlier rows are kept |
| `BillingReportBatch.BillTwice` | python/billing_report_initialize_data.py:105-115 | billing the same competition twice leaves the earlier rows and appends `BillingReportOf` of the inputs twice: two identical rows, no uniqueness check |
| `BillingReportBatch.BillTenant` | python/billing_report_initialize_data.py:121-129 | one tenant's pass appends, in table order, the row of every competition of the tenant with `finished_at` present |
| `BillingReportBatch.RunBatch` | python/billing_report_initialize_data.py:118-129 | the whole run appends `BatchReports`, tenant after tenant, to the existing rows and never fails, since it only looks up competitions it has just listed |
| `BillingReportBatch.RunBatchTwice` | python/billing_report_initialize_data.py:118-129 | rerunning the batch without clearing the table appends the whole batch's rows a second time: reruns are not idempotent |

## Left out

- Connecting to the administrative and tenant stores, environment variables, `tenant_db_path`, SQL tracing (`connect_admin_db`, `connect_to_tenant_db`, `initialize_sql_logger`, lines 9-39): configuration and I/O.
- The SQL queries themselves: grouping with `MIN`, `DISTINCT`, and the listing of tenants. Their results are inputs: sequences of rows, and the functions `tableOf`, `visitsOf`, `scoresOf`.
- The row-to-record construction in `retrieve_competition` (lines 52-58). The lookup is modelled as the first row of the tenant's table with that id, since `fetchone` over an unordered result has no specified order.
- `str(...)` on player ids (lines 83 and 94): both sources give ids as strings here.
- Store failures (a failed connection or query, a failed insert) and process exit on an exception: I/O. The only failure modelled is the missing competition.
- Connection lifecycle per tenant (line 123): the source never closes it, and it has no observable effect on the rows written.
- `RunBatch` cannot reach CompetitionNotFound: it bills only competitions it just listed from the same table. Fail-fast abort of the batch is therefore not modelled.
