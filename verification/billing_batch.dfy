/** The billing batch as it runs: the in-place construction of the billing
    map, the counting loop, the append to the administrative store's
    `billing_report` table, and the driver over tenants and their finished
    competitions. Each step is proved against BillingSpec. */
module BillingReportBatch {
  import opened BillingSpec

  datatype BillingError = CompetitionNotFound

  datatype Result<T, E> = Ok(value: T) | Err(error: E)

  /** The administrative store, as far as the batch writes to it: the
      `billing_report` table, appended to with no uniqueness check. */
  class AdminDb {
    var billingReport: seq<BillingReport>

    constructor ()
      ensures billingReport == []
    {
      billingReport := [];
    }

    /** `INSERT INTO billing_report ...` */
    method Insert(row: BillingReport)
      modifies this
      ensures billingReport == old(billingReport) + [row]
    {
      billingReport := billingReport + [row];
    }
  }

  /** Builds `billing_map`: every visit row not made strictly after the
      competition finished marks its player Visitor, then every scored id
      is (over)written with Player. */
  method BuildBillingMap(competition: CompetitionRow, visits: seq<VisitSummary>, scored: seq<PlayerId>)
    returns (billingMap: map<PlayerId, Category>)
    ensures billingMap == BillingMap(competition, visits, scored)
    ensures billingMap.Keys == InTimeVisitors(competition, visits) + Scored(scored)
    ensures forall p :: p in billingMap ==> (billingMap[p] == Player <==> p in scored)
  {
    billingMap := map[];
    for i := 0 to |visits|
      invariant billingMap == VisitorMap(competition, visits[..i])
    {
      var vh := visits[i];
      assert visits[..i + 1][..i] == visits[..i];
      if IsFinished(competition) && competition.finishedAt.value < vh.minCreatedAt {
        continue;
      }
      billingMap := billingMap[vh.playerId := Visitor];
    }
    assert visits[..|visits|] == visits;
    for i := 0 to |scored|
      invariant billingMap == MarkPlayers(VisitorMap(competition, visits), scored[..i])
    {
      assert scored[..i + 1][..i] == scored[..i];
      billingMap := billingMap[scored[i] := Player];
    }
    assert scored[..|scored|] == scored;
    BillingMapClassifies(competition, visits, scored);
  }

  /** The keys of `m` not in `remaining` whose category is `cat`. */
  ghost function Tallied(m: map<PlayerId, Category>, remaining: set<PlayerId>, cat: Category): set<PlayerId> {
    set k | k in m && k !in remaining && m[k] == cat
  }

  /** Taking key `k` out of `remaining` adds it to the tally of its own
      category and to no other. */
  lemma TallyStep(m: map<PlayerId, Category>, remaining: set<PlayerId>, k: PlayerId, cat: Category)
    requires k in remaining && k in m
    ensures |Tallied(m, remaining - {k}, cat)| == |Tallied(m, remaining, cat)| + (if m[k] == cat then 1 else 0)
  {
    var before := Tallied(m, remaining, cat);
    if m[k] == cat {
      assert Tallied(m, remaining - {k}, cat) == before + {k};
    } else {
      assert Tallied(m, remaining - {k}, cat) == before;
    }
  }

  /** Counts the Player and the Visitor entries of `billingMap`. */
  method CountCategories(billingMap: map<PlayerId, Category>) returns (playerCount: nat, visitorCount: nat)
    ensures playerCount == CountOf(billingMap, Player)
    ensures visitorCount == CountOf(billingMap, Visitor)
    ensures playerCount + visitorCount == |billingMap|
  {
    playerCount, visitorCount := 0, 0;
    var remaining := billingMap.Keys;
    while remaining != {}
      invariant remaining <= billingMap.Keys
      invariant playerCount == |Tallied(billingMap, remaining, Player)|
      invariant visitorCount == |Tallied(billingMap, remaining, Visitor)|
      decreases remaining
    {
      var k :| k in remaining;
      var category := billingMap[k];
      TallyStep(billingMap, remaining, k, Player);
      TallyStep(billingMap, remaining, k, Visitor);
      if category == Player {
        playerCount := playerCount + 1;
      }
      if category == Visitor {
        visitorCount := visitorCount + 1;
      }
      remaining := remaining - {k};
    }
    assert Tallied(billingMap, remaining, Player) == set k | k in billingMap && billingMap[k] == Player;
    assert Tallied(billingMap, remaining, Visitor) == set k | k in billingMap && billingMap[k] == Visitor;
    CountsPartition(billingMap);
  }

  /** Computes and appends the billing row of one competition. A missing
      competition fails before anything is written. */
  method BillingReportByCompetition(
    admin: AdminDb, tenantId: int, competition: Option<CompetitionRow>,
    visits: seq<VisitSummary>, scored: seq<PlayerId>)
    returns (r: Result<BillingReport, BillingError>)
    modifies admin
    ensures competition.None? ==>
      r == Err(CompetitionNotFound) && admin.billingReport == old(admin.billingReport)
    ensures competition.Some? ==>
      && r == Ok(BillingReportOf(tenantId, competition.value, visits, scored))
      && admin.billingReport == old(admin.billingReport) + [r.value]
  {
    if competition.None? {
      return Err(CompetitionNotFound);
    }
    var c := competition.value;
    var billingMap := BuildBillingMap(c, visits, scored);
    var playerCount, visitorCount := 0, 0;
    if IsFinished(c) {
      playerCount, visitorCount := CountCategories(billingMap);
    }
    var row := BillingReport(
      tenantId, c.id, c.title, playerCount, visitorCount,
      100 * playerCount, 10 * visitorCount, 100 * playerCount + 10 * visitorCount);
    admin.Insert(row);
    r := Ok(row);
  }

  /** Running the same competition twice writes two identical rows. */
  method BillTwice(
    admin: AdminDb, tenantId: int, competition: CompetitionRow,
    visits: seq<VisitSummary>, scored: seq<PlayerId>)
    modifies admin
    ensures admin.billingReport == old(admin.billingReport)
      + [BillingReportOf(tenantId, competition, visits, scored), BillingReportOf(tenantId, competition, visits, scored)]
  {
    var first := BillingReportByCompetition(admin, tenantId, Some(competition), visits, scored);
    var second := BillingReportByCompetition(admin, tenantId, Some(competition), visits, scored);
  }

  /** Appending in two steps is appending once. */
  lemma AppendAssociates<T>(a: seq<T>, b: seq<T>, c: seq<T>)
    ensures (a + b) + c == a + (b + c)
  {
  }

  /** One tenant's share of the batch: bill every competition of `table`
      that belongs to the tenant and whose `finished_at` is not NULL. */
  method BillTenant(
    admin: AdminDb, tenantId: int, table: seq<CompetitionRow>,
    visitsOf: (int, string) -> seq<VisitSummary>, scoresOf: (int, string) -> seq<PlayerId>)
    modifies admin
    ensures admin.billingReport == old(admin.billingReport)
      + CompetitionReports(tenantId, table, FinishedCompetitions(table, tenantId), visitsOf, scoresOf)
  {
    var competitions := FinishedCompetitions(table, tenantId);
    ghost var done: seq<BillingReport> := [];
    for j := 0 to |competitions|
      invariant done == CompetitionReports(tenantId, table, competitions[..j], visitsOf, scoresOf)
      invariant admin.billingReport == old(admin.billingReport) + done
    {
      var c := competitions[j];
      assert c in table;
      assert competitions[..j + 1][..j] == competitions[..j];
      var r := BillingReportByCompetition(
        admin, tenantId, RetrieveCompetition(table, c.id), visitsOf(tenantId, c.id), scoresOf(tenantId, c.id));
      AppendAssociates(old(admin.billingReport), done, [r.value]);
      done := done + [r.value];
    }
    assert competitions[..|competitions|] == competitions;
  }

  /** The batch rows of the first `i + 1` tenants extend those of the first `i`. */
  lemma BatchReportsStep(
    tenantIds: seq<int>, i: nat, tableOf: int -> seq<CompetitionRow>,
    visitsOf: (int, string) -> seq<VisitSummary>, scoresOf: (int, string) -> seq<PlayerId>)
    requires i < |tenantIds|
    ensures BatchReports(tenantIds[..i + 1], tableOf, visitsOf, scoresOf)
         == BatchReports(tenantIds[..i], tableOf, visitsOf, scoresOf)
          + CompetitionReports(tenantIds[i], tableOf(tenantIds[i]),
              FinishedCompetitions(tableOf(tenantIds[i]), tenantIds[i]), visitsOf, scoresOf)
  {
    assert tenantIds[..i + 1][..i] == tenantIds[..i];
  }

  /** The batch: tenant after tenant, bill each tenant's finished
      competitions, appending one row per competition. Nothing can fail:
      every competition looked up was just listed from the same table. */
  method RunBatch(
    admin: AdminDb, tenantIds: seq<int>, tableOf: int -> seq<CompetitionRow>,
    visitsOf: (int, string) -> seq<VisitSummary>, scoresOf: (int, string) -> seq<PlayerId>)
    modifies admin
    ensures admin.billingReport == old(admin.billingReport) + BatchReports(tenantIds, tableOf, visitsOf, scoresOf)
  {
    ghost var done: seq<BillingReport> := [];
    for i := 0 to |tenantIds|
      invariant done == BatchReports(tenantIds[..i], tableOf, visitsOf, scoresOf)
      invariant admin.billingReport == old(admin.billingReport) + done
    {
      var t := tenantIds[i];
      var table := tableOf(t);
      ghost var rows := CompetitionReports(t, table, FinishedCompetitions(table, t), visitsOf, scoresOf);
      BatchReportsStep(tenantIds, i, tableOf, visitsOf, scoresOf);
      AppendAssociates(old(admin.billingReport), done, rows);
      BillTenant(admin, t, table, visitsOf, scoresOf);
      done := done + rows;
    }
    assert tenantIds[..|tenantIds|] == tenantIds;
  }

  /** Rerunning the whole batch without clearing the table bills every
      listed competition a second time. */
  method RunBatchTwice(
    admin: AdminDb, tenantIds: seq<int>, tableOf: int -> seq<CompetitionRow>,
    visitsOf: (int, string) -> seq<VisitSummary>, scoresOf: (int, string) -> seq<PlayerId>)
    modifies admin
    ensures admin.billingReport == old(admin.billingReport)
      + BatchReports(tenantIds, tableOf, visitsOf, scoresOf)
      + BatchReports(tenantIds, tableOf, visitsOf, scoresOf)
  {
    RunBatch(admin, tenantIds, tableOf, visitsOf, scoresOf);
    RunBatch(admin, tenantIds, tableOf, visitsOf, scoresOf);
  }
}
