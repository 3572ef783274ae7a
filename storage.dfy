/**
 The in-memory entity store: five id-keyed tables, per-kind list/get/create/
 update/delete, the project filter by client, the completion stamp of a
 project update, and the dashboard statistics.

 Ids and clock readings come from the caller: `create*` takes the fresh id
 that `randomUUID()` would have produced, `create*` and `updateProject` take
 the time `new Date()` would have read, and the statistics take the first
 instant of the current month.
 */
module Storage {
  import opened Wrappers
  import opened ListOps
  import opened Tables
  import opened Schema

  const Completed := "completed"

  // ----- the completion stamp of updateProject -----

  /**
   `{ ...project, ...projectUpdate }`, then `completedAt := now` when the
   update sets the status to "completed" and the stored project has no
   completion time yet.
   */
  function UpdatedProject(p: Project, u: ProjectPatch, now: Timestamp): (r: Project)
    ensures r.(completedAt := p.completedAt) == MergeProject(p, u)
    ensures r.completedAt != p.completedAt <==> u.status == Some(Completed) && p.completedAt == None
    ensures r.completedAt != p.completedAt ==> r.completedAt == Some(now)
  {
    var merged := MergeProject(p, u);
    if u.status == Some(Completed) && p.completedAt.None? then merged.(completedAt := Some(now))
    else merged
  }

  /** A completion time, once set, survives any later update, including one that reopens the project. */
  lemma CompletionIsNeverClearedOrRestamped(p: Project, u: ProjectPatch, now: Timestamp)
    requires p.completedAt.Some?
    ensures UpdatedProject(p, u, now).completedAt == p.completedAt
  {
  }

  /** Completing, reopening and completing again keeps the first completion time. */
  lemma ReopenKeepsFirstCompletion(p: Project, t1: Timestamp, reopen: string, t2: Timestamp, t3: Timestamp)
    requires p.completedAt == None
    ensures var done := EmptyProjectPatch.(status := Some(Completed));
      var p1 := UpdatedProject(p, done, t1);
      var p2 := UpdatedProject(p1, EmptyProjectPatch.(status := Some(reopen)), t2);
      var p3 := UpdatedProject(p2, done, t3);
      p3.completedAt == Some(t1) && p3.status == Some(Completed)
  {
    var done := EmptyProjectPatch.(status := Some(Completed));
    var p1 := UpdatedProject(p, done, t1);
    CompletionIsNeverClearedOrRestamped(p1, EmptyProjectPatch.(status := Some(reopen)), t2);
    var p2 := UpdatedProject(p1, EmptyProjectPatch.(status := Some(reopen)), t2);
    CompletionIsNeverClearedOrRestamped(p2, done, t3);
  }

  // ----- the dashboard -----

  datatype DashboardStats = DashboardStats(
    totalClients: nat,
    activeProjects: nat,
    sentQuotes: nat,
    monthlyRevenue: int)

  predicate IsActive(p: Project)
  {
    p.status == Some("active")
  }

  predicate IsSent(q: Quote)
  {
    q.status == Some("sent")
  }

  /**
   `p.completedAt && p.completedAt >= thisMonth && p.budget`: a missing or
   zero budget is falsy. The project's current status plays no part.
   */
  predicate EarnsRevenue(monthStart: Timestamp, p: Project)
  {
    p.completedAt.Some? && p.completedAt.value >= monthStart && p.budget.Some? && p.budget.value != 0
  }

  function EarnsRevenueSince(monthStart: Timestamp): Project -> bool
  {
    (p: Project) => EarnsRevenue(monthStart, p)
  }

  /** `p.budget || 0`. */
  function BudgetOrZero(p: Project): int
  {
    if p.budget.Some? then p.budget.value else 0
  }

  /** What one project adds to the monthly revenue. */
  function Contribution(monthStart: Timestamp, p: Project): int
  {
    if EarnsRevenue(monthStart, p) then BudgetOrZero(p) else 0
  }

  /** `projects.filter(earns revenue this month).reduce((sum, p) => sum + (p.budget || 0), 0)`. */
  function MonthlyRevenue(ps: seq<Project>, monthStart: Timestamp): int
  {
    Sum(Filter(ps, EarnsRevenueSince(monthStart)), BudgetOrZero)
  }

  function ContributionSince(monthStart: Timestamp): Project -> int
  {
    (p: Project) => Contribution(monthStart, p)
  }

  /**
   The filter-then-reduce pipeline adds up exactly what each project
   contributes: its budget when it earns revenue this month, nothing otherwise.
   */
  lemma {:induction false} RevenueIsTotalContribution(ps: seq<Project>, monthStart: Timestamp)
    ensures MonthlyRevenue(ps, monthStart) == Sum(ps, ContributionSince(monthStart))
  {
    if ps != [] {
      var init, last := ps[..|ps| - 1], ps[|ps| - 1];
      var earns := EarnsRevenueSince(monthStart);
      assert ps == init + [last];
      RevenueIsTotalContribution(init, monthStart);
      FilterAppend(init, [last], earns);
      FilterSingleton(last, earns);
      SumAppend(Filter(init, earns), Filter([last], earns), BudgetOrZero);
      SumSingleton(last, BudgetOrZero);
    }
  }

  /** The four figures, computed from the tables as they stand. */
  function Stats(clients: Table<Client>, projects: Table<Project>, quotes: Table<Quote>, monthStart: Timestamp): DashboardStats
    requires Tables.Valid(projects) && Tables.Valid(quotes)
  {
    DashboardStats(
      Size(clients),
      |Filter(Values(projects), IsActive)|,
      |Filter(Values(quotes), IsSent)|,
      MonthlyRevenue(Values(projects), monthStart))
  }

  function OwnedBy(clientId: Id): Project -> bool
  {
    (p: Project) => p.clientId == clientId
  }

  /** The projects of one client are exactly the stored projects carrying its id. */
  lemma ByClientMembers(projects: Table<Project>, clientId: Id)
    requires Tables.Valid(projects)
    ensures forall p :: p in Filter(Values(projects), OwnedBy(clientId)) <==> p in projects.rows.Values && p.clientId == clientId
  {
    ValuesMembers(projects);
    FilterMembers(Values(projects), OwnedBy(clientId));
  }

  // ----- how each mutation moves the dashboard -----

  lemma StatsAfterPutClient(clients: Table<Client>, projects: Table<Project>, quotes: Table<Quote>,
                            id: Id, c: Client, monthStart: Timestamp)
    requires Tables.Valid(clients) && Tables.Valid(projects) && Tables.Valid(quotes)
    ensures var before := Stats(clients, projects, quotes, monthStart);
      Stats(Put(clients, id, c), projects, quotes, monthStart)
        == before.(totalClients := before.totalClients + if id in clients.rows then 0 else 1)
  {
    SizePut(clients, id, c);
  }

  lemma StatsAfterRemoveClient(clients: Table<Client>, projects: Table<Project>, quotes: Table<Quote>,
                               id: Id, monthStart: Timestamp)
    requires Tables.Valid(clients) && Tables.Valid(projects) && Tables.Valid(quotes)
    ensures var before := Stats(clients, projects, quotes, monthStart);
      Stats(Remove(clients, id), projects, quotes, monthStart)
        == before.(totalClients := before.totalClients - if id in clients.rows then 1 else 0)
  {
    SizeRemove(clients, id);
  }

  /**
   Storing a project (created or updated) swaps the old record's share of the
   active count and of the revenue for the new record's.
   */
  lemma StatsAfterPutProject(clients: Table<Client>, projects: Table<Project>, quotes: Table<Quote>,
                             id: Id, p: Project, monthStart: Timestamp)
    requires Tables.Valid(projects) && Tables.Valid(quotes)
    ensures var before, after := Stats(clients, projects, quotes, monthStart), Stats(clients, Put(projects, id, p), quotes, monthStart);
      && after.totalClients == before.totalClients && after.sentQuotes == before.sentQuotes
      && after.activeProjects + Hit(projects, id, IsActive) == before.activeProjects + (if IsActive(p) then 1 else 0)
      && after.monthlyRevenue
         == before.monthlyRevenue - Share(projects, id, EarnsRevenueSince(monthStart), BudgetOrZero) + Contribution(monthStart, p)
  {
    FilterCountPut(projects, id, p, IsActive);
    FilterSumPut(projects, id, p, EarnsRevenueSince(monthStart), BudgetOrZero);
  }

  lemma StatsAfterRemoveProject(clients: Table<Client>, projects: Table<Project>, quotes: Table<Quote>,
                                id: Id, monthStart: Timestamp)
    requires Tables.Valid(projects) && Tables.Valid(quotes)
    ensures var before, after := Stats(clients, projects, quotes, monthStart), Stats(clients, Remove(projects, id), quotes, monthStart);
      && after.totalClients == before.totalClients && after.sentQuotes == before.sentQuotes
      && after.activeProjects + Hit(projects, id, IsActive) == before.activeProjects
      && after.monthlyRevenue == before.monthlyRevenue - Share(projects, id, EarnsRevenueSince(monthStart), BudgetOrZero)
  {
    FilterCountRemove(projects, id, IsActive);
    FilterSumRemove(projects, id, EarnsRevenueSince(monthStart), BudgetOrZero);
  }

  lemma StatsAfterPutQuote(clients: Table<Client>, projects: Table<Project>, quotes: Table<Quote>,
                           id: Id, q: Quote, monthStart: Timestamp)
    requires Tables.Valid(projects) && Tables.Valid(quotes)
    ensures var before, after := Stats(clients, projects, quotes, monthStart), Stats(clients, projects, Put(quotes, id, q), monthStart);
      && after.totalClients == before.totalClients && after.activeProjects == before.activeProjects
      && after.sentQuotes + Hit(quotes, id, IsSent) == before.sentQuotes + (if IsSent(q) then 1 else 0)
      && after.monthlyRevenue == before.monthlyRevenue
  {
    FilterCountPut(quotes, id, q, IsSent);
  }

  lemma StatsAfterRemoveQuote(clients: Table<Client>, projects: Table<Project>, quotes: Table<Quote>,
                              id: Id, monthStart: Timestamp)
    requires Tables.Valid(projects) && Tables.Valid(quotes)
    ensures var before, after := Stats(clients, projects, quotes, monthStart), Stats(clients, projects, Remove(quotes, id), monthStart);
      && after.totalClients == before.totalClients && after.activeProjects == before.activeProjects
      && after.sentQuotes + Hit(quotes, id, IsSent) == before.sentQuotes
      && after.monthlyRevenue == before.monthlyRevenue
  {
    FilterCountRemove(quotes, id, IsSent);
  }

  /** A newly created project never adds revenue: its completion time is null whatever its status. */
  lemma CreatedProjectEarnsNothing(ins: InsertProject, id: Id, now: Timestamp, monthStart: Timestamp)
    ensures Contribution(monthStart, NewProject(ins, id, now)) == 0
  {
  }

  /**
   Completing an unstamped project during the month adds exactly its budget
   to the monthly revenue (nothing when the budget is null or zero).
   */
  lemma CompletionAddsBudget(clients: Table<Client>, projects: Table<Project>, quotes: Table<Quote>,
                             id: Id, u: ProjectPatch, now: Timestamp, monthStart: Timestamp)
    requires Tables.Valid(projects) && Tables.Valid(quotes)
    requires id in projects.rows && projects.rows[id].completedAt == None
    requires u.status == Some(Completed) && monthStart <= now
    ensures var p := UpdatedProject(projects.rows[id], u, now);
      Stats(clients, Put(projects, id, p), quotes, monthStart).monthlyRevenue
        == Stats(clients, projects, quotes, monthStart).monthlyRevenue + BudgetOrZero(p)
  {
    var p := UpdatedProject(projects.rows[id], u, now);
    StatsAfterPutProject(clients, projects, quotes, id, p, monthStart);
  }

  // ----- the seed data -----

  /** The ids `randomUUID()` hands out while the sample data is created. */
  datatype SeedIds = SeedIds(client1: Id, client2: Id, project1: Id, project2: Id, quote: Id, lead: Id, item: Id)

  const SampleClient1 := InsertClient("Empresa ABC Lda", "João Silva", "joao@empresa.co.ao", "+244 923 456 789", "Luanda", Some("active"))
  const SampleClient2 := InsertClient("XYZ Corporation", "Maria Santos", "maria@xyz.ao", "+244 912 345 678", "Benguela", Some("pending"))

  function SampleProject1(clientId: Id): InsertProject
  {
    InsertProject(clientId, "Rebranding Completo", Some("Desenvolvimento de nova identidade visual"), Some("active"), Some(45000))
  }

  function SampleProject2(clientId: Id): InsertProject
  {
    InsertProject(clientId, "Marketing Digital", Some("Campanha de marketing nas redes sociais"), Some("pending"), Some(30000))
  }

  function SampleQuote(clientId: Id): InsertQuote
  {
    InsertQuote(Some(clientId), Some(["branding", "marketing"]), 27000, Some("1.0"), 27000, Some("sent"))
  }

  const SampleLead := InsertLead("olx_angola", Some("Tech Solutions AO"), Some("Carlos Mendes"), Some("carlos@techsolutions.ao"),
                                 Some("+244 934 567 890"), Some("qualified"), None)

  function SampleItem(clientId: Id): InsertPortfolioItem
  {
    InsertPortfolioItem("Identidade Visual Moderna", Some("Branding completo para empresa de tecnologia"), "branding",
                        None, Some(clientId), Some(true))
  }

  /** The tables right after seeding an empty store. */
  function SeededClients(ids: SeedIds, now: Timestamp): Table<Client>
  {
    Put(Put(Empty(), ids.client1, NewClient(SampleClient1, ids.client1, now)),
        ids.client2, NewClient(SampleClient2, ids.client2, now))
  }

  function SeededProjects(ids: SeedIds, now: Timestamp): Table<Project>
  {
    Put(Put(Empty(), ids.project1, NewProject(SampleProject1(ids.client1), ids.project1, now)),
        ids.project2, NewProject(SampleProject2(ids.client2), ids.project2, now))
  }

  function SeededQuotes(ids: SeedIds, now: Timestamp): Table<Quote>
  {
    Put(Empty(), ids.quote, NewQuote(SampleQuote(ids.client1), ids.quote, now))
  }

  function SeededLeads(ids: SeedIds, now: Timestamp): Table<Lead>
  {
    Put(Empty(), ids.lead, NewLead(SampleLead, ids.lead, now))
  }

  function SeededItems(ids: SeedIds, now: Timestamp): Table<PortfolioItem>
  {
    Put(Empty(), ids.item, NewPortfolioItem(SampleItem(ids.client1), ids.item, now))
  }

  /** Which ids the seeded tables hold. */
  lemma SeededKeys(ids: SeedIds, now: Timestamp)
    ensures SeededClients(ids, now).rows.Keys == {ids.client1, ids.client2}
    ensures SeededProjects(ids, now).rows.Keys == {ids.project1, ids.project2}
    ensures SeededQuotes(ids, now).rows.Keys == {ids.quote}
    ensures SeededLeads(ids, now).rows.Keys == {ids.lead}
    ensures SeededItems(ids, now).rows.Keys == {ids.item}
  {
    var ec: Table<Client>, ep: Table<Project> := Empty(), Empty();
    var c1 := NewClient(SampleClient1, ids.client1, now);
    var p1 := NewProject(SampleProject1(ids.client1), ids.project1, now);
    PutRows(ec, ids.client1, c1);
    PutRows(Put(ec, ids.client1, c1), ids.client2, NewClient(SampleClient2, ids.client2, now));
    PutRows(ep, ids.project1, p1);
    PutRows(Put(ep, ids.project1, p1), ids.project2, NewProject(SampleProject2(ids.client2), ids.project2, now));
    var eq: Table<Quote>, el: Table<Lead>, ei: Table<PortfolioItem> := Empty(), Empty(), Empty();
    PutRows(eq, ids.quote, NewQuote(SampleQuote(ids.client1), ids.quote, now));
    PutRows(el, ids.lead, NewLead(SampleLead, ids.lead, now));
    PutRows(ei, ids.item, NewPortfolioItem(SampleItem(ids.client1), ids.item, now));
  }

  /** What the dashboard shows right after seeding an empty store. */
  lemma SeededStats(ids: SeedIds, now: Timestamp, monthStart: Timestamp)
    requires ids.client1 != ids.client2 && ids.project1 != ids.project2
    ensures Stats(SeededClients(ids, now), SeededProjects(ids, now), SeededQuotes(ids, now), monthStart)
      == DashboardStats(2, 1, 1, 0)
  {
    SeededKeys(ids, now);
    SeededProjectFigures(ids, now, monthStart);
    SeededSentCount(ids, now);
  }

  /** Of the two seeded projects one is active, and neither is completed. */
  lemma SeededProjectFigures(ids: SeedIds, now: Timestamp, monthStart: Timestamp)
    requires ids.project1 != ids.project2
    ensures var ps := SeededProjects(ids, now);
      |Filter(Values(ps), IsActive)| == 1 && MonthlyRevenue(Values(ps), monthStart) == 0
  {
    var e: Table<Project> := Empty();
    var p1 := NewProject(SampleProject1(ids.client1), ids.project1, now);
    var p2 := NewProject(SampleProject2(ids.client2), ids.project2, now);
    var ps1 := Put(e, ids.project1, p1);
    assert IsActive(p1) && !IsActive(p2);
    assert Contribution(monthStart, p1) == 0 && Contribution(monthStart, p2) == 0;
    FilterCountPut(e, ids.project1, p1, IsActive);
    FilterSumPut(e, ids.project1, p1, EarnsRevenueSince(monthStart), BudgetOrZero);
    assert Get(ps1, ids.project2) == None;
    FilterCountPut(ps1, ids.project2, p2, IsActive);
    FilterSumPut(ps1, ids.project2, p2, EarnsRevenueSince(monthStart), BudgetOrZero);
  }

  /** The one seeded quote has been sent. */
  lemma SeededSentCount(ids: SeedIds, now: Timestamp)
    ensures |Filter(Values(SeededQuotes(ids, now)), IsSent)| == 1
  {
    var e: Table<Quote> := Empty();
    FilterCountPut(e, ids.quote, NewQuote(SampleQuote(ids.client1), ids.quote, now), IsSent);
  }

  // ----- the store -----

  /** The key each table files its records under. */
  function ClientId(c: Client): Id { c.id }
  function ProjectId(p: Project): Id { p.id }
  function QuoteId(q: Quote): Id { q.id }
  function LeadId(l: Lead): Id { l.id }
  function PortfolioItemId(i: PortfolioItem): Id { i.id }

  class MemStorage {
    var clients: Table<Client>
    var projects: Table<Project>
    var quotes: Table<Quote>
    var leads: Table<Lead>
    var portfolioItems: Table<PortfolioItem>

    /** Each table is a well-formed map, and every record is stored under its own id. */
    ghost predicate Valid()
      reads this
    {
      && Tables.Valid(clients) && Tables.Valid(projects) && Tables.Valid(quotes)
      && Tables.Valid(leads) && Tables.Valid(portfolioItems)
      && KeyedBy(clients, ClientId) && KeyedBy(projects, ProjectId) && KeyedBy(quotes, QuoteId)
      && KeyedBy(leads, LeadId) && KeyedBy(portfolioItems, PortfolioItemId)
    }

    /** `new MemStorage()`: empty tables, then the sample data. */
    constructor (ids: SeedIds, now: Timestamp)
      requires ids.client1 != ids.client2 && ids.project1 != ids.project2
      ensures Valid()
      ensures clients.rows.Keys == {ids.client1, ids.client2} && projects.rows.Keys == {ids.project1, ids.project2}
      ensures quotes.rows.Keys == {ids.quote} && leads.rows.Keys == {ids.lead} && portfolioItems.rows.Keys == {ids.item}
      ensures clients == SeededClients(ids, now) && projects == SeededProjects(ids, now)
      ensures quotes == SeededQuotes(ids, now) && leads == SeededLeads(ids, now) && portfolioItems == SeededItems(ids, now)
      ensures forall monthStart :: GetDashboardStats(monthStart) == DashboardStats(2, 1, 1, 0)
    {
      clients, projects, quotes, leads, portfolioItems := Empty(), Empty(), Empty(), Empty(), Empty();
      new;
      InitializeSampleData(ids, now);
      SeededKeys(ids, now);
      forall monthStart
        ensures GetDashboardStats(monthStart) == DashboardStats(2, 1, 1, 0)
      {
        SeededStats(ids, now, monthStart);
      }
    }

    /** The seed sequence: two clients, two projects, a quote, a lead and a portfolio item. */
    method InitializeSampleData(ids: SeedIds, now: Timestamp)
      requires Valid()
      requires ids.client1 != ids.client2 && ids.project1 != ids.project2
      requires ids.client1 !in clients.rows && ids.client2 !in clients.rows
      requires ids.project1 !in projects.rows && ids.project2 !in projects.rows
      requires ids.quote !in quotes.rows && ids.lead !in leads.rows && ids.item !in portfolioItems.rows
      modifies this
      ensures Valid()
      ensures clients == Put(Put(old(clients), ids.client1, NewClient(SampleClient1, ids.client1, now)),
                             ids.client2, NewClient(SampleClient2, ids.client2, now))
      ensures projects == Put(Put(old(projects), ids.project1, NewProject(SampleProject1(ids.client1), ids.project1, now)),
                              ids.project2, NewProject(SampleProject2(ids.client2), ids.project2, now))
      ensures quotes == Put(old(quotes), ids.quote, NewQuote(SampleQuote(ids.client1), ids.quote, now))
      ensures leads == Put(old(leads), ids.lead, NewLead(SampleLead, ids.lead, now))
      ensures portfolioItems == Put(old(portfolioItems), ids.item, NewPortfolioItem(SampleItem(ids.client1), ids.item, now))
    {
      var client1 := CreateClient(SampleClient1, ids.client1, now);
      var client2 := CreateClient(SampleClient2, ids.client2, now);
      var _ := CreateProject(SampleProject1(client1.id), ids.project1, now);
      var _ := CreateProject(SampleProject2(client2.id), ids.project2, now);
      var _ := CreateQuote(SampleQuote(client1.id), ids.quote, now);
      var _ := CreateLead(SampleLead, ids.lead, now);
      var _ := CreatePortfolioItem(SampleItem(client1.id), ids.item, now);
    }

    // ----- clients -----

    /** `Array.from(this.clients.values())`: every stored client once, in insertion order. */
    function GetClients(): (r: seq<Client>)
      reads this
      requires Valid()
      ensures |r| == |clients.rows|
      ensures forall c :: c in r <==> c in clients.rows.Values
    {
      SizeIsValuesLength(clients);
      ValuesMembers(clients);
      Values(clients)
    }

    /** `this.clients.get(id)`. */
    function GetClient(id: Id): (r: Option<Client>)
      reads this
      requires Valid()
      ensures r.Some? <==> id in clients.rows
      ensures r.Some? ==> r.value.id == id && r.value in GetClients()
    {
      Get(clients, id)
    }

    /** `createClient`: `id` is the fresh `randomUUID()`, `now` the clock reading. */
    method CreateClient(ins: InsertClient, id: Id, now: Timestamp) returns (c: Client)
      requires Valid() && id !in clients.rows
      modifies this
      ensures Valid()
      ensures c == NewClient(ins, id, now)
      ensures clients == Put(old(clients), id, c)
      ensures projects == old(projects) && quotes == old(quotes) && leads == old(leads) && portfolioItems == old(portfolioItems)
      ensures GetClient(id) == Some(c)
      ensures forall k :: k != id ==> Get(clients, k) == Get(old(clients), k)
      ensures GetClients() == old(GetClients()) + [c]
    {
      c := NewClient(ins, id, now);
      ValuesPutNew(clients, id, c);
      KeyedPut(clients, id, c, ClientId);
      GetPut(clients, id, c);
      clients := Put(clients, id, c);
    }

    /** `updateClient`: `{ ...stored, ...update }`, or `undefined` for an unknown id. */
    method UpdateClient(id: Id, u: ClientPatch) returns (r: Option<Client>)
      requires Valid()
      modifies this
      ensures Valid()
      ensures id !in old(clients.rows) ==> r == None && clients == old(clients)
      ensures id in old(clients.rows) ==> r == Some(MergeClient(old(clients.rows[id]), u)) && clients == Put(old(clients), id, r.value)
      ensures clients.keys == old(clients.keys) && clients.rows.Keys == old(clients.rows.Keys)
      ensures r.Some? ==> GetClient(id) == r
      ensures forall k :: k != id ==> Get(clients, k) == Get(old(clients), k)
      ensures projects == old(projects) && quotes == old(quotes) && leads == old(leads) && portfolioItems == old(portfolioItems)
    {
      var found := Get(clients, id);
      if found.None? {
        return None;
      }
      var updated := MergeClient(found.value, u);
      PutExistingKeepsKeys(clients, id, updated);
      KeyedPut(clients, id, updated, ClientId);
      GetPut(clients, id, updated);
      clients := Put(clients, id, updated);
      r := Some(updated);
    }

    /** `this.clients.delete(id)`: whether a record was removed. */
    method DeleteClient(id: Id) returns (removed: bool)
      requires Valid()
      modifies this
      ensures Valid()
      ensures removed == (id in old(clients.rows))
      ensures clients == Remove(old(clients), id)
      ensures GetClient(id) == None
      ensures forall k :: k != id ==> Get(clients, k) == Get(old(clients), k)
      ensures projects == old(projects) && quotes == old(quotes) && leads == old(leads) && portfolioItems == old(portfolioItems)
    {
      removed := id in clients.rows;
      KeyedRemove(clients, id, ClientId);
      GetRemove(clients, id);
      clients := Remove(clients, id);
    }
    // ----- projects -----

    /** `Array.from(this.projects.values())`: every stored project once, in insertion order. */
    function GetProjects(): (r: seq<Project>)
      reads this
      requires Valid()
      ensures |r| == |projects.rows|
      ensures forall p :: p in r <==> p in projects.rows.Values
    {
      SizeIsValuesLength(projects);
      ValuesMembers(projects);
      Values(projects)
    }

    /** `this.projects.get(id)`. */
    function GetProject(id: Id): (r: Option<Project>)
      reads this
      requires Valid()
      ensures r.Some? <==> id in projects.rows
      ensures r.Some? ==> r.value.id == id && r.value in GetProjects()
    {
      Get(projects, id)
    }

    /** `createProject`: `id` is the fresh `randomUUID()`, `now` the clock reading. */
    method CreateProject(ins: InsertProject, id: Id, now: Timestamp) returns (p: Project)
      requires Valid() && id !in projects.rows
      modifies this
      ensures Valid()
      ensures p == NewProject(ins, id, now)
      ensures projects == Put(old(projects), id, p)
      ensures clients == old(clients) && quotes == old(quotes) && leads == old(leads) && portfolioItems == old(portfolioItems)
      ensures GetProject(id) == Some(p)
      ensures forall k :: k != id ==> Get(projects, k) == Get(old(projects), k)
      ensures GetProjects() == old(GetProjects()) + [p]
    {
      p := NewProject(ins, id, now);
      ValuesPutNew(projects, id, p);
      KeyedPut(projects, id, p, ProjectId);
      GetPut(projects, id, p);
      projects := Put(projects, id, p);
    }

    /** `updateProject`: the shallow merge plus the completion stamp; `now` is the clock reading. */
    method UpdateProject(id: Id, u: ProjectPatch, now: Timestamp) returns (r: Option<Project>)
      requires Valid()
      modifies this
      ensures Valid()
      ensures id !in old(projects.rows) ==> r == None && projects == old(projects)
      ensures id in old(projects.rows) ==> r == Some(UpdatedProject(old(projects.rows[id]), u, now)) && projects == Put(old(projects), id, r.value)
      ensures projects.keys == old(projects.keys) && projects.rows.Keys == old(projects.rows.Keys)
      ensures r.Some? ==> GetProject(id) == r
      ensures forall k :: k != id ==> Get(projects, k) == Get(old(projects), k)
      ensures clients == old(clients) && quotes == old(quotes) && leads == old(leads) && portfolioItems == old(portfolioItems)
    {
      var found := Get(projects, id);
      if found.None? {
        return None;
      }
      var updated := UpdatedProject(found.value, u, now);
      PutExistingKeepsKeys(projects, id, updated);
      KeyedPut(projects, id, updated, ProjectId);
      GetPut(projects, id, updated);
      projects := Put(projects, id, updated);
      r := Some(updated);
    }

    /** `this.projects.delete(id)`: whether a record was removed. */
    method DeleteProject(id: Id) returns (removed: bool)
      requires Valid()
      modifies this
      ensures Valid()
      ensures removed == (id in old(projects.rows))
      ensures projects == Remove(old(projects), id)
      ensures GetProject(id) == None
      ensures forall k :: k != id ==> Get(projects, k) == Get(old(projects), k)
      ensures clients == old(clients) && quotes == old(quotes) && leads == old(leads) && portfolioItems == old(portfolioItems)
    {
      removed := id in projects.rows;
      KeyedRemove(projects, id, ProjectId);
      GetRemove(projects, id);
      projects := Remove(projects, id);
    }
    /** `getProjectsByClientId`: the projects whose `clientId` is the argument, in list order. */
    function GetProjectsByClientId(clientId: Id): (r: seq<Project>)
      reads this
      requires Valid()
      ensures forall p :: p in r <==> p in projects.rows.Values && p.clientId == clientId
      ensures |r| == |KeysWhere(projects, OwnedBy(clientId))|
    {
      ByClientMembers(projects, clientId);
      FilterValuesCount(projects, OwnedBy(clientId));
      Filter(Values(projects), OwnedBy(clientId))
    }
    // ----- quotes -----

    /** `Array.from(this.quotes.values())`: every stored quote once, in insertion order. */
    function GetQuotes(): (r: seq<Quote>)
      reads this
      requires Valid()
      ensures |r| == |quotes.rows|
      ensures forall q :: q in r <==> q in quotes.rows.Values
    {
      SizeIsValuesLength(quotes);
      ValuesMembers(quotes);
      Values(quotes)
    }

    /** `this.quotes.get(id)`. */
    function GetQuote(id: Id): (r: Option<Quote>)
      reads this
      requires Valid()
      ensures r.Some? <==> id in quotes.rows
      ensures r.Some? ==> r.value.id == id && r.value in GetQuotes()
    {
      Get(quotes, id)
    }

    /** `createQuote`: `id` is the fresh `randomUUID()`, `now` the clock reading. */
    method CreateQuote(ins: InsertQuote, id: Id, now: Timestamp) returns (q: Quote)
      requires Valid() && id !in quotes.rows
      modifies this
      ensures Valid()
      ensures q == NewQuote(ins, id, now)
      ensures quotes == Put(old(quotes), id, q)
      ensures clients == old(clients) && projects == old(projects) && leads == old(leads) && portfolioItems == old(portfolioItems)
      ensures GetQuote(id) == Some(q)
      ensures forall k :: k != id ==> Get(quotes, k) == Get(old(quotes), k)
      ensures GetQuotes() == old(GetQuotes()) + [q]
    {
      q := NewQuote(ins, id, now);
      ValuesPutNew(quotes, id, q);
      KeyedPut(quotes, id, q, QuoteId);
      GetPut(quotes, id, q);
      quotes := Put(quotes, id, q);
    }

    /** `updateQuote`: `{ ...stored, ...update }`, or `undefined` for an unknown id. */
    method UpdateQuote(id: Id, u: QuotePatch) returns (r: Option<Quote>)
      requires Valid()
      modifies this
      ensures Valid()
      ensures id !in old(quotes.rows) ==> r == None && quotes == old(quotes)
      ensures id in old(quotes.rows) ==> r == Some(MergeQuote(old(quotes.rows[id]), u)) && quotes == Put(old(quotes), id, r.value)
      ensures quotes.keys == old(quotes.keys) && quotes.rows.Keys == old(quotes.rows.Keys)
      ensures r.Some? ==> GetQuote(id) == r
      ensures forall k :: k != id ==> Get(quotes, k) == Get(old(quotes), k)
      ensures clients == old(clients) && projects == old(projects) && leads == old(leads) && portfolioItems == old(portfolioItems)
    {
      var found := Get(quotes, id);
      if found.None? {
        return None;
      }
      var updated := MergeQuote(found.value, u);
      PutExistingKeepsKeys(quotes, id, updated);
      KeyedPut(quotes, id, updated, QuoteId);
      GetPut(quotes, id, updated);
      quotes := Put(quotes, id, updated);
      r := Some(updated);
    }

    /** `this.quotes.delete(id)`: whether a record was removed. */
    method DeleteQuote(id: Id) returns (removed: bool)
      requires Valid()
      modifies this
      ensures Valid()
      ensures removed == (id in old(quotes.rows))
      ensures quotes == Remove(old(quotes), id)
      ensures GetQuote(id) == None
      ensures forall k :: k != id ==> Get(quotes, k) == Get(old(quotes), k)
      ensures clients == old(clients) && projects == old(projects) && leads == old(leads) && portfolioItems == old(portfolioItems)
    {
      removed := id in quotes.rows;
      KeyedRemove(quotes, id, QuoteId);
      GetRemove(quotes, id);
      quotes := Remove(quotes, id);
    }
    // ----- leads -----

    /** `Array.from(this.leads.values())`: every stored lead once, in insertion order. */
    function GetLeads(): (r: seq<Lead>)
      reads this
      requires Valid()
      ensures |r| == |leads.rows|
      ensures forall l :: l in r <==> l in leads.rows.Values
    {
      SizeIsValuesLength(leads);
      ValuesMembers(leads);
      Values(leads)
    }

    /** `this.leads.get(id)`. */
    function GetLead(id: Id): (r: Option<Lead>)
      reads this
      requires Valid()
      ensures r.Some? <==> id in leads.rows
      ensures r.Some? ==> r.value.id == id && r.value in GetLeads()
    {
      Get(leads, id)
    }

    /** `createLead`: `id` is the fresh `randomUUID()`, `now` the clock reading. */
    method CreateLead(ins: InsertLead, id: Id, now: Timestamp) returns (l: Lead)
      requires Valid() && id !in leads.rows
      modifies this
      ensures Valid()
      ensures l == NewLead(ins, id, now)
      ensures leads == Put(old(leads), id, l)
      ensures clients == old(clients) && projects == old(projects) && quotes == old(quotes) && portfolioItems == old(portfolioItems)
      ensures GetLead(id) == Some(l)
      ensures forall k :: k != id ==> Get(leads, k) == Get(old(leads), k)
      ensures GetLeads() == old(GetLeads()) + [l]
    {
      l := NewLead(ins, id, now);
      ValuesPutNew(leads, id, l);
      KeyedPut(leads, id, l, LeadId);
      GetPut(leads, id, l);
      leads := Put(leads, id, l);
    }

    /** `updateLead`: `{ ...stored, ...update }`, or `undefined` for an unknown id. */
    method UpdateLead(id: Id, u: LeadPatch) returns (r: Option<Lead>)
      requires Valid()
      modifies this
      ensures Valid()
      ensures id !in old(leads.rows) ==> r == None && leads == old(leads)
      ensures id in old(leads.rows) ==> r == Some(MergeLead(old(leads.rows[id]), u)) && leads == Put(old(leads), id, r.value)
      ensures leads.keys == old(leads.keys) && leads.rows.Keys == old(leads.rows.Keys)
      ensures r.Some? ==> GetLead(id) == r
      ensures forall k :: k != id ==> Get(leads, k) == Get(old(leads), k)
      ensures clients == old(clients) && projects == old(projects) && quotes == old(quotes) && portfolioItems == old(portfolioItems)
    {
      var found := Get(leads, id);
      if found.None? {
        return None;
      }
      var updated := MergeLead(found.value, u);
      PutExistingKeepsKeys(leads, id, updated);
      KeyedPut(leads, id, updated, LeadId);
      GetPut(leads, id, updated);
      leads := Put(leads, id, updated);
      r := Some(updated);
    }

    /** `this.leads.delete(id)`: whether a record was removed. */
    method DeleteLead(id: Id) returns (removed: bool)
      requires Valid()
      modifies this
      ensures Valid()
      ensures removed == (id in old(leads.rows))
      ensures leads == Remove(old(leads), id)
      ensures GetLead(id) == None
      ensures forall k :: k != id ==> Get(leads, k) == Get(old(leads), k)
      ensures clients == old(clients) && projects == old(projects) && quotes == old(quotes) && portfolioItems == old(portfolioItems)
    {
      removed := id in leads.rows;
      KeyedRemove(leads, id, LeadId);
      GetRemove(leads, id);
      leads := Remove(leads, id);
    }
    // ----- portfolio items -----

    /** `Array.from(this.portfolioItems.values())`: every stored portfolio item once, in insertion order. */
    function GetPortfolioItems(): (r: seq<PortfolioItem>)
      reads this
      requires Valid()
      ensures |r| == |portfolioItems.rows|
      ensures forall f :: f in r <==> f in portfolioItems.rows.Values
    {
      SizeIsValuesLength(portfolioItems);
      ValuesMembers(portfolioItems);
      Values(portfolioItems)
    }

    /** `this.portfolioItems.get(id)`. */
    function GetPortfolioItem(id: Id): (r: Option<PortfolioItem>)
      reads this
      requires Valid()
      ensures r.Some? <==> id in portfolioItems.rows
      ensures r.Some? ==> r.value.id == id && r.value in GetPortfolioItems()
    {
      Get(portfolioItems, id)
    }

    /** `createPortfolioItem`: `id` is the fresh `randomUUID()`, `now` the clock reading. */
    method CreatePortfolioItem(ins: InsertPortfolioItem, id: Id, now: Timestamp) returns (f: PortfolioItem)
      requires Valid() && id !in portfolioItems.rows
      modifies this
      ensures Valid()
      ensures f == NewPortfolioItem(ins, id, now)
      ensures portfolioItems == Put(old(portfolioItems), id, f)
      ensures clients == old(clients) && projects == old(projects) && quotes == old(quotes) && leads == old(leads)
      ensures GetPortfolioItem(id) == Some(f)
      ensures forall k :: k != id ==> Get(portfolioItems, k) == Get(old(portfolioItems), k)
      ensures GetPortfolioItems() == old(GetPortfolioItems()) + [f]
    {
      f := NewPortfolioItem(ins, id, now);
      ValuesPutNew(portfolioItems, id, f);
      KeyedPut(portfolioItems, id, f, PortfolioItemId);
      GetPut(portfolioItems, id, f);
      portfolioItems := Put(portfolioItems, id, f);
    }

    /** `updatePortfolioItem`: `{ ...stored, ...update }`, or `undefined` for an unknown id. */
    method UpdatePortfolioItem(id: Id, u: PortfolioItemPatch) returns (r: Option<PortfolioItem>)
      requires Valid()
      modifies this
      ensures Valid()
      ensures id !in old(portfolioItems.rows) ==> r == None && portfolioItems == old(portfolioItems)
      ensures id in old(portfolioItems.rows) ==> r == Some(MergePortfolioItem(old(portfolioItems.rows[id]), u)) && portfolioItems == Put(old(portfolioItems), id, r.value)
      ensures portfolioItems.keys == old(portfolioItems.keys) && portfolioItems.rows.Keys == old(portfolioItems.rows.Keys)
      ensures r.Some? ==> GetPortfolioItem(id) == r
      ensures forall k :: k != id ==> Get(portfolioItems, k) == Get(old(portfolioItems), k)
      ensures clients == old(clients) && projects == old(projects) && quotes == old(quotes) && leads == old(leads)
    {
      var found := Get(portfolioItems, id);
      if found.None? {
        return None;
      }
      var updated := MergePortfolioItem(found.value, u);
      PutExistingKeepsKeys(portfolioItems, id, updated);
      KeyedPut(portfolioItems, id, updated, PortfolioItemId);
      GetPut(portfolioItems, id, updated);
      portfolioItems := Put(portfolioItems, id, updated);
      r := Some(updated);
    }

    /** `this.portfolioItems.delete(id)`: whether a record was removed. */
    method DeletePortfolioItem(id: Id) returns (removed: bool)
      requires Valid()
      modifies this
      ensures Valid()
      ensures removed == (id in old(portfolioItems.rows))
      ensures portfolioItems == Remove(old(portfolioItems), id)
      ensures GetPortfolioItem(id) == None
      ensures forall k :: k != id ==> Get(portfolioItems, k) == Get(old(portfolioItems), k)
      ensures clients == old(clients) && projects == old(projects) && quotes == old(quotes) && leads == old(leads)
    {
      removed := id in portfolioItems.rows;
      KeyedRemove(portfolioItems, id, PortfolioItemId);
      GetRemove(portfolioItems, id);
      portfolioItems := Remove(portfolioItems, id);
    }

    // ----- dashboard -----

    /** `getDashboardStats`, with `monthStart` the first instant of the current month. */
    function GetDashboardStats(monthStart: Timestamp): (s: DashboardStats)
      reads this
      requires Valid()
      ensures s.totalClients == |GetClients()|
      ensures s.activeProjects == |KeysWhere(projects, IsActive)|
      ensures s.sentQuotes == |KeysWhere(quotes, IsSent)|
      ensures s.monthlyRevenue == MonthlyRevenue(GetProjects(), monthStart)
      ensures s.monthlyRevenue == Sum(GetProjects(), ContributionSince(monthStart))
    {
      RevenueIsTotalContribution(Values(projects), monthStart);
      FilterValuesCount(projects, IsActive);
      FilterValuesCount(quotes, IsSent);
      SizeIsValuesLength(clients);
      Stats(clients, projects, quotes, monthStart)
    }
  }

  /** The project the scenario below adds: pending, budget 45000. */
  function ScenarioProject(clientId: Id): InsertProject
  {
    InsertProject(clientId, "Campanha", None, Some("pending"), Some(45000))
  }

  /**
   Creating a pending project with budget 45000 at any time and completing it
   during the month adds 45000 and no active project.
   */
  lemma ScenarioStats(clients: Table<Client>, projects: Table<Project>, quotes: Table<Quote>,
                      clientId: Id, extra: Id, createdAt: Timestamp, now: Timestamp, monthStart: Timestamp)
    requires Tables.Valid(projects) && Tables.Valid(quotes) && extra !in projects.rows
    requires monthStart <= now
    ensures var created := NewProject(ScenarioProject(clientId), extra, createdAt);
      var done := UpdatedProject(created, EmptyProjectPatch.(status := Some(Completed)), now);
      var before := Stats(clients, projects, quotes, monthStart);
      Stats(clients, Put(Put(projects, extra, created), extra, done), quotes, monthStart)
        == before.(monthlyRevenue := before.monthlyRevenue + 45000)
  {
    var created := NewProject(ScenarioProject(clientId), extra, createdAt);
    var done := UpdatedProject(created, EmptyProjectPatch.(status := Some(Completed)), now);
    var ps1 := Put(projects, extra, created);
    ScenarioProjectFacts(clientId, extra, createdAt, now, monthStart);
    GetPut(projects, extra, created);
    NeutralProjectLeavesStats(clients, projects, quotes, extra, created, monthStart);
    CompletingScenarioProject(clients, ps1, quotes, extra, created, done, monthStart);
  }

  /** The scenario project, created at any time, is neutral until completed and then earns 45000. */
  lemma ScenarioProjectFacts(clientId: Id, extra: Id, createdAt: Timestamp, now: Timestamp, monthStart: Timestamp)
    requires monthStart <= now
    ensures var created := NewProject(ScenarioProject(clientId), extra, createdAt);
      var done := UpdatedProject(created, EmptyProjectPatch.(status := Some(Completed)), now);
      && !IsActive(created) && Contribution(monthStart, created) == 0
      && !IsActive(done) && Contribution(monthStart, done) == 45000
  {
  }

  lemma NeutralProjectLeavesStats(clients: Table<Client>, projects: Table<Project>, quotes: Table<Quote>,
                                  id: Id, p: Project, monthStart: Timestamp)
    requires Tables.Valid(projects) && Tables.Valid(quotes) && id !in projects.rows
    requires !IsActive(p) && Contribution(monthStart, p) == 0
    ensures Stats(clients, Put(projects, id, p), quotes, monthStart) == Stats(clients, projects, quotes, monthStart)
  {
    StatsAfterPutProject(clients, projects, quotes, id, p, monthStart);
  }

  lemma CompletingScenarioProject(clients: Table<Client>, projects: Table<Project>, quotes: Table<Quote>,
                                  id: Id, p: Project, done: Project, monthStart: Timestamp)
    requires Tables.Valid(projects) && Tables.Valid(quotes) && Get(projects, id) == Some(p)
    requires !IsActive(p) && Contribution(monthStart, p) == 0
    requires !IsActive(done) && Contribution(monthStart, done) == 45000
    ensures var before := Stats(clients, projects, quotes, monthStart);
      Stats(clients, Put(projects, id, done), quotes, monthStart) == before.(monthlyRevenue := before.monthlyRevenue + 45000)
  {
    StatsAfterPutProject(clients, projects, quotes, id, done, monthStart);
  }

  /** Creating the pending scenario project under a fresh id leaves the dashboard as it was. */
  method AddScenarioProject(store: MemStorage, clientId: Id, extra: Id, now: Timestamp, monthStart: Timestamp)
      returns (created: Project)
    requires store.Valid() && extra !in store.projects.rows
    modifies store
    ensures store.Valid()
    ensures created == NewProject(ScenarioProject(clientId), extra, now)
    ensures store.projects == Put(old(store.projects), extra, created)
    ensures Get(store.projects, extra) == Some(created)
    ensures store.clients == old(store.clients) && store.quotes == old(store.quotes)
    ensures store.leads == old(store.leads) && store.portfolioItems == old(store.portfolioItems)
    ensures store.GetDashboardStats(monthStart) == old(store.GetDashboardStats(monthStart))
  {
    ghost var cs, ps, qs := store.clients, store.projects, store.quotes;
    created := store.CreateProject(ScenarioProject(clientId), extra, now);
    CreatedProjectEarnsNothing(ScenarioProject(clientId), extra, now, monthStart);
    NeutralProjectLeavesStats(cs, ps, qs, extra, created, monthStart);
  }

  /** Marking the scenario project completed during the current month adds its 45000 to the revenue. */
  method CompleteScenarioProject(store: MemStorage, clientId: Id, extra: Id, createdAt: Timestamp, now: Timestamp,
                                 monthStart: Timestamp)
    requires store.Valid() && Get(store.projects, extra) == Some(NewProject(ScenarioProject(clientId), extra, createdAt))
    requires monthStart <= now
    modifies store
    ensures store.Valid()
    ensures store.projects == Put(old(store.projects), extra,
      UpdatedProject(NewProject(ScenarioProject(clientId), extra, createdAt), EmptyProjectPatch.(status := Some(Completed)), now))
    ensures store.clients == old(store.clients) && store.quotes == old(store.quotes)
    ensures store.leads == old(store.leads) && store.portfolioItems == old(store.portfolioItems)
    ensures var before := old(store.GetDashboardStats(monthStart));
      store.GetDashboardStats(monthStart) == before.(monthlyRevenue := before.monthlyRevenue + 45000)
  {
    ghost var cs, ps, qs := store.clients, store.projects, store.quotes;
    var created := NewProject(ScenarioProject(clientId), extra, createdAt);
    var complete := EmptyProjectPatch.(status := Some(Completed));
    assert extra in ps.rows && ps.rows[extra] == created;
    var updated := store.UpdateProject(extra, complete, now);
    assert store.projects == Put(ps, extra, UpdatedProject(created, complete, now));
    ScenarioProjectFacts(clientId, extra, createdAt, now, monthStart);
    CompletingScenarioProject(cs, ps, qs, extra, created, UpdatedProject(created, complete, now), monthStart);
  }

  /**
   The dashboard for a store seeded at `seeded`, after one more project,
   budget 45000, is created at `createdAt` and then marked completed at `now`,
   during the current month: two clients, one active project, one sent quote
   and 45000 of revenue.
   */
  method DashboardScenario(ids: SeedIds, extra: Id, seeded: Timestamp, createdAt: Timestamp, now: Timestamp,
                           monthStart: Timestamp) returns (s: DashboardStats)
    requires ids.client1 != ids.client2 && ids.project1 != ids.project2
    requires extra != ids.project1 && extra != ids.project2
    requires monthStart <= now
    ensures s == DashboardStats(2, 1, 1, 45000)
  {
    var store := new MemStorage(ids, seeded);
    assert extra !in store.projects.rows.Keys;
    var created := AddScenarioProject(store, ids.client1, extra, createdAt, monthStart);
    CompleteScenarioProject(store, ids.client1, extra, createdAt, now, monthStart);
    s := store.GetDashboardStats(monthStart);
  }
}
