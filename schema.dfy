/**
 The five record shapes of the dashboard (clients, projects, quotes, leads and
 portfolio items), the insert shapes a caller hands to `create*`, and the
 partial shapes a caller hands to `update*`.

 A column without `notNull()` is nullable; `null` and a missing property are
 both `None`. A column with a declared default is optional in the insert shape;
 the in-memory store copies the insert as given and never fills the default
 in, so such a field is an `Option` in the stored record as well.
 */
module Schema {
  import opened Wrappers

  type Id = string
  /** A `Date`, as milliseconds; `now` is always supplied by the caller. */
  type Timestamp = int

  // Declared column defaults. The store does not apply them (see NoDefaultsApplied).
  const ClientStatusDefault := "active"
  const ProjectStatusDefault := "active"
  const QuoteUrgencyDefault := "1.0"
  const QuoteStatusDefault := "pending"
  const LeadStatusDefault := "new"
  const FeaturedDefault := false

  /** One property of an object spread `{ ...was, ...given }`: a supplied value wins. */
  function Spread<T>(was: T, given: Option<T>): T
  {
    if given.Some? then given.value else was
  }

  /**
   The same for a property with a declared default: it may be unset in the
   stored record, and a patch can set it but not unset it.
   */
  function SpreadDefaulted<T>(was: Option<T>, given: Option<T>): Option<T>
  {
    if given.Some? then given else was
  }

  // ----- clients -----

  datatype Client = Client(
    id: Id,
    companyName: string,
    contactName: string,
    email: string,
    phone: string,
    location: string,
    status: Option<string>,
    createdAt: Timestamp)

  /** The client insert shape: everything but `id` and `createdAt`. */
  datatype InsertClient = InsertClient(
    companyName: string,
    contactName: string,
    email: string,
    phone: string,
    location: string,
    status: Option<string>)

  datatype ClientPatch = ClientPatch(
    companyName: Option<string>,
    contactName: Option<string>,
    email: Option<string>,
    phone: Option<string>,
    location: Option<string>,
    status: Option<string>)

  const EmptyClientPatch := ClientPatch(None, None, None, None, None, None)

  /** The caller-supplied part of a stored client. */
  function ClientFields(c: Client): InsertClient
  {
    InsertClient(c.companyName, c.contactName, c.email, c.phone, c.location, c.status)
  }

  /** `{ ...insertClient, id, createdAt: now }`. */
  function NewClient(ins: InsertClient, id: Id, now: Timestamp): (c: Client)
    ensures c.id == id && c.createdAt == now
    ensures ClientFields(c) == ins
  {
    Client(id, ins.companyName, ins.contactName, ins.email, ins.phone, ins.location, ins.status, now)
  }

  /** `{ ...client, ...clientUpdate }`. */
  function MergeClient(c: Client, u: ClientPatch): (r: Client)
    ensures r.id == c.id && r.createdAt == c.createdAt
  {
    c.(companyName := Spread(c.companyName, u.companyName),
       contactName := Spread(c.contactName, u.contactName),
       email := Spread(c.email, u.email),
       phone := Spread(c.phone, u.phone),
       location := Spread(c.location, u.location),
       status := SpreadDefaulted(c.status, u.status))
  }

  // ----- projects -----

  datatype Project = Project(
    id: Id,
    clientId: Id,
    name: string,
    description: Option<string>,
    status: Option<string>,
    budget: Option<int>,
    createdAt: Timestamp,
    completedAt: Option<Timestamp>)

  /** The project insert shape: everything but `id`, `createdAt` and `completedAt`. */
  datatype InsertProject = InsertProject(
    clientId: Id,
    name: string,
    description: Option<string>,
    status: Option<string>,
    budget: Option<int>)

  datatype ProjectPatch = ProjectPatch(
    clientId: Option<Id>,
    name: Option<string>,
    description: Option<Option<string>>,
    status: Option<string>,
    budget: Option<Option<int>>)

  const EmptyProjectPatch := ProjectPatch(None, None, None, None, None)

  function ProjectFields(p: Project): InsertProject
  {
    InsertProject(p.clientId, p.name, p.description, p.status, p.budget)
  }

  /** `{ ...insertProject, id, createdAt: now, completedAt: null }`. */
  function NewProject(ins: InsertProject, id: Id, now: Timestamp): (p: Project)
    ensures p.id == id && p.createdAt == now
    ensures ProjectFields(p) == ins
    ensures p.completedAt == None
  {
    Project(id, ins.clientId, ins.name, ins.description, ins.status, ins.budget, now, None)
  }

  /** `{ ...project, ...projectUpdate }`, before the completion stamp. */
  function MergeProject(p: Project, u: ProjectPatch): (r: Project)
    ensures r.id == p.id && r.createdAt == p.createdAt && r.completedAt == p.completedAt
  {
    p.(clientId := Spread(p.clientId, u.clientId),
       name := Spread(p.name, u.name),
       description := Spread(p.description, u.description),
       status := SpreadDefaulted(p.status, u.status),
       budget := Spread(p.budget, u.budget))
  }

  // ----- quotes -----

  datatype Quote = Quote(
    id: Id,
    clientId: Option<Id>,
    services: Option<seq<string>>,
    baseAmount: int,
    urgencyFactor: Option<string>,
    totalAmount: int,
    status: Option<string>,
    createdAt: Timestamp)

  /** The quote insert shape: everything but `id` and `createdAt`. */
  datatype InsertQuote = InsertQuote(
    clientId: Option<Id>,
    services: Option<seq<string>>,
    baseAmount: int,
    urgencyFactor: Option<string>,
    totalAmount: int,
    status: Option<string>)

  datatype QuotePatch = QuotePatch(
    clientId: Option<Option<Id>>,
    services: Option<Option<seq<string>>>,
    baseAmount: Option<int>,
    urgencyFactor: Option<string>,
    totalAmount: Option<int>,
    status: Option<string>)

  const EmptyQuotePatch := QuotePatch(None, None, None, None, None, None)

  function QuoteFields(q: Quote): InsertQuote
  {
    InsertQuote(q.clientId, q.services, q.baseAmount, q.urgencyFactor, q.totalAmount, q.status)
  }

  /** `{ ...insertQuote, id, createdAt: now }`. */
  function NewQuote(ins: InsertQuote, id: Id, now: Timestamp): (q: Quote)
    ensures q.id == id && q.createdAt == now
    ensures QuoteFields(q) == ins
  {
    Quote(id, ins.clientId, ins.services, ins.baseAmount, ins.urgencyFactor, ins.totalAmount, ins.status, now)
  }

  /** `{ ...quote, ...quoteUpdate }`. */
  function MergeQuote(q: Quote, u: QuotePatch): (r: Quote)
    ensures r.id == q.id && r.createdAt == q.createdAt
  {
    q.(clientId := Spread(q.clientId, u.clientId),
       services := Spread(q.services, u.services),
       baseAmount := Spread(q.baseAmount, u.baseAmount),
       urgencyFactor := SpreadDefaulted(q.urgencyFactor, u.urgencyFactor),
       totalAmount := Spread(q.totalAmount, u.totalAmount),
       status := SpreadDefaulted(q.status, u.status))
  }

  // ----- leads -----

  datatype Lead = Lead(
    id: Id,
    source: string,
    companyName: Option<string>,
    contactName: Option<string>,
    email: Option<string>,
    phone: Option<string>,
    status: Option<string>,
    notes: Option<string>,
    createdAt: Timestamp)

  /** The lead insert shape: everything but `id` and `createdAt`. */
  datatype InsertLead = InsertLead(
    source: string,
    companyName: Option<string>,
    contactName: Option<string>,
    email: Option<string>,
    phone: Option<string>,
    status: Option<string>,
    notes: Option<string>)

  datatype LeadPatch = LeadPatch(
    source: Option<string>,
    companyName: Option<Option<string>>,
    contactName: Option<Option<string>>,
    email: Option<Option<string>>,
    phone: Option<Option<string>>,
    status: Option<string>,
    notes: Option<Option<string>>)

  const EmptyLeadPatch := LeadPatch(None, None, None, None, None, None, None)

  function LeadFields(l: Lead): InsertLead
  {
    InsertLead(l.source, l.companyName, l.contactName, l.email, l.phone, l.status, l.notes)
  }

  /** `{ ...insertLead, id, createdAt: now }`. */
  function NewLead(ins: InsertLead, id: Id, now: Timestamp): (l: Lead)
    ensures l.id == id && l.createdAt == now
    ensures LeadFields(l) == ins
  {
    Lead(id, ins.source, ins.companyName, ins.contactName, ins.email, ins.phone, ins.status, ins.notes, now)
  }

  /** `{ ...lead, ...leadUpdate }`. */
  function MergeLead(l: Lead, u: LeadPatch): (r: Lead)
    ensures r.id == l.id && r.createdAt == l.createdAt
  {
    l.(source := Spread(l.source, u.source),
       companyName := Spread(l.companyName, u.companyName),
       contactName := Spread(l.contactName, u.contactName),
       email := Spread(l.email, u.email),
       phone := Spread(l.phone, u.phone),
       status := SpreadDefaulted(l.status, u.status),
       notes := Spread(l.notes, u.notes))
  }

  // ----- portfolio items -----

  datatype PortfolioItem = PortfolioItem(
    id: Id,
    title: string,
    description: Option<string>,
    category: string,
    imageUrl: Option<string>,
    clientId: Option<Id>,
    featured: Option<bool>,
    createdAt: Timestamp)

  /** The portfolio item insert shape: everything but `id` and `createdAt`. */
  datatype InsertPortfolioItem = InsertPortfolioItem(
    title: string,
    description: Option<string>,
    category: string,
    imageUrl: Option<string>,
    clientId: Option<Id>,
    featured: Option<bool>)

  datatype PortfolioItemPatch = PortfolioItemPatch(
    title: Option<string>,
    description: Option<Option<string>>,
    category: Option<string>,
    imageUrl: Option<Option<string>>,
    clientId: Option<Option<Id>>,
    featured: Option<Option<bool>>)

  const EmptyPortfolioItemPatch := PortfolioItemPatch(None, None, None, None, None, None)

  function PortfolioItemFields(f: PortfolioItem): InsertPortfolioItem
  {
    InsertPortfolioItem(f.title, f.description, f.category, f.imageUrl, f.clientId, f.featured)
  }

  /** `{ ...insertItem, id, createdAt: now }`. */
  function NewPortfolioItem(ins: InsertPortfolioItem, id: Id, now: Timestamp): (f: PortfolioItem)
    ensures f.id == id && f.createdAt == now
    ensures PortfolioItemFields(f) == ins
  {
    PortfolioItem(id, ins.title, ins.description, ins.category, ins.imageUrl, ins.clientId, ins.featured, now)
  }

  /** `{ ...item, ...itemUpdate }`. */
  function MergePortfolioItem(f: PortfolioItem, u: PortfolioItemPatch): (r: PortfolioItem)
    ensures r.id == f.id && r.createdAt == f.createdAt
  {
    f.(title := Spread(f.title, u.title),
       description := Spread(f.description, u.description),
       category := Spread(f.category, u.category),
       imageUrl := Spread(f.imageUrl, u.imageUrl),
       clientId := Spread(f.clientId, u.clientId),
       featured := Spread(f.featured, u.featured))
  }

  // ----- laws of the shallow merge -----

  /** A supplied property wins, an unsupplied one keeps its value, and applying the same patch twice changes nothing more. */
  lemma SpreadLaws<T>(was: T, v: T, given: Option<T>)
    ensures Spread(was, Some(v)) == v && Spread(was, None) == was
    ensures Spread(Spread(was, given), given) == Spread(was, given)
  {
  }

  /** An empty patch yields the record unchanged. */
  lemma EmptyPatchesChangeNothing(c: Client, p: Project, q: Quote, l: Lead, f: PortfolioItem)
    ensures MergeClient(c, EmptyClientPatch) == c
    ensures MergeProject(p, EmptyProjectPatch) == p
    ensures MergeQuote(q, EmptyQuotePatch) == q
    ensures MergeLead(l, EmptyLeadPatch) == l
    ensures MergePortfolioItem(f, EmptyPortfolioItemPatch) == f
  {
  }

  /** Merging the same patch a second time changes nothing. */
  lemma MergesAreIdempotent(c: Client, cu: ClientPatch, p: Project, pu: ProjectPatch,
                            q: Quote, qu: QuotePatch, l: Lead, lu: LeadPatch,
                            f: PortfolioItem, fu: PortfolioItemPatch)
    ensures MergeClient(MergeClient(c, cu), cu) == MergeClient(c, cu)
    ensures MergeProject(MergeProject(p, pu), pu) == MergeProject(p, pu)
    ensures MergeQuote(MergeQuote(q, qu), qu) == MergeQuote(q, qu)
    ensures MergeLead(MergeLead(l, lu), lu) == MergeLead(l, lu)
    ensures MergePortfolioItem(MergePortfolioItem(f, fu), fu) == MergePortfolioItem(f, fu)
  {
  }

  /**
   A record is its insert fields plus the two store-assigned properties; for a
   project also `completedAt`, which the insert shape leaves out.
   */
  lemma RecordsRebuildFromFields(c: Client, p: Project, q: Quote, l: Lead, f: PortfolioItem)
    ensures NewClient(ClientFields(c), c.id, c.createdAt) == c
    ensures NewProject(ProjectFields(p), p.id, p.createdAt) == p.(completedAt := None)
    ensures NewQuote(QuoteFields(q), q.id, q.createdAt) == q
    ensures NewLead(LeadFields(l), l.id, l.createdAt) == l
    ensures NewPortfolioItem(PortfolioItemFields(f), f.id, f.createdAt) == f
  {
  }

  /** A field left out of an insert stays unset: the declared column default is not stored. */
  lemma NoDefaultsApplied(ci: InsertClient, pi: InsertProject, qi: InsertQuote, li: InsertLead,
                          fi: InsertPortfolioItem, id: Id, now: Timestamp)
    requires ci.status == None && pi.status == None && qi.status == None
    requires qi.urgencyFactor == None && li.status == None && fi.featured == None
    ensures NewClient(ci, id, now).status != Some(ClientStatusDefault)
    ensures NewProject(pi, id, now).status != Some(ProjectStatusDefault)
    ensures NewQuote(qi, id, now).urgencyFactor != Some(QuoteUrgencyDefault)
    ensures NewQuote(qi, id, now).status != Some(QuoteStatusDefault)
    ensures NewLead(li, id, now).status != Some(LeadStatusDefault)
    ensures NewPortfolioItem(fi, id, now).featured != Some(FeaturedDefault)
  {
  }

  /** Updating a client's location leaves its phone as it was. */
  lemma LocationUpdateKeepsPhone(c: Client, where: string)
    ensures var r := MergeClient(c, EmptyClientPatch.(location := Some(where)));
      r.location == where && r.phone == c.phone && r == c.(location := where)
  {
  }
}
