/**
  * The lead record of `src/hooks/useLeads.ts`, field-wise access to it (the
  * `Object.keys(lead)` view the upsert merge iterates over), the fill-forward
  * merge that merge computes, and the dashboard metrics count.
  */
module Leads {
  import opened Base
  import opened Seqs

  /** A sales lead. Optional columns are `None` when the record leaves them `undefined` or the store holds `null`. */
  datatype Lead = Lead(
    id: Option<string>,
    date: string,
    company: string,
    org_number: string,
    status: string,
    source: string,
    seller: string,
    contact: Option<string>,
    is_existing_customer: Option<bool>,
    kwp: Option<JsNumber>,
    ppa_price: Option<JsNumber>,
    created_at: Option<string>,
    updated_at: Option<string>)

  /** The keys of a lead object. */
  datatype Field =
    | Id | Date | Company | OrgNumber | Status | Source | Seller | Contact
    | IsExistingCustomer | Kwp | PpaPrice | CreatedAt | UpdatedAt

  /** Every key, in the order a lead object lists them. */
  const AllFields: seq<Field> :=
    [Id, Date, Company, OrgNumber, Status, Source, Seller, Contact,
     IsExistingCustomer, Kwp, PpaPrice, CreatedAt, UpdatedAt]

  lemma AllFieldsComplete(f: Field)
    ensures f in AllFields
  {
  }

  /** The untyped value stored under one key. */
  datatype Value = Undefined | Text(s: string) | Flag(b: bool) | Number(n: JsNumber)

  function OptText(o: Option<string>): Value {
    if o.Some? then Text(o.value) else Undefined
  }

  /** The kind of value each key holds. */
  predicate FitsField(f: Field, v: Value) {
    match f
    case IsExistingCustomer => v.Undefined? || v.Flag?
    case Kwp | PpaPrice => v.Undefined? || v.Number?
    case Date | Company | OrgNumber | Status | Source | Seller => v.Text?
    case _ => v.Undefined? || v.Text?
  }

  /** `lead[key]`. */
  function Get(l: Lead, f: Field): (v: Value)
    ensures FitsField(f, v)
  {
    match f
    case Id => OptText(l.id)
    case Date => Text(l.date)
    case Company => Text(l.company)
    case OrgNumber => Text(l.org_number)
    case Status => Text(l.status)
    case Source => Text(l.source)
    case Seller => Text(l.seller)
    case Contact => OptText(l.contact)
    case IsExistingCustomer => if l.is_existing_customer.Some? then Flag(l.is_existing_customer.value) else Undefined
    case Kwp => if l.kwp.Some? then Number(l.kwp.value) else Undefined
    case PpaPrice => if l.ppa_price.Some? then Number(l.ppa_price.value) else Undefined
    case CreatedAt => OptText(l.created_at)
    case UpdatedAt => OptText(l.updated_at)
  }

  /** `lead[key] = v` for a defined value of the key's kind; every other key keeps its value. */
  function Set(l: Lead, f: Field, v: Value): (r: Lead)
    requires FitsField(f, v) && v != Undefined
    ensures Get(r, f) == v
    ensures forall g :: g != f ==> Get(r, g) == Get(l, g)
  {
    match f
    case Id => l.(id := Some(v.s))
    case Date => l.(date := v.s)
    case Company => l.(company := v.s)
    case OrgNumber => l.(org_number := v.s)
    case Status => l.(status := v.s)
    case Source => l.(source := v.s)
    case Seller => l.(seller := v.s)
    case Contact => l.(contact := Some(v.s))
    case IsExistingCustomer => l.(is_existing_customer := Some(v.b))
    case Kwp => l.(kwp := Some(v.n))
    case PpaPrice => l.(ppa_price := Some(v.n))
    case CreatedAt => l.(created_at := Some(v.s))
    case UpdatedAt => l.(updated_at := Some(v.s))
  }

  /** Two leads that agree on every key are the same lead. */
  lemma GetDetermines(a: Lead, b: Lead)
    requires forall f :: Get(a, f) == Get(b, f)
    ensures a == b
  {
    assert a.id == b.id by { OptTextInjective(a.id, b.id); assert Get(a, Id) == Get(b, Id); }
    assert a.date == b.date by { assert Get(a, Date) == Get(b, Date); }
    assert a.company == b.company by { assert Get(a, Company) == Get(b, Company); }
    assert a.org_number == b.org_number by { assert Get(a, OrgNumber) == Get(b, OrgNumber); }
    assert a.status == b.status by { assert Get(a, Status) == Get(b, Status); }
    assert a.source == b.source by { assert Get(a, Source) == Get(b, Source); }
    assert a.seller == b.seller by { assert Get(a, Seller) == Get(b, Seller); }
    assert a.contact == b.contact by { OptTextInjective(a.contact, b.contact); assert Get(a, Contact) == Get(b, Contact); }
    assert a.is_existing_customer == b.is_existing_customer by {
      assert Get(a, IsExistingCustomer) == Get(b, IsExistingCustomer);
    }
    assert a.kwp == b.kwp by { assert Get(a, Kwp) == Get(b, Kwp); }
    assert a.ppa_price == b.ppa_price by { assert Get(a, PpaPrice) == Get(b, PpaPrice); }
    assert a.created_at == b.created_at by {
      OptTextInjective(a.created_at, b.created_at);
      assert Get(a, CreatedAt) == Get(b, CreatedAt);
    }
    assert a.updated_at == b.updated_at by {
      OptTextInjective(a.updated_at, b.updated_at);
      assert Get(a, UpdatedAt) == Get(b, UpdatedAt);
    }
  }

  lemma OptTextInjective(x: Option<string>, y: Option<string>)
    ensures OptText(x) == OptText(y) ==> x == y
  {
  }

  /** The merge copies a key when its value is not `null`, not `undefined` and not `''`. */
  predicate Provided(v: Value) {
    v != Undefined && v != Text("")
  }

  function PickText(stored: string, incoming: string): string {
    if incoming != "" then incoming else stored
  }

  function PickOptText(stored: Option<string>, incoming: Option<string>): Option<string> {
    if incoming.Some? && incoming.value != "" then incoming else stored
  }

  function PickOpt<T>(stored: Option<T>, incoming: Option<T>): Option<T> {
    if incoming.Some? then incoming else stored
  }

  /**
    * The fill-forward merge of an incoming lead into a stored one: every key the
    * incoming lead provides wins, every other key keeps the stored value.
    */
  function FillForward(stored: Lead, incoming: Lead): (m: Lead)
    ensures forall f :: Get(m, f) == if Provided(Get(incoming, f)) then Get(incoming, f) else Get(stored, f)
  {
    Lead(
      PickOptText(stored.id, incoming.id),
      PickText(stored.date, incoming.date),
      PickText(stored.company, incoming.company),
      PickText(stored.org_number, incoming.org_number),
      PickText(stored.status, incoming.status),
      PickText(stored.source, incoming.source),
      PickText(stored.seller, incoming.seller),
      PickOptText(stored.contact, incoming.contact),
      PickOpt(stored.is_existing_customer, incoming.is_existing_customer),
      PickOpt(stored.kwp, incoming.kwp),
      PickOpt(stored.ppa_price, incoming.ppa_price),
      PickOptText(stored.created_at, incoming.created_at),
      PickOptText(stored.updated_at, incoming.updated_at))
  }

  /** A stored value survives exactly when the incoming lead leaves that key empty. */
  lemma FillForwardKeeps(stored: Lead, incoming: Lead, f: Field)
    requires !Provided(Get(incoming, f))
    ensures Get(FillForward(stored, incoming), f) == Get(stored, f)
  {
  }

  /** Merging a lead into a record that already agrees with everything it provides changes nothing. */
  lemma FillForwardAbsorbed(stored: Lead, incoming: Lead)
    requires forall f :: Provided(Get(incoming, f)) ==> Get(stored, f) == Get(incoming, f)
    ensures FillForward(stored, incoming) == stored
  {
    GetDetermines(FillForward(stored, incoming), stored);
  }

  /** Re-applying the same incoming lead is idempotent. */
  lemma FillForwardIdempotent(stored: Lead, incoming: Lead)
    ensures FillForward(FillForward(stored, incoming), incoming) == FillForward(stored, incoming)
  {
    FillForwardAbsorbed(FillForward(stored, incoming), incoming);
  }

  /** A merge of two leads with the same business key keeps that key. */
  lemma FillForwardKeepsKey(stored: Lead, incoming: Lead)
    requires stored.org_number == incoming.org_number
    ensures FillForward(stored, incoming).org_number == stored.org_number
  {
  }

  /** The dashboard counts of `useLeadMetrics` that are not floating-point averages. */
  datatype LeadMetrics = LeadMetrics(totalLeads: nat, qualifiedLeads: nat)

  predicate IsQualified(l: Lead) {
    l.status == "Kvalifisert"
  }

  /** `totalLeads` and `qualifiedLeads`; a missing lead list counts as no leads. */
  function Metrics(leads: Option<seq<Lead>>): (m: LeadMetrics)
    ensures leads.None? ==> m == LeadMetrics(0, 0)
    ensures leads.Some? ==> m.totalLeads == |leads.value| && m.qualifiedLeads == Count(leads.value, IsQualified)
    ensures m.qualifiedLeads <= m.totalLeads
  {
    match leads
    case None => LeadMetrics(0, 0)
    case Some(ls) =>
      FilterLength(ls, IsQualified);
      LeadMetrics(|ls|, |Filter(ls, IsQualified)|)
  }
}
