/**
  * The search box of `src/components/leads/LeadTable.tsx`: the `filteredLeads`
  * predicate over the lead list and the choice of what the table area shows.
  */
module LeadTable {
  import opened Base
  import opened Text
  import opened Seqs
  import opened Leads

  /**
    * A lead matches a query when the lower-cased company name contains the
    * lower-cased query, the organisation number contains the query as typed,
    * or the lead has a non-empty contact whose lower-cased form contains the
    * lower-cased query.
    */
  predicate Matches(lead: Lead, query: string) {
    || Contains(ToLower(lead.company), ToLower(query))
    || Contains(lead.org_number, query)
    || (lead.contact.Some? && lead.contact.value != "" && Contains(ToLower(lead.contact.value), ToLower(query)))
  }

  /** `filteredLeads`: the matching leads; no lead list gives no leads. */
  function FilteredLeads(leads: Option<seq<Lead>>, query: string): (r: seq<Lead>)
    ensures leads.None? ==> r == []
    ensures leads.Some? ==> |r| <= |leads.value|
  {
    if leads.Some? then Filter(leads.value, (l: Lead) => Matches(l, query)) else []
  }

  /** A lead is kept exactly when it matches, and the kept leads keep their order. */
  lemma FilteredLeadsSpec(leads: seq<Lead>, query: string)
    ensures forall i :: 0 <= i < |FilteredLeads(Some(leads), query)| ==>
      Matches(FilteredLeads(Some(leads), query)[i], query) && FilteredLeads(Some(leads), query)[i] in leads
    ensures forall i :: 0 <= i < |leads| && Matches(leads[i], query) ==> leads[i] in FilteredLeads(Some(leads), query)
    ensures IsSubsequence(FilteredLeads(Some(leads), query), leads)
  {
    FilterSpec(leads, (l: Lead) => Matches(l, query));
    FilterIsSubsequence(leads, (l: Lead) => Matches(l, query));
  }

  /** An empty search box keeps every lead. */
  lemma EmptyQueryKeepsAll(leads: seq<Lead>)
    ensures FilteredLeads(Some(leads), "") == leads
  {
    forall i | 0 <= i < |leads| ensures Matches(leads[i], "") {
      assert ToLower("") == "";
      assert "" <= ToLower(leads[i].company);
    }
    FilterKeepsAll(leads, (l: Lead) => Matches(l, ""));
  }

  lemma ToLowerAppend(a: string, b: string)
    ensures ToLower(a + b) == ToLower(a) + ToLower(b)
  {
    assert forall i :: 0 <= i < |a + b| ==> ToLower(a + b)[i] == (ToLower(a) + ToLower(b))[i];
  }

  /** Text containing a query also contains every prefix of it. */
  lemma ContainsPrefix(s: string, q: string, x: string)
    requires Contains(s, q + x)
    ensures Contains(s, q)
  {
    var i := ContainsWitness(s, q + x);
    assert q <= s[i..];
    ContainsAt(s, q, i);
  }

  /** A lead that matches an extended query matches the query it extends. */
  lemma ExtendedQueryMatchesPrefix(lead: Lead, q: string, x: string)
    requires Matches(lead, q + x)
    ensures Matches(lead, q)
  {
    ToLowerAppend(q, x);
    if Contains(ToLower(lead.company), ToLower(q + x)) {
      ContainsPrefix(ToLower(lead.company), ToLower(q), ToLower(x));
    } else if Contains(lead.org_number, q + x) {
      ContainsPrefix(lead.org_number, q, x);
    } else {
      ContainsPrefix(ToLower(lead.contact.value), ToLower(q), ToLower(x));
    }
  }

  /** Typing more into the search box only narrows the list: the new result is a subsequence of the old. */
  lemma TypingNarrowsResult(leads: seq<Lead>, q: string, x: string)
    ensures IsSubsequence(FilteredLeads(Some(leads), q + x), FilteredLeads(Some(leads), q))
  {
    forall l: Lead | Matches(l, q + x) ensures Matches(l, q) {
      ExtendedQueryMatchesPrefix(l, q, x);
    }
    FilterNarrower(leads, (l: Lead) => Matches(l, q), (l: Lead) => Matches(l, q + x));
    FilterIsSubsequence(FilteredLeads(Some(leads), q), (l: Lead) => Matches(l, q + x));
  }

  /** What the table area shows: a loading skeleton, the rows, or an empty-state message with an optional import hint. */
  datatype TableView = Loading | Rows(leads: seq<Lead>) | Empty(message: string, importHint: bool)

  const NoMatchMessage := "Ingen leads matcher søket"
  const NoLeadsMessage := "Ingen leads funnet"

  /** The rendered table area for the loading flag, the lead list and the query. */
  function View(isLoading: bool, leads: Option<seq<Lead>>, query: string): (v: TableView)
    ensures isLoading <==> v.Loading?
    ensures v.Rows? ==> v.leads == FilteredLeads(leads, query) && v.leads != []
    ensures !isLoading && FilteredLeads(leads, query) == [] ==> v.Empty?
    ensures v.Empty? ==> (v.importHint <==> query == "")
    ensures v.Empty? ==> v.message == (if query != "" then NoMatchMessage else NoLeadsMessage)
  {
    if isLoading then Loading
    else
      var shown := FilteredLeads(leads, query);
      if |shown| == 0 then
        Empty(if query != "" then NoMatchMessage else NoLeadsMessage, query == "")
      else Rows(shown)
  }

  /** "None found" with the import hint is shown exactly when there are no leads at all and the box is empty. */
  lemma NoLeadsMessageMeansNoLeads(leads: Option<seq<Lead>>, query: string)
    ensures View(false, leads, query) == Empty(NoLeadsMessage, true) <==>
      query == "" && (leads.None? || leads.value == [])
  {
    if leads.Some? && query == "" {
      EmptyQueryKeepsAll(leads.value);
    }
  }

  /** "No match" (without the hint) is shown exactly for a non-empty query that no lead matches. */
  lemma NoMatchMessageMeansNoneMatch(leads: seq<Lead>, query: string)
    ensures View(false, Some(leads), query) == Empty(NoMatchMessage, false) <==>
      query != "" && forall i :: 0 <= i < |leads| ==> !Matches(leads[i], query)
  {
    FilteredLeadsSpec(leads, query);
    var shown := FilteredLeads(Some(leads), query);
    if query != "" && forall i :: 0 <= i < |leads| ==> !Matches(leads[i], query) {
      assert forall l :: l in leads ==> !Matches(l, query);
    }
    if View(false, Some(leads), query) == Empty(NoMatchMessage, false) {
      assert shown == [];
    }
  }
}
