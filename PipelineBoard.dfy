/**
  * The lead pipeline of `src/components/pipeline/PipelineBoard.tsx`: a fixed
  * table of six columns, each showing the leads whose status is the column's
  * status, with a count badge and a placeholder when the column is empty.
  */
module PipelineBoard {
  import opened Base
  import opened Seqs
  import opened Leads

  datatype Column = Column(id: string, title: string, status: string)

  /** `pipelineColumns`, in display order. */
  const PipelineColumns: seq<Column> := [
    Column("not_started", "Ikke startet", "new"),
    Column("mapping", "Kartlegging", "qualified"),
    Column("quote_phase", "Tilbudsfase", "proposal"),
    Column("negotiation", "Forhandling", "negotiation"),
    Column("parked", "Parkert", "on_hold"),
    Column("closed", "Avsluttet", "closed")
  ]

  predicate HasStatus(lead: Lead, status: string) {
    lead.status == status
  }

  /** `getLeadsForColumn`: the leads with exactly this status; no lead list gives none. */
  function LeadsForColumn(leads: Option<seq<Lead>>, status: string): (r: seq<Lead>)
    ensures leads.None? ==> r == []
    ensures leads.Some? ==> |r| <= |leads.value|
  {
    if leads.Some? then Filter(leads.value, (l: Lead) => HasStatus(l, status)) else []
  }

  /** A column holds exactly the leads whose status equals its status, in input order, one per such lead. */
  lemma LeadsForColumnSpec(leads: seq<Lead>, status: string)
    ensures forall i :: 0 <= i < |LeadsForColumn(Some(leads), status)| ==>
      LeadsForColumn(Some(leads), status)[i].status == status && LeadsForColumn(Some(leads), status)[i] in leads
    ensures forall i :: 0 <= i < |leads| && leads[i].status == status ==> leads[i] in LeadsForColumn(Some(leads), status)
    ensures IsSubsequence(LeadsForColumn(Some(leads), status), leads)
    ensures |LeadsForColumn(Some(leads), status)| == Count(leads, (l: Lead) => HasStatus(l, status))
  {
    FilterSpec(leads, (l: Lead) => HasStatus(l, status));
    FilterIsSubsequence(leads, (l: Lead) => HasStatus(l, status));
    FilterLength(leads, (l: Lead) => HasStatus(l, status));
  }

  /** No two columns share a status. */
  lemma ColumnStatusesDistinct(i: nat, j: nat)
    requires i < j < |PipelineColumns|
    ensures PipelineColumns[i].status != PipelineColumns[j].status
  {
  }

  /** A lead shows up in at most one column. */
  lemma LeadInAtMostOneColumn(leads: seq<Lead>, lead: Lead, i: nat, j: nat)
    requires i < |PipelineColumns| && j < |PipelineColumns|
    requires lead in LeadsForColumn(Some(leads), PipelineColumns[i].status)
    requires lead in LeadsForColumn(Some(leads), PipelineColumns[j].status)
    ensures i == j
  {
    LeadsForColumnSpec(leads, PipelineColumns[i].status);
    LeadsForColumnSpec(leads, PipelineColumns[j].status);
    if i < j {
      ColumnStatusesDistinct(i, j);
    } else if j < i {
      ColumnStatusesDistinct(j, i);
    }
  }

  /** A lead whose status is none of the six column statuses is on no column. */
  lemma UnknownStatusOnNoColumn(leads: seq<Lead>, lead: Lead)
    requires forall c :: 0 <= c < |PipelineColumns| ==> PipelineColumns[c].status != lead.status
    ensures forall c :: 0 <= c < |PipelineColumns| ==> lead !in LeadsForColumn(Some(leads), PipelineColumns[c].status)
  {
    forall c | 0 <= c < |PipelineColumns|
      ensures lead !in LeadsForColumn(Some(leads), PipelineColumns[c].status)
    {
      LeadsForColumnSpec(leads, PipelineColumns[c].status);
    }
  }

  /** One rendered column: its title, the number on its badge, its cards, and whether the "Ingen leads" placeholder shows. */
  datatype ColumnView = ColumnView(title: string, badge: nat, cards: seq<Lead>, placeholder: bool)

  /** The rendered board: six skeleton columns while loading, otherwise one view per column. */
  datatype BoardView = Skeleton(columns: nat) | Board(views: seq<ColumnView>)

  function ColumnViewOf(column: Column, leads: Option<seq<Lead>>): ColumnView {
    var cards := LeadsForColumn(leads, column.status);
    ColumnView(column.title, |cards|, cards, |cards| == 0)
  }

  function BoardOf(isLoading: bool, leads: Option<seq<Lead>>): (b: BoardView)
    ensures isLoading <==> b.Skeleton?
    ensures b.Skeleton? ==> b.columns == |PipelineColumns|
    ensures b.Board? ==> |b.views| == |PipelineColumns|
    ensures b.Board? ==> forall c :: 0 <= c < |b.views| ==> b.views[c].title == PipelineColumns[c].title
  {
    if isLoading then Skeleton(|PipelineColumns|)
    else Board(seq(|PipelineColumns|, c requires 0 <= c < |PipelineColumns| => ColumnViewOf(PipelineColumns[c], leads)))
  }

  /** The view of column `c` is built from that column alone. */
  lemma ViewOfColumn(leads: Option<seq<Lead>>, c: nat)
    requires c < |PipelineColumns|
    ensures BoardOf(false, leads).views[c] == ColumnViewOf(PipelineColumns[c], leads)
  {
  }

  /** Each badge counts the leads with the column's status. */
  lemma BadgeCountsColumnLeads(leads: seq<Lead>, c: nat)
    requires c < |PipelineColumns|
    ensures BoardOf(false, Some(leads)).views[c].cards == LeadsForColumn(Some(leads), PipelineColumns[c].status)
    ensures BoardOf(false, Some(leads)).views[c].badge == Count(leads, (l: Lead) => HasStatus(l, PipelineColumns[c].status))
  {
    ViewOfColumn(Some(leads), c);
    LeadsForColumnSpec(leads, PipelineColumns[c].status);
  }

  predicate NoLeadHasStatus(leads: seq<Lead>, status: string) {
    forall i :: 0 <= i < |leads| ==> leads[i].status != status
  }

  /** The placeholder shows exactly when no lead has the column's status. */
  lemma PlaceholderIffNoLeads(leads: seq<Lead>, c: nat)
    requires c < |PipelineColumns|
    ensures BoardOf(false, Some(leads)).views[c].placeholder <==> NoLeadHasStatus(leads, PipelineColumns[c].status)
  {
    var status := PipelineColumns[c].status;
    ViewOfColumn(Some(leads), c);
    var cards := LeadsForColumn(Some(leads), status);
    LeadsForColumnSpec(leads, status);
    if cards != [] {
      assert cards[0].status == status && cards[0] in leads;
      var j :| 0 <= j < |leads| && leads[j] == cards[0];
      assert !NoLeadHasStatus(leads, status);
    }
    if !NoLeadHasStatus(leads, status) {
      var i :| 0 <= i < |leads| && leads[i].status == status;
      assert leads[i] in cards;
    }
  }

  /** Without a lead list every column is empty and shows the placeholder. */
  lemma NoLeadsEmptyBoard(c: nat)
    requires c < |PipelineColumns|
    ensures BoardOf(false, None).views[c].badge == 0 && BoardOf(false, None).views[c].placeholder
  {
  }
}
