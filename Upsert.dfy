/**
  * The reconciliation loop of `useUpsertLeads` (`src/hooks/useLeads.ts`): each
  * incoming lead is looked up by `org_number`, merged field by field into the
  * stored record when one is found and inserted otherwise, and tagged with what
  * happened. The store is a class over a map from `org_number` to the stored
  * record; whether a store call fails is decided by a reply given per lead.
  */
module Upsert {
  import opened Base
  import opened Text
  import opened Seqs
  import opened Leads

  /** How the store answers the calls made for one lead. */
  datatype StoreReply = StoreReply(lookupFails: bool, writeFails: bool, newId: string)

  /** The tagged outcome the loop pushes onto `results` for one lead. */
  datatype UpsertResult = Inserted(data: Lead) | Updated(data: Lead) | Failed(data: Lead)

  /** Every stored record sits under its own business key. */
  ghost predicate KeyedByOrgNumber(store: map<string, Lead>) {
    forall k :: k in store ==> store[k].org_number == k
  }

  /** The record an insert stores: the store assigns an id when the lead has none. */
  function Assigned(lead: Lead, newId: string): (r: Lead)
    ensures r.id.Some?
    ensures forall f :: f != Id ==> Get(r, f) == Get(lead, f)
    ensures lead.id.Some? ==> r == lead
  {
    if lead.id.Some? then lead else lead.(id := Some(newId))
  }

  /** No stored record with this key, or the lookup failed: its error is never inspected. */
  predicate LooksNew(store: map<string, Lead>, lead: Lead, reply: StoreReply) {
    reply.lookupFails || lead.org_number !in store
  }

  /** The state of the store and the results so far. */
  datatype Batch = Batch(store: map<string, Lead>, results: seq<UpsertResult>)

  /** One iteration of the loop: lookup, then update or insert, each of which may fail. */
  function Step(store: map<string, Lead>, lead: Lead, reply: StoreReply): (b: Batch)
    ensures |b.results| == 1
  {
    var key := lead.org_number;
    if !LooksNew(store, lead, reply) then
      var merged := FillForward(store[key], lead);
      if reply.writeFails then Batch(store, [Failed(lead)])
      else Batch(store[key := merged], [Updated(merged)])
    else
      var record := Assigned(lead, reply.newId);
      // the business key is unique in the store: an insert under a present key is rejected
      if reply.writeFails || key in store then Batch(store, [Failed(lead)])
      else Batch(store[key := record], [Inserted(record)])
  }

  /** The whole loop, one lead at a time in input order. */
  function Reconcile(store: map<string, Lead>, leads: seq<Lead>, replies: seq<StoreReply>): (b: Batch)
    requires |replies| == |leads|
    ensures |b.results| == |leads|
    decreases |leads|
  {
    if leads == [] then Batch(store, [])
    else
      var first := Step(store, leads[0], replies[0]);
      var rest := Reconcile(first.store, leads[1..], replies[1..]);
      Batch(rest.store, first.results + rest.results)
  }

  /** A step keeps every record under its own key, keeps every key, and adds at most the lead's key. */
  lemma StepKeys(store: map<string, Lead>, lead: Lead, reply: StoreReply)
    requires KeyedByOrgNumber(store)
    ensures var b := Step(store, lead, reply);
      KeyedByOrgNumber(b.store) &&
      b.store.Keys == store.Keys + (if b.results[0].Inserted? then {lead.org_number} else {}) &&
      (b.results[0].Inserted? ==> lead.org_number !in store)
  {
  }

  /** What a result carries: the lead itself on failure, the lead with its id on insert,
      and on update a record holding every key the lead provides. */
  ghost predicate Reports(r: UpsertResult, lead: Lead, reply: StoreReply) {
    && (r.Failed? ==> r.data == lead)
    && (r.Inserted? ==> r.data == Assigned(lead, reply.newId))
    && (r.Updated? ==> forall f :: Provided(Get(lead, f)) ==> Get(r.data, f) == Get(lead, f))
    && r.data.org_number == lead.org_number
  }

  /** The result of one step reports on its lead. */
  lemma StepReports(store: map<string, Lead>, lead: Lead, reply: StoreReply)
    requires KeyedByOrgNumber(store)
    ensures Reports(Step(store, lead, reply).results[0], lead, reply)
  {
  }

  /** Reconciliation keeps every record under its own key and never removes a key. */
  lemma {:induction false} ReconcileKeepsKeys(store: map<string, Lead>, leads: seq<Lead>, replies: seq<StoreReply>)
    requires |replies| == |leads| && KeyedByOrgNumber(store)
    ensures var b := Reconcile(store, leads, replies);
      KeyedByOrgNumber(b.store) && store.Keys <= b.store.Keys
    decreases |leads|
  {
    if leads != [] {
      StepKeys(store, leads[0], replies[0]);
      ReconcileKeepsKeys(Step(store, leads[0], replies[0]).store, leads[1..], replies[1..]);
    }
  }

  /** One result per lead, in input order, each reporting on its own lead. */
  lemma {:induction false} ReconcileReports(store: map<string, Lead>, leads: seq<Lead>, replies: seq<StoreReply>)
    requires |replies| == |leads| && KeyedByOrgNumber(store)
    ensures var b := Reconcile(store, leads, replies);
      forall i :: 0 <= i < |leads| ==> Reports(b.results[i], leads[i], replies[i])
    decreases |leads|
  {
    if leads != [] {
      var first := Step(store, leads[0], replies[0]);
      StepKeys(store, leads[0], replies[0]);
      StepReports(store, leads[0], replies[0]);
      ReconcileReports(first.store, leads[1..], replies[1..]);
      var rest := Reconcile(first.store, leads[1..], replies[1..]);
      var b := Reconcile(store, leads, replies);
      forall i | 0 <= i < |leads|
        ensures Reports(b.results[i], leads[i], replies[i])
      {
        if i > 0 {
          assert b.results[i] == rest.results[i - 1];
          assert leads[1..][i - 1] == leads[i] && replies[1..][i - 1] == replies[i];
        } else {
          assert b.results[0] == first.results[0];
        }
      }
    }
  }

  /** Some lead with business key `k` is tagged `inserted`. */
  ghost predicate InsertedFor(results: seq<UpsertResult>, leads: seq<Lead>, k: string)
    requires |results| == |leads|
  {
    exists i :: 0 <= i < |leads| && results[i].Inserted? && leads[i].org_number == k
  }

  /** Every key reconciliation adds belongs to a lead tagged `inserted`. */
  lemma {:induction false} AddedKeyWasInserted(store: map<string, Lead>, leads: seq<Lead>, replies: seq<StoreReply>, k: string)
    requires |replies| == |leads| && KeyedByOrgNumber(store)
    requires k in Reconcile(store, leads, replies).store.Keys - store.Keys
    ensures InsertedFor(Reconcile(store, leads, replies).results, leads, k)
    decreases |leads|
  {
    var first := Step(store, leads[0], replies[0]);
    StepKeys(store, leads[0], replies[0]);
    var rest := Reconcile(first.store, leads[1..], replies[1..]);
    var b := Reconcile(store, leads, replies);
    if k in first.store.Keys {
      assert b.results[0].Inserted? && leads[0].org_number == k;
    } else {
      AddedKeyWasInserted(first.store, leads[1..], replies[1..], k);
      var j :| 0 <= j < |leads| - 1 && rest.results[j].Inserted? && leads[1..][j].org_number == k;
      assert b.results[j + 1] == rest.results[j] && leads[j + 1] == leads[1..][j];
    }
  }

  /** The key of every lead tagged `inserted` is one reconciliation adds. */
  lemma {:induction false} InsertedKeyWasAdded(store: map<string, Lead>, leads: seq<Lead>, replies: seq<StoreReply>, k: string)
    requires |replies| == |leads| && KeyedByOrgNumber(store)
    requires InsertedFor(Reconcile(store, leads, replies).results, leads, k)
    ensures k in Reconcile(store, leads, replies).store.Keys - store.Keys
    decreases |leads|
  {
    var first := Step(store, leads[0], replies[0]);
    StepKeys(store, leads[0], replies[0]);
    ReconcileKeepsKeys(first.store, leads[1..], replies[1..]);
    var rest := Reconcile(first.store, leads[1..], replies[1..]);
    var b := Reconcile(store, leads, replies);
    var i :| 0 <= i < |leads| && b.results[i].Inserted? && leads[i].org_number == k;
    if i > 0 {
      assert rest.results[i - 1] == b.results[i] && leads[1..][i - 1] == leads[i];
      InsertedKeyWasAdded(first.store, leads[1..], replies[1..], k);
    } else {
      assert first.results[0] == b.results[0];
    }
  }

  /** The keys reconciliation adds are exactly the business keys of the leads tagged `inserted`. */
  lemma ReconcileAddsInsertedKeys(store: map<string, Lead>, leads: seq<Lead>, replies: seq<StoreReply>, k: string)
    requires |replies| == |leads| && KeyedByOrgNumber(store)
    ensures k in Reconcile(store, leads, replies).store.Keys - store.Keys <==>
      InsertedFor(Reconcile(store, leads, replies).results, leads, k)
  {
    if k in Reconcile(store, leads, replies).store.Keys - store.Keys {
      AddedKeyWasInserted(store, leads, replies, k);
    }
    if InsertedFor(Reconcile(store, leads, replies).results, leads, k) {
      InsertedKeyWasAdded(store, leads, replies, k);
    }
  }

  /** With a stored record under its key and no failing call, a step updates and adds no key. */
  lemma StepUpdates(store: map<string, Lead>, lead: Lead, reply: StoreReply)
    requires lead.org_number in store && !reply.lookupFails && !reply.writeFails
    ensures Step(store, lead, reply).results[0].Updated? && Step(store, lead, reply).store.Keys == store.Keys
  {
  }

  /** When every lead already has a stored record and every call succeeds, nothing is inserted:
      each lead is an update and no key is added. */
  lemma {:induction false} UpdatesAddNoRows(store: map<string, Lead>, leads: seq<Lead>, replies: seq<StoreReply>)
    requires |replies| == |leads| && KeyedByOrgNumber(store)
    requires forall i :: 0 <= i < |leads| ==> leads[i].org_number in store
    requires forall i :: 0 <= i < |replies| ==> !replies[i].lookupFails && !replies[i].writeFails
    ensures var b := Reconcile(store, leads, replies);
      b.store.Keys == store.Keys && forall i :: 0 <= i < |leads| ==> b.results[i].Updated?
    decreases |leads|
  {
    if leads != [] {
      var first := Step(store, leads[0], replies[0]);
      StepUpdates(store, leads[0], replies[0]);
      forall i | 0 <= i < |leads| - 1 ensures leads[1..][i].org_number in first.store {
        assert leads[1..][i] == leads[i + 1];
      }
      forall i | 0 <= i < |leads| - 1 ensures !replies[1..][i].lookupFails && !replies[1..][i].writeFails {
        assert replies[1..][i] == replies[i + 1];
      }
      UpdatesAddNoRows(first.store, leads[1..], replies[1..]);
      var rest := Reconcile(first.store, leads[1..], replies[1..]);
      var b := Reconcile(store, leads, replies);
      assert b.results == first.results + rest.results;
      forall i | 0 <= i < |leads| ensures b.results[i].Updated? {
        if i > 0 { assert b.results[i] == rest.results[i - 1]; }
      }
    }
  }

  /** A reply in which every store call succeeds. */
  predicate Succeeds(reply: StoreReply) {
    !reply.lookupFails && !reply.writeFails
  }

  /**
    * Importing a new lead twice in one batch: the first is inserted, the second
    * finds the inserted record and is an update, and the stored record after the
    * second is the one the first stored (re-applying identical data does not drift).
    */
  lemma ReimportIsStable(store: map<string, Lead>, lead: Lead, r1: StoreReply, r2: StoreReply)
    requires lead.org_number !in store && Succeeds(r1) && Succeeds(r2)
    ensures var b := Reconcile(store, [lead, lead], [r1, r2]);
      var once := Reconcile(store, [lead], [r1]);
      b.results[0].Inserted? && b.results[1].Updated? && b.store == once.store
  {
    var record := Assigned(lead, r1.newId);
    var s1 := store[lead.org_number := record];
    assert Step(store, lead, r1) == Batch(s1, [Inserted(record)]);
    FillForwardAbsorbed(record, lead);
    assert s1[lead.org_number := record] == s1;
    assert Step(s1, lead, r2) == Batch(s1, [Updated(record)]);
    assert [lead, lead][1..] == [lead] && [r1, r2][1..] == [r2];
    assert [lead][1..] == [] && [r1][1..] == [] && [r2][1..] == [];
    assert Reconcile(s1, [lead], [r2]) == Batch(s1, [Updated(record)]);
    assert Reconcile(store, [lead], [r1]) == Batch(s1, [Inserted(record)]);
  }

  /**
    * Each lookup precedes its write, so a later lead of the same batch whose key
    * an earlier lead just inserted is merged into that record and tagged `updated`.
    */
  lemma LaterDuplicateIsUpdate(store: map<string, Lead>, a: Lead, b: Lead, r1: StoreReply, r2: StoreReply)
    requires a.org_number == b.org_number && a.org_number !in store && Succeeds(r1) && Succeeds(r2)
    ensures var batch := Reconcile(store, [a, b], [r1, r2]);
      && batch.results == [Inserted(Assigned(a, r1.newId)), Updated(FillForward(Assigned(a, r1.newId), b))]
      && batch.store == store[a.org_number := FillForward(Assigned(a, r1.newId), b)]
  {
    var s1 := store[a.org_number := Assigned(a, r1.newId)];
    assert Step(store, a, r1) == Batch(s1, [Inserted(Assigned(a, r1.newId))]);
    assert [a, b][1..] == [b] && [r1, r2][1..] == [r2] && [b][1..] == [] && [r2][1..] == [];
    var merged := FillForward(Assigned(a, r1.newId), b);
    assert Step(s1, b, r2) == Batch(s1[a.org_number := merged], [Updated(merged)]);
    assert Reconcile(s1, [b], [r2]) == Batch(s1[a.org_number := merged], [Updated(merged)]);
    assert s1[a.org_number := FillForward(Assigned(a, r1.newId), b)] == store[a.org_number := FillForward(Assigned(a, r1.newId), b)];
  }

  /** A lookup that fails falls through to the insert, which the unique key then rejects. */
  lemma FailedLookupOfStoredKey(store: map<string, Lead>, lead: Lead, reply: StoreReply)
    requires reply.lookupFails && lead.org_number in store
    ensures Step(store, lead, reply) == Batch(store, [Failed(lead)])
  {
  }

  /** A failed lookup of a new key still inserts the lead. */
  lemma FailedLookupOfNewKey(store: map<string, Lead>, lead: Lead, reply: StoreReply)
    requires reply.lookupFails && !reply.writeFails && lead.org_number !in store
    ensures Step(store, lead, reply).results == [Inserted(Assigned(lead, reply.newId))]
  {
  }

  /** The store, with lookup, update and insert calls whose failure the caller's reply decides. */
  class LeadStore {
    var records: map<string, Lead>

    ghost predicate Valid()
      reads this
    {
      KeyedByOrgNumber(records)
    }

    constructor (initial: map<string, Lead>)
      requires KeyedByOrgNumber(initial)
      ensures Valid() && records == initial
    {
      records := initial;
    }

    /** `select ... eq('org_number', key).maybeSingle()`; a failed lookup yields no data. */
    method FindByOrgNumber(key: string, fails: bool) returns (found: Option<Lead>)
      requires Valid()
      ensures found.Some? <==> !fails && key in records
      ensures found.Some? ==> found.value == records[key] && found.value.org_number == key
    {
      if !fails && key in records {
        found := Some(records[key]);
      } else {
        found := None;
      }
    }

    /** `update(record).eq('id', existing.id)`: overwrites the stored record the lookup returned. */
    method Update(key: string, record: Lead, fails: bool) returns (saved: Option<Lead>)
      requires Valid() && key in records && record.org_number == key
      modifies this
      ensures Valid()
      ensures saved == if fails then None else Some(record)
      ensures records == if fails then old(records) else old(records)[key := record]
    {
      if fails {
        saved := None;
      } else {
        records := records[key := record];
        saved := Some(record);
      }
    }

    /** `insert([lead])`: rejected when the call fails or the business key is already stored. */
    method Insert(lead: Lead, newId: string, fails: bool) returns (saved: Option<Lead>)
      requires Valid()
      modifies this
      ensures Valid()
      ensures saved == if fails || lead.org_number in old(records) then None else Some(Assigned(lead, newId))
      ensures records == if saved.None? then old(records) else old(records)[lead.org_number := saved.value]
    {
      if fails || lead.org_number in records {
        saved := None;
      } else {
        var record := Assigned(lead, newId);
        records := records[lead.org_number := record];
        saved := Some(record);
      }
    }
  }

  /** `updatedLead = { ...existing }` followed by the `Object.keys(lead).forEach` copy of provided keys. */
  method MergeFields(existing: Lead, lead: Lead) returns (merged: Lead)
    ensures merged == FillForward(existing, lead)
  {
    merged := existing;
    for i := 0 to |AllFields|
      invariant forall f :: Get(merged, f) == (if f in AllFields[..i] && Provided(Get(lead, f)) then Get(lead, f) else Get(existing, f))
    {
      var f := AllFields[i];
      var v := Get(lead, f);
      if Provided(v) {
        merged := Set(merged, f, v);
      }
      assert AllFields[..i + 1] == AllFields[..i] + [f];
    }
    forall f ensures f in AllFields[..|AllFields|] {
      AllFieldsComplete(f);
    }
    GetDetermines(merged, FillForward(existing, lead));
  }

  /** One pass of the loop body: the lookup, then the update or the insert, and the tagged result. */
  method UpsertOne(store: LeadStore, lead: Lead, reply: StoreReply) returns (outcome: UpsertResult)
    requires store.Valid()
    modifies store
    ensures store.Valid()
    ensures Batch(store.records, [outcome]) == Step(old(store.records), lead, reply)
  {
    var found := store.FindByOrgNumber(lead.org_number, reply.lookupFails);
    if found.Some? {
      var merged := MergeFields(found.value, lead);
      var saved := store.Update(lead.org_number, merged, reply.writeFails);
      outcome := if saved.Some? then Updated(saved.value) else Failed(lead);
    } else {
      var saved := store.Insert(lead, reply.newId, reply.writeFails);
      outcome := if saved.Some? then Inserted(saved.value) else Failed(lead);
    }
  }

  /** Reconciling from position `i` is the step for lead `i` followed by reconciling from `i + 1`. */
  lemma ReconcileFrom(store: map<string, Lead>, leads: seq<Lead>, replies: seq<StoreReply>, i: nat)
    requires |replies| == |leads| && i < |leads|
    ensures var first := Step(store, leads[i], replies[i]);
      var rest := Reconcile(first.store, leads[i + 1..], replies[i + 1..]);
      Reconcile(store, leads[i..], replies[i..]) == Batch(rest.store, first.results + rest.results)
  {
    assert leads[i..][1..] == leads[i + 1..] && replies[i..][1..] == replies[i + 1..];
  }

  /** The `for (const lead of leads)` loop of `useUpsertLeads`: one result per lead, in order. */
  method UpsertLeads(store: LeadStore, leads: seq<Lead>, replies: seq<StoreReply>)
    returns (results: seq<UpsertResult>)
    requires store.Valid() && |replies| == |leads|
    modifies store
    ensures store.Valid()
    ensures Batch(store.records, results) == Reconcile(old(store.records), leads, replies)
  {
    results := [];
    for i := 0 to |leads|
      invariant store.Valid()
      invariant Reconcile(old(store.records), leads, replies) ==
        var rest := Reconcile(store.records, leads[i..], replies[i..]);
        Batch(rest.store, results + rest.results)
    {
      ghost var before := store.records;
      ReconcileFrom(before, leads, replies, i);
      var outcome := UpsertOne(store, leads[i], replies[i]);
      ghost var rest := Reconcile(store.records, leads[i + 1..], replies[i + 1..]);
      assert results + [outcome] + rest.results == results + ([outcome] + rest.results);
      results := results + [outcome];
    }
    assert leads[|leads|..] == [] && replies[|leads|..] == [];
  }

  /** The toast's three counts. */
  datatype Tally = Tally(inserted: nat, updated: nat, errors: nat)

  predicate IsInserted(r: UpsertResult) { r.Inserted? }
  predicate IsUpdated(r: UpsertResult) { r.Updated? }
  predicate IsError(r: UpsertResult) { r.Failed? }

  /** The three `results.filter(r => r.type === ...).length` counts; every result falls in exactly one. */
  function TallyOf(results: seq<UpsertResult>): (t: Tally)
    ensures t.inserted + t.updated + t.errors == |results|
    ensures t.inserted == Count(results, IsInserted) && t.updated == Count(results, IsUpdated)
    ensures t.errors == Count(results, IsError)
  {
    FilterLength(results, IsInserted);
    FilterLength(results, IsUpdated);
    FilterLength(results, IsError);
    TagsPartition(results);
    Tally(|Filter(results, IsInserted)|, |Filter(results, IsUpdated)|, |Filter(results, IsError)|)
  }

  lemma {:induction false} TagsPartition(results: seq<UpsertResult>)
    ensures Count(results, IsInserted) + Count(results, IsUpdated) + Count(results, IsError) == |results|
    decreases |results|
  {
    if results != [] { TagsPartition(results[1..]); }
  }

  predicate EndsWith(s: string, suffix: string) {
    |suffix| <= |s| && s[|s| - |suffix|..] == suffix
  }

  /** The import toast: `<n> new leads, <m> updated leads`, followed by `, <k> errors` only when there are errors. */
  function Summary(results: seq<UpsertResult>): (text: string)
    ensures EndsWith(text, " errors") <==> TallyOf(results).errors > 0
    ensures EndsWith(text, " updated leads") <==> TallyOf(results).errors == 0
    ensures NatToString(TallyOf(results).inserted) + " new leads, " +
      NatToString(TallyOf(results).updated) + " updated leads" <= text
    ensures TallyOf(results).errors > 0 ==>
      EndsWith(text, ", " + NatToString(TallyOf(results).errors) + " errors")
  {
    var t := TallyOf(results);
    var head := NatToString(t.inserted) + " new leads, " + NatToString(t.updated) + " updated leads";
    var text := if t.errors > 0 then head + ", " + NatToString(t.errors) + " errors" else head;
    EndsWithConcat(NatToString(t.inserted) + " new leads, " + NatToString(t.updated), " updated leads");
    EndsWithConcat(head + ", " + NatToString(t.errors), " errors");
    NotBothSuffixes(text);
    text
  }

  lemma EndsWithConcat(s: string, suffix: string)
    ensures EndsWith(s + suffix, suffix)
  {
    assert (s + suffix)[|s|..] == suffix;
  }

  lemma NotBothSuffixes(s: string)
    ensures EndsWith(s, " errors") ==> !EndsWith(s, " updated leads")
  {
    if EndsWith(s, " errors") {
      assert s[|s| - 2] == " errors"[5] == 'r';
      if |s| >= 14 {
        assert s[|s| - 14..][12] == s[|s| - 2];
      }
    }
  }
}
