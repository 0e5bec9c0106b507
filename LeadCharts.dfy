/**
  * The chart series of `src/hooks/useLeadCharts.ts`: leads per source and per
  * status, kWp per status, and the PPA price series ordered by date.
  *
  * A JavaScript object used as an accumulator is an ordered dictionary: its
  * entries come out in the order their keys were first written. It is
  * modelled as a key list in that order plus a map.
  */
module LeadCharts {
  import opened Base
  import opened Seqs
  import opened Leads

  const SourcePalette: seq<string> := ["#4263eb", "#20c997", "#f59f00", "#da77f2", "#fa5252"]
  const StatusPalette: seq<string> := ["#4263eb", "#f59f00", "#9775fa", "#da77f2", "#20c997"]
  const KwpPalette: seq<string> := ["#4263eb", "#f59f00", "#9775fa", "#da77f2", "#20c997"]

  /** `lead.source || 'Unknown'`. */
  function SourceKey(l: Lead): string {
    if l.source == "" then "Unknown" else l.source
  }

  /** `lead.status || 'Unknown'`. */
  function StatusKey(l: Lead): string {
    if l.status == "" then "Unknown" else l.status
  }

  /** The distinct keys of `ls`, in the order they first occur. */
  function FirstSeen(ls: seq<Lead>, key: Lead -> string): seq<string>
    decreases |ls|
  {
    if ls == [] then []
    else
      var ks := FirstSeen(ls[..|ls| - 1], key);
      var k := key(ls[|ls| - 1]);
      if k in ks then ks else ks + [k]
  }

  /** The keys in first-seen order are distinct. */
  lemma {:induction false} FirstSeenDistinct(ls: seq<Lead>, key: Lead -> string)
    ensures forall i, j :: 0 <= i < j < |FirstSeen(ls, key)| ==> FirstSeen(ls, key)[i] != FirstSeen(ls, key)[j]
    decreases |ls|
  {
    if ls != [] {
      var ks := FirstSeen(ls[..|ls| - 1], key);
      FirstSeenDistinct(ls[..|ls| - 1], key);
      var k := key(ls[|ls| - 1]);
      if k !in ks {
        var ks' := ks + [k];
        forall i, j | 0 <= i < j < |ks'| ensures ks'[i] != ks'[j] {
          if j == |ks| { assert ks'[i] == ks[i]; }
        }
      }
    }
  }

  /** Every lead's key is among the keys. */
  lemma {:induction false} FirstSeenCovers(ls: seq<Lead>, key: Lead -> string)
    ensures forall i :: 0 <= i < |ls| ==> key(ls[i]) in FirstSeen(ls, key)
    decreases |ls|
  {
    if ls != [] {
      var init := ls[..|ls| - 1];
      FirstSeenCovers(init, key);
      assert forall i :: 0 <= i < |init| ==> init[i] == ls[i];
    }
  }

  /** Some lead of `ls` has key `k`. */
  predicate KeyOfSome(ls: seq<Lead>, key: Lead -> string, k: string) {
    exists i :: 0 <= i < |ls| && key(ls[i]) == k
  }

  /** Every key is the key of some lead. */
  lemma {:induction false} FirstSeenFromLeads(ls: seq<Lead>, key: Lead -> string)
    ensures forall j :: 0 <= j < |FirstSeen(ls, key)| ==> KeyOfSome(ls, key, FirstSeen(ls, key)[j])
    decreases |ls|
  {
    if ls != [] {
      var init := ls[..|ls| - 1];
      FirstSeenFromLeads(init, key);
      var ks := FirstSeen(init, key);
      var ks' := FirstSeen(ls, key);
      forall j | 0 <= j < |ks'| ensures KeyOfSome(ls, key, ks'[j]) {
        if j < |ks| {
          assert ks'[j] == ks[j];
          assert KeyOfSome(init, key, ks[j]);
          var i :| 0 <= i < |init| && key(init[i]) == ks[j];
          assert init[i] == ls[i];
          assert key(ls[i]) == ks'[j];
        } else {
          assert key(ls[|ls| - 1]) == ks'[j];
        }
      }
    }
  }

  /** A key not yet seen has count zero. */
  lemma {:induction false} KeyCountUnseen(ls: seq<Lead>, key: Lead -> string, k: string)
    requires k !in FirstSeen(ls, key)
    ensures KeyCount(ls, key, k) == 0
  {
    FirstSeenCovers(ls, key);
    KeyCountAbsent(ls, key, k);
  }

  /** The number of leads of `ls` whose key is `k`. */
  function KeyCount(ls: seq<Lead>, key: Lead -> string, k: string): nat
    decreases |ls|
  {
    if ls == [] then 0
    else KeyCount(ls[..|ls| - 1], key, k) + (if key(ls[|ls| - 1]) == k then 1 else 0)
  }

  /** One slice of a pie chart. */
  datatype Group = Group(name: string, value: nat, color: string)

  /** The series of a count chart: one group per distinct key in first-seen order, coloured cyclically. */
  function HistogramOf(ls: seq<Lead>, key: Lead -> string, palette: seq<string>): (gs: seq<Group>)
    requires |palette| == 5
    ensures |gs| == |FirstSeen(ls, key)|
    ensures forall i :: 0 <= i < |gs| ==> gs[i].color == palette[i % 5]
    ensures forall i :: 0 <= i < |gs| ==> gs[i].name == FirstSeen(ls, key)[i]
    ensures forall i :: 0 <= i < |gs| ==> gs[i].value == KeyCount(ls, key, gs[i].name)
  {
    var ks := FirstSeen(ls, key);
    seq(|ks|, i requires 0 <= i < |ks| => Group(ks[i], KeyCount(ls, key, ks[i]), palette[i % 5]))
  }

  /** One `reduce` into a counting accumulator: `acc[k] = (acc[k] || 0) + 1`. */
  method CountBy(leads: seq<Lead>, key: Lead -> string) returns (keys: seq<string>, acc: map<string, nat>)
    ensures keys == FirstSeen(leads, key)
    ensures forall k :: k in acc <==> k in keys
    ensures forall k :: k in acc ==> acc[k] == KeyCount(leads, key, k)
  {
    keys, acc := [], map[];
    for i := 0 to |leads|
      invariant keys == FirstSeen(leads[..i], key)
      invariant forall k :: k in acc <==> k in keys
      invariant forall k :: k in acc ==> acc[k] == KeyCount(leads[..i], key, k)
    {
      var k := key(leads[i]);
      assert leads[..i + 1][..i] == leads[..i];
      var prior := if k in acc then acc[k] else 0;
      if k !in acc {
        keys := keys + [k];
        KeyCountUnseen(leads[..i], key, k);
      }
      acc := acc[k := prior + 1];
    }
    assert leads[..|leads|] == leads;
  }

  /** `Object.entries(acc).map(([name, value], index) => …)`. */
  method GroupsOf(keys: seq<string>, acc: map<string, nat>, palette: seq<string>) returns (gs: seq<Group>)
    requires |palette| == 5 && forall k :: k in keys ==> k in acc
    ensures |gs| == |keys|
    ensures forall i :: 0 <= i < |keys| ==> gs[i] == Group(keys[i], acc[keys[i]], palette[i % 5])
  {
    gs := [];
    for index := 0 to |keys|
      invariant |gs| == index
      invariant forall i :: 0 <= i < index ==> gs[i] == Group(keys[i], acc[keys[i]], palette[i % 5])
    {
      gs := gs + [Group(keys[index], acc[keys[index]], palette[index % 5])];
    }
  }

  /** `sourceData`; an undefined lead list gives `{}` and so no groups. */
  method SourceData(leads: Option<seq<Lead>>) returns (gs: seq<Group>)
    ensures gs == HistogramOf(leads.GetOr([]), SourceKey, SourcePalette)
    ensures leads.None? ==> gs == []
  {
    var keys, acc := CountBy(leads.GetOr([]), SourceKey);
    gs := GroupsOf(keys, acc, SourcePalette);
  }

  /** `statusData`; an undefined lead list gives no groups. */
  method StatusData(leads: Option<seq<Lead>>) returns (gs: seq<Group>)
    ensures gs == HistogramOf(leads.GetOr([]), StatusKey, StatusPalette)
    ensures leads.None? ==> gs == []
  {
    var keys, acc := CountBy(leads.GetOr([]), StatusKey);
    gs := GroupsOf(keys, acc, StatusPalette);
  }

  /** The sum of the counts of `ks`. */
  function SumCounts(ks: seq<string>, ls: seq<Lead>, key: Lead -> string): nat
    decreases |ks|
  {
    if ks == [] then 0 else KeyCount(ls, key, ks[0]) + SumCounts(ks[1..], ls, key)
  }

  function GroupTotal(gs: seq<Group>): nat
    decreases |gs|
  {
    if gs == [] then 0 else gs[0].value + GroupTotal(gs[1..])
  }

  /** A key that is the key of no lead has count zero. */
  lemma {:induction false} KeyCountAbsent(ls: seq<Lead>, key: Lead -> string, k: string)
    requires forall i :: 0 <= i < |ls| ==> key(ls[i]) != k
    ensures KeyCount(ls, key, k) == 0
    decreases |ls|
  {
    if ls != [] {
      var init := ls[..|ls| - 1];
      assert forall i :: 0 <= i < |init| ==> init[i] == ls[i];
      KeyCountAbsent(init, key, k);
    }
  }

  /** A key that is the key of some lead has count at least one. */
  lemma {:induction false} KeyCountPresent(ls: seq<Lead>, key: Lead -> string, i: nat)
    requires i < |ls|
    ensures KeyCount(ls, key, key(ls[i])) >= 1
    decreases |ls|
  {
    var init := ls[..|ls| - 1];
    if i < |ls| - 1 {
      assert init[i] == ls[i];
      KeyCountPresent(init, key, i);
    }
  }

  lemma {:induction false} SumCountsSnoc(ks: seq<string>, ls: seq<Lead>, x: Lead, key: Lead -> string)
    requires forall i, j :: 0 <= i < j < |ks| ==> ks[i] != ks[j]
    ensures SumCounts(ks, ls + [x], key) == SumCounts(ks, ls, key) + (if key(x) in ks then 1 else 0)
    decreases |ks|
  {
    assert (ls + [x])[..|ls|] == ls;
    if ks != [] {
      SumCountsSnoc(ks[1..], ls, x, key);
      assert key(x) in ks <==> key(x) == ks[0] || key(x) in ks[1..];
      if key(x) == ks[0] {
        assert key(x) !in ks[1..] by {
          forall j | 0 <= j < |ks[1..]| ensures ks[1..][j] != ks[0] { assert ks[1..][j] == ks[j + 1]; }
        }
      }
    }
  }

  lemma {:induction false} SumCountsAppendKey(ks: seq<string>, k: string, ls: seq<Lead>, key: Lead -> string)
    ensures SumCounts(ks + [k], ls, key) == SumCounts(ks, ls, key) + KeyCount(ls, key, k)
    decreases |ks|
  {
    if ks == [] {
      assert [k][1..] == [];
    } else {
      assert (ks + [k])[1..] == ks[1..] + [k];
      SumCountsAppendKey(ks[1..], k, ls, key);
    }
  }

  /** Every lead is counted exactly once: the counts of the distinct keys add up to the number of leads. */
  lemma {:induction false} CountsCoverLeads(ls: seq<Lead>, key: Lead -> string)
    ensures SumCounts(FirstSeen(ls, key), ls, key) == |ls|
    decreases |ls|
  {
    if ls != [] {
      var init := ls[..|ls| - 1];
      var x := ls[|ls| - 1];
      assert ls == init + [x];
      var ks := FirstSeen(init, key);
      FirstSeenDistinct(init, key);
      FirstSeenCovers(init, key);
      CountsCoverLeads(init, key);
      SumCountsSnoc(ks, init, x, key);
      if key(x) !in ks {
        SumCountsAppendKey(ks, key(x), ls, key);
        assert forall i :: 0 <= i < |init| ==> key(init[i]) != key(x);
        KeyCountAbsent(init, key, key(x));
      }
    }
  }

  lemma {:induction false} GroupTotalIsSum(gs: seq<Group>, ks: seq<string>, ls: seq<Lead>, key: Lead -> string)
    requires |gs| == |ks| && forall i :: 0 <= i < |gs| ==> gs[i].value == KeyCount(ls, key, ks[i])
    ensures GroupTotal(gs) == SumCounts(ks, ls, key)
    decreases |gs|
  {
    if gs != [] {
      GroupTotalIsSum(gs[1..], ks[1..], ls, key);
    }
  }

  /** The group values of a count chart add up to the number of leads. */
  lemma HistogramTotal(ls: seq<Lead>, key: Lead -> string, palette: seq<string>)
    requires |palette| == 5
    ensures GroupTotal(HistogramOf(ls, key, palette)) == |ls|
  {
    GroupTotalIsSum(HistogramOf(ls, key, palette), FirstSeen(ls, key), ls, key);
    CountsCoverLeads(ls, key);
  }

  /** Every lead's key has a group. */
  lemma HistogramCoversLeads(ls: seq<Lead>, key: Lead -> string, palette: seq<string>)
    requires |palette| == 5
    ensures var gs := HistogramOf(ls, key, palette);
      forall i :: 0 <= i < |ls| ==> exists j :: 0 <= j < |gs| && gs[j].name == key(ls[i])
  {
    var gs := HistogramOf(ls, key, palette);
    var ks := FirstSeen(ls, key);
    FirstSeenCovers(ls, key);
    forall i | 0 <= i < |ls| ensures exists j :: 0 <= j < |gs| && gs[j].name == key(ls[i]) {
      var j :| 0 <= j < |ks| && ks[j] == key(ls[i]);
      assert gs[j].name == key(ls[i]);
    }
  }

  /** Group names are distinct and every group counts at least one lead. */
  lemma HistogramGroupsDistinct(ls: seq<Lead>, key: Lead -> string, palette: seq<string>)
    requires |palette| == 5
    ensures var gs := HistogramOf(ls, key, palette);
      && (forall i, j :: 0 <= i < j < |gs| ==> gs[i].name != gs[j].name)
      && (forall j :: 0 <= j < |gs| ==> gs[j].value >= 1)
  {
    var gs := HistogramOf(ls, key, palette);
    var ks := FirstSeen(ls, key);
    FirstSeenDistinct(ls, key);
    FirstSeenFromLeads(ls, key);
    forall j | 0 <= j < |gs| ensures gs[j].value >= 1 {
      assert KeyOfSome(ls, key, ks[j]);
      var i :| 0 <= i < |ls| && key(ls[i]) == ks[j];
      KeyCountPresent(ls, key, i);
    }
  }

  /** A lead with an empty source is counted under 'Unknown'. */
  lemma EmptySourceIsUnknown(ls: seq<Lead>, i: nat)
    requires i < |ls| && ls[i].source == ""
    ensures exists j :: 0 <= j < |FirstSeen(ls, SourceKey)| && FirstSeen(ls, SourceKey)[j] == "Unknown"
    ensures KeyCount(ls, SourceKey, "Unknown") >= 1
  {
    KeyCountPresent(ls, SourceKey, i);
    FirstSeenCovers(ls, SourceKey);
    assert SourceKey(ls[i]) == "Unknown";
    assert SourceKey(ls[i]) in FirstSeen(ls, SourceKey);
  }

  /** `if (lead.kwp)`: only leads with a truthy kWp take part in the kWp chart. */
  predicate HasKwp(l: Lead) {
    TruthyNumber(l.kwp)
  }

  /** `Number(lead.kwp)` for a lead with a defined, finite kWp. */
  function KwpOf(l: Lead): real {
    if l.kwp.Some? && l.kwp.value.Finite? then l.kwp.value.value else 0.0
  }

  /** The sum of the kWp of the leads of `ls` with status key `k`. */
  function KwpSum(ls: seq<Lead>, k: string): real
    decreases |ls|
  {
    if ls == [] then 0.0
    else KwpSum(ls[..|ls| - 1], k) + (if StatusKey(ls[|ls| - 1]) == k then KwpOf(ls[|ls| - 1]) else 0.0)
  }

  /** One entry of the kWp accumulator, `{ total, count }`. */
  datatype KwpEntry = KwpEntry(total: real, count: nat)

  /** One bar of the kWp chart; the rounded average `total / count` is not modelled. */
  datatype KwpGroup = KwpGroup(name: string, total: real, count: nat, color: string)

  function KwpGroupsOf(ls: seq<Lead>): (gs: seq<KwpGroup>)
    ensures var kept := Filter(ls, HasKwp); var ks := FirstSeen(kept, StatusKey);
      && |gs| == |ks|
      && forall i :: 0 <= i < |gs| ==> gs[i] == KwpGroup(ks[i], KwpSum(kept, ks[i]), KeyCount(kept, StatusKey, ks[i]), KwpPalette[i % 5])
  {
    var kept := Filter(ls, HasKwp);
    var ks := FirstSeen(kept, StatusKey);
    seq(|ks|, i requires 0 <= i < |ks| =>
      KwpGroup(ks[i], KwpSum(kept, ks[i]), KeyCount(kept, StatusKey, ks[i]), KwpPalette[i % 5]))
  }

  lemma FilterSnoc(s: seq<Lead>, x: Lead, p: Lead -> bool)
    ensures Filter(s + [x], p) == Filter(s, p) + (if p(x) then [x] else [])
  {
    FilterAppend(s, [x], p);
    assert [x][1..] == [];
  }

  /** `keys` and `acc` are the kWp accumulator after the leads `kept`, all with a truthy kWp. */
  ghost predicate KwpAccumulates(kept: seq<Lead>, keys: seq<string>, acc: map<string, KwpEntry>) {
    && keys == FirstSeen(kept, StatusKey)
    && (forall k :: k in acc <==> k in keys)
    && (forall k :: k in acc ==> acc[k] == KwpEntry(KwpSum(kept, k), KeyCount(kept, StatusKey, k)))
  }

  /** One lead with a truthy kWp added to its status entry, which is created on first use. */
  method AddKwp(ghost kept: seq<Lead>, keys: seq<string>, acc: map<string, KwpEntry>, lead: Lead)
    returns (keys': seq<string>, acc': map<string, KwpEntry>)
    requires KwpAccumulates(kept, keys, acc)
    ensures KwpAccumulates(kept + [lead], keys', acc')
  {
    var status := StatusKey(lead);
    assert (kept + [lead])[..|kept|] == kept;
    keys', acc' := keys, acc;
    if status !in acc' {
      acc' := acc'[status := KwpEntry(0.0, 0)];
      keys' := keys' + [status];
      KeyCountUnseen(kept, StatusKey, status);
      KwpSumUnseen(kept, status);
    }
    acc' := acc'[status := KwpEntry(acc'[status].total + KwpOf(lead), acc'[status].count + 1)];
  }

  /** The `kwpByStatus` reduce: only leads with a truthy kWp reach the accumulator. */
  method KwpByStatus(leads: seq<Lead>) returns (keys: seq<string>, acc: map<string, KwpEntry>)
    ensures KwpAccumulates(Filter(leads, HasKwp), keys, acc)
  {
    keys, acc := [], map[];
    for i := 0 to |leads|
      invariant KwpAccumulates(Filter(leads[..i], HasKwp), keys, acc)
    {
      var lead := leads[i];
      assert leads[..i + 1] == leads[..i] + [lead];
      FilterSnoc(leads[..i], lead, HasKwp);
      if HasKwp(lead) {
        assert Filter(leads[..i + 1], HasKwp) == Filter(leads[..i], HasKwp) + [lead];
        keys, acc := AddKwp(Filter(leads[..i], HasKwp), keys, acc, lead);
      } else {
        assert Filter(leads[..i + 1], HasKwp) == Filter(leads[..i], HasKwp);
      }
    }
    assert leads[..|leads|] == leads;
  }

  lemma KwpSumUnseen(ls: seq<Lead>, k: string)
    requires k !in FirstSeen(ls, StatusKey)
    ensures KwpSum(ls, k) == 0.0
  {
    FirstSeenCovers(ls, StatusKey);
    KwpSumAbsent(ls, k);
  }

  lemma {:induction false} KwpSumAbsent(ls: seq<Lead>, k: string)
    requires forall i :: 0 <= i < |ls| ==> StatusKey(ls[i]) != k
    ensures KwpSum(ls, k) == 0.0
    decreases |ls|
  {
    if ls != [] {
      var init := ls[..|ls| - 1];
      assert forall i :: 0 <= i < |init| ==> init[i] == ls[i];
      KwpSumAbsent(init, k);
    }
  }

  /** `kwpData` without the average; an undefined lead list gives no bars. */
  method KwpData(leads: Option<seq<Lead>>) returns (gs: seq<KwpGroup>)
    ensures gs == KwpGroupsOf(leads.GetOr([]))
    ensures leads.None? ==> gs == []
  {
    var keys, acc := KwpByStatus(leads.GetOr([]));
    gs := [];
    for index := 0 to |keys|
      invariant |gs| == index
      invariant forall i :: 0 <= i < index ==>
        gs[i] == KwpGroup(keys[i], acc[keys[i]].total, acc[keys[i]].count, KwpPalette[i % 5])
    {
      gs := gs + [KwpGroup(keys[index], acc[keys[index]].total, acc[keys[index]].count, KwpPalette[index % 5])];
    }
  }

  /** Each kWp bar counts at least one contributing lead, and the counts add up to the number of contributors. */
  lemma KwpGroupsCountContributors(ls: seq<Lead>)
    ensures var gs := KwpGroupsOf(ls);
      && (forall j :: 0 <= j < |gs| ==> gs[j].count >= 1)
      && SumCounts(FirstSeen(Filter(ls, HasKwp), StatusKey), Filter(ls, HasKwp), StatusKey) == Count(ls, HasKwp)
  {
    var kept := Filter(ls, HasKwp);
    var ks := FirstSeen(kept, StatusKey);
    var gs := KwpGroupsOf(ls);
    FirstSeenFromLeads(kept, StatusKey);
    CountsCoverLeads(kept, StatusKey);
    FilterLength(ls, HasKwp);
    forall j | 0 <= j < |gs| ensures gs[j].count >= 1 {
      assert KeyOfSome(kept, StatusKey, ks[j]);
      var m :| 0 <= m < |kept| && StatusKey(kept[m]) == ks[j];
      KeyCountPresent(kept, StatusKey, m);
    }
  }

  /** Every kWp bar is the status of some lead with a truthy kWp. */
  lemma KwpGroupsOnlyFromContributors(ls: seq<Lead>)
    ensures var gs := KwpGroupsOf(ls);
      forall j :: 0 <= j < |gs| ==> exists i :: 0 <= i < |ls| && HasKwp(ls[i]) && StatusKey(ls[i]) == gs[j].name
  {
    var kept := Filter(ls, HasKwp);
    var ks := FirstSeen(kept, StatusKey);
    var gs := KwpGroupsOf(ls);
    FirstSeenFromLeads(kept, StatusKey);
    FilterSpec(ls, HasKwp);
    forall j | 0 <= j < |gs| ensures exists i :: 0 <= i < |ls| && HasKwp(ls[i]) && StatusKey(ls[i]) == gs[j].name {
      assert KeyOfSome(kept, StatusKey, ks[j]);
      var m :| 0 <= m < |kept| && StatusKey(kept[m]) == ks[j];
      assert kept[m] in ls && HasKwp(kept[m]);
      var i :| 0 <= i < |ls| && ls[i] == kept[m];
    }
  }

  /** Every lead with a truthy kWp has the bar of its status. */
  lemma KwpGroupsCoverContributors(ls: seq<Lead>)
    ensures var gs := KwpGroupsOf(ls);
      forall i :: 0 <= i < |ls| && HasKwp(ls[i]) ==> exists j :: 0 <= j < |gs| && gs[j].name == StatusKey(ls[i])
  {
    var kept := Filter(ls, HasKwp);
    var ks := FirstSeen(kept, StatusKey);
    var gs := KwpGroupsOf(ls);
    FirstSeenCovers(kept, StatusKey);
    FilterSpec(ls, HasKwp);
    forall i | 0 <= i < |ls| && HasKwp(ls[i]) ensures exists j :: 0 <= j < |gs| && gs[j].name == StatusKey(ls[i]) {
      var m :| 0 <= m < |kept| && kept[m] == ls[i];
      var j :| 0 <= j < |ks| && ks[j] == StatusKey(kept[m]);
      assert gs[j].name == StatusKey(ls[i]);
    }
  }

  /** One point of the PPA price line chart. */
  datatype PpaPoint = PpaPoint(date: string, price: JsNumber, company: string)

  /** `lead => lead.ppa_price`. */
  predicate HasPpaPrice(l: Lead) {
    TruthyNumber(l.ppa_price)
  }

  /** Ascending in `time` of the date. */
  predicate SortedByDate(s: seq<Lead>, time: string -> real) {
    forall i, j :: 0 <= i < j < |s| ==> time(s[i].date) <= time(s[j].date)
  }

  /** Places `x` before the first lead of `s` that is not earlier than it. */
  function Insert(x: Lead, s: seq<Lead>, time: string -> real): (r: seq<Lead>)
    requires SortedByDate(s, time)
    ensures |r| == |s| + 1
    ensures r[0] == x || (s != [] && r[0] == s[0])
    ensures SortedByDate(r, time)
    decreases |s|
  {
    if s == [] then [x]
    else if time(x.date) <= time(s[0].date) then [x] + s
    else
      var rest := Insert(x, s[1..], time);
      assert time(s[0].date) <= time(rest[0].date);
      [s[0]] + rest
  }

  /** Insertion adds exactly `x`. */
  lemma {:induction false} InsertPermutes(x: Lead, s: seq<Lead>, time: string -> real)
    requires SortedByDate(s, time)
    ensures multiset(Insert(x, s, time)) == multiset(s) + multiset{x}
    decreases |s|
  {
    if s != [] && time(x.date) > time(s[0].date) {
      InsertPermutes(x, s[1..], time);
      assert s == [s[0]] + s[1..];
    }
  }

  /** The `sort` by ascending date of the filtered leads; leads with equal dates keep their input order. */
  function SortByDate(s: seq<Lead>, time: string -> real): (r: seq<Lead>)
    ensures |r| == |s|
    ensures SortedByDate(r, time)
    decreases |s|
  {
    if s == [] then [] else Insert(s[0], SortByDate(s[1..], time), time)
  }

  /** Sorting reorders the leads without adding or dropping any. */
  lemma {:induction false} SortPermutes(s: seq<Lead>, time: string -> real)
    ensures multiset(SortByDate(s, time)) == multiset(s)
    decreases |s|
  {
    if s != [] {
      var t := SortByDate(s[1..], time);
      SortPermutes(s[1..], time);
      InsertPermutes(s[0], t, time);
      assert SortByDate(s, time) == Insert(s[0], t, time);
      assert s == [s[0]] + s[1..];
      assert multiset(s) == multiset{s[0]} + multiset(s[1..]);
    }
  }

  /** `Number(lead.ppa_price)` for a lead whose price is defined. */
  function PriceOf(l: Lead): JsNumber {
    l.ppa_price.GetOr(Finite(0.0))
  }

  /**
    * `ppaData`: the leads with a truthy PPA price, by ascending date, as chart
    * points. `time` is the timestamp of a date string and `showDate` its
    * Norwegian rendering.
    */
  function PpaData(leads: Option<seq<Lead>>, time: string -> real, showDate: string -> string): (ps: seq<PpaPoint>)
    ensures leads.None? ==> ps == []
  {
    match leads
    case None => []
    case Some(ls) =>
      var sorted := SortByDate(Filter(ls, HasPpaPrice), time);
      seq(|sorted|, i requires 0 <= i < |sorted| =>
        PpaPoint(showDate(sorted[i].date), PriceOf(sorted[i]), sorted[i].company))
  }

  /**
    * The PPA series holds exactly the leads with a truthy price, each once, in
    * ascending date order.
    */
  lemma PpaDataOrdered(ls: seq<Lead>, time: string -> real, showDate: string -> string)
    ensures var sorted := SortByDate(Filter(ls, HasPpaPrice), time);
      && SortedByDate(sorted, time)
      && multiset(sorted) == multiset(Filter(ls, HasPpaPrice))
      && |sorted| == Count(ls, HasPpaPrice)
      && (forall i :: 0 <= i < |sorted| ==> HasPpaPrice(sorted[i]))
      && PpaData(Some(ls), time, showDate) ==
           seq(|sorted|, i requires 0 <= i < |sorted| =>
             PpaPoint(showDate(sorted[i].date), PriceOf(sorted[i]), sorted[i].company))
  {
    var kept := Filter(ls, HasPpaPrice);
    var sorted := SortByDate(kept, time);
    FilterLength(ls, HasPpaPrice);
    FilterSpec(ls, HasPpaPrice);
    SortPermutes(kept, time);
    forall i | 0 <= i < |sorted| ensures HasPpaPrice(sorted[i]) {
      assert sorted[i] in multiset(sorted);
      assert sorted[i] in multiset(kept);
    }
  }

  /** The four series the chart query resolves with. */
  datatype ChartData = ChartData(
    sourceData: seq<Group>, statusData: seq<Group>, kwpData: seq<KwpGroup>, ppaData: seq<PpaPoint>)

  /** The chart query over a fetched lead list; an undefined list gives four empty series. */
  method LeadChartData(leads: Option<seq<Lead>>, time: string -> real, showDate: string -> string)
    returns (data: ChartData)
    ensures data.sourceData == HistogramOf(leads.GetOr([]), SourceKey, SourcePalette)
    ensures data.statusData == HistogramOf(leads.GetOr([]), StatusKey, StatusPalette)
    ensures data.kwpData == KwpGroupsOf(leads.GetOr([]))
    ensures data.ppaData == PpaData(leads, time, showDate)
    ensures leads.None? ==> data == ChartData([], [], [], [])
  {
    var sourceData := SourceData(leads);
    var statusData := StatusData(leads);
    var kwpData := KwpData(leads);
    data := ChartData(sourceData, statusData, kwpData, PpaData(leads, time, showDate));
  }
}
