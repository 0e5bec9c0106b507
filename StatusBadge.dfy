/**
  * The status pill of `src/components/ui/status-badge.tsx`: the status is
  * lower-cased and looked up in a fixed table of ten names (five English and
  * Norwegian pairs), falling back to a grey class; the text shown is the
  * status as given.
  */
module StatusBadge {
  import opened Base
  import opened Text

  /** `statusMap`. */
  const StatusMap: map<string, string> := map[
    "new" := "status-badge-new",
    "ny" := "status-badge-new",
    "contacted" := "status-badge-contacted",
    "kontaktet" := "status-badge-contacted",
    "qualified" := "status-badge-qualified",
    "kvalifisert" := "status-badge-qualified",
    "proposal" := "status-badge-proposal",
    "tilbud" := "status-badge-proposal",
    "closed" := "status-badge-closed",
    "avsluttet" := "status-badge-closed"
  ]

  const FallbackClass := "bg-gray-500"

  /** The English and Norwegian name of each mapped status. */
  const StatusPairs: seq<(string, string)> := [
    ("new", "ny"), ("contacted", "kontaktet"), ("qualified", "kvalifisert"),
    ("proposal", "tilbud"), ("closed", "avsluttet")
  ]

  /** `statusClass`: the class of the lower-cased status, or the fallback. */
  function StatusClass(status: string): (cls: string)
    ensures ToLower(status) in StatusMap ==> cls == StatusMap[ToLower(status)]
    ensures ToLower(status) !in StatusMap ==> cls == FallbackClass
    ensures cls != ""
  {
    var key := ToLower(status);
    if key in StatusMap then StatusMap[key] else FallbackClass
  }

  /** The rendered badge: its CSS classes in order and its text. */
  datatype Badge = Badge(classes: seq<string>, text: string)

  /** `StatusBadge`: the base class, the status class, and the caller's class when it is non-empty. */
  function RenderBadge(status: string, className: Option<string>): (b: Badge)
    ensures b.text == status
    ensures |b.classes| >= 2 && b.classes[0] == "status-badge" && b.classes[1] == StatusClass(status)
    ensures |b.classes| == 3 <==> className.Some? && className.value != ""
    ensures |b.classes| == 3 ==> b.classes[2] == className.value
  {
    var extra := if className.Some? && className.value != "" then [className.value] else [];
    Badge(["status-badge", StatusClass(status)] + extra, status)
  }

  /** The lookup ignores case: a status and its lower-cased form get the same class. */
  lemma StatusClassIgnoresCase(status: string)
    ensures StatusClass(ToLower(status)) == StatusClass(status)
  {
    ToLowerIdempotent(status);
  }

  /** The two names of each pair get the same class, and different pairs get different classes. */
  lemma PairsShareClass(i: nat, j: nat)
    requires i < |StatusPairs| && j < |StatusPairs|
    ensures StatusPairs[i].0 in StatusMap && StatusPairs[i].1 in StatusMap
    ensures StatusMap[StatusPairs[i].0] == StatusMap[StatusPairs[i].1]
    ensures i != j ==> StatusMap[StatusPairs[i].0] != StatusMap[StatusPairs[j].0]
  {
  }

  /** Every key of the table is one of the pair names. */
  lemma TableIsThePairs(key: string)
    requires key in StatusMap
    ensures exists i :: 0 <= i < |StatusPairs| && (key == StatusPairs[i].0 || key == StatusPairs[i].1)
  {
    assert StatusMap.Keys == {"new", "ny", "contacted", "kontaktet", "qualified", "kvalifisert",
                              "proposal", "tilbud", "closed", "avsluttet"};
    var i := if key in {"new", "ny"} then 0 else if key in {"contacted", "kontaktet"} then 1
      else if key in {"qualified", "kvalifisert"} then 2 else if key in {"proposal", "tilbud"} then 3 else 4;
    assert key == StatusPairs[i].0 || key == StatusPairs[i].1;
  }

  predicate HasNoUpperCase(s: string) {
    forall k :: 0 <= k < |s| ==> !('A' <= s[k] <= 'Z')
  }

  lemma LowerCaseFixed(s: string)
    requires HasNoUpperCase(s)
    ensures ToLower(s) == s
  {
    assert forall k :: 0 <= k < |s| ==> ToLower(s)[k] == s[k];
  }

  /** Every key of the table is written in lower case, so each is reached by its own spelling. */
  lemma KeysReachable(key: string)
    requires key in StatusMap
    ensures StatusClass(key) == StatusMap[key]
  {
    assert HasNoUpperCase(key) by {
      assert StatusMap.Keys == {"new", "ny", "contacted", "kontaktet", "qualified", "kvalifisert",
                                "proposal", "tilbud", "closed", "avsluttet"};
    }
    LowerCaseFixed(key);
  }

  /** The grey fallback is used exactly for statuses outside the table, whatever their case. */
  lemma FallbackIffUnmapped(status: string)
    ensures StatusClass(status) == FallbackClass <==> ToLower(status) !in StatusMap
  {
  }
}
