/**
  * The import summary of `src/components/import/ProcessingResult.tsx`: a
  * success notice when some rows became leads, and an error notice listing at
  * most the first five row errors with a line counting the rest.
  */
module ProcessingResult {
  import opened Base
  import opened Text
  import opened Seqs
  import opened ExcelProcessor

  /** The error notice: its header, the errors listed, how many are only counted, and the closing line counting them. */
  datatype ErrorNotice = ErrorNotice(header: string, listed: seq<string>, hidden: Option<nat>, closing: Option<string>)

  /** What is rendered for a present result. */
  datatype Summary = Summary(success: Option<string>, errorNotice: Option<ErrorNotice>)

  const ListedErrors: nat := 5

  function SuccessText(valid: nat, totalRows: nat): string {
    "Found " + NatToString(valid) + " valid leads out of " + NatToString(totalRows) + " rows"
  }

  function HeaderText(errorCount: nat): string {
    NatToString(errorCount) + " errors found:"
  }

  /** The closing line of a list that leaves `hidden` errors out. */
  function OverflowText(hidden: nat): string {
    "... and " + NatToString(hidden) + " more errors"
  }

  function Min(a: nat, b: nat): nat {
    if a < b then a else b
  }

  /** The rendered summary; a missing result renders nothing. */
  function Render(result: Option<ImportResult>): (v: Option<Summary>)
    ensures result.None? <==> v.None?
    ensures v.Some? ==>
      (v.value.success.Some? <==> |result.value.validLeads| > 0)
    ensures v.Some? && v.value.success.Some? ==>
      v.value.success.value == SuccessText(|result.value.validLeads|, result.value.totalRows)
    ensures v.Some? ==>
      (v.value.errorNotice.Some? <==> |result.value.errors| > 0)
  {
    match result
    case None => None
    case Some(r) =>
      var n := |r.errors|;
      var success := if |r.validLeads| > 0 then Some(SuccessText(|r.validLeads|, r.totalRows)) else None;
      var notice :=
        if n > 0 then
          Some(ErrorNotice(HeaderText(n), r.errors[..Min(ListedErrors, n)],
                           if n > ListedErrors then Some(n - ListedErrors) else None,
                           if n > ListedErrors then Some(OverflowText(n - ListedErrors)) else None))
        else None;
      Some(Summary(success, notice))
  }

  /**
    * The error notice counts every error in its header, lists a prefix of the
    * errors in their original order, at most five of them, and either lists
    * them all or counts exactly the rest in its closing line.
    */
  lemma ErrorNoticeAccountsForAll(r: ImportResult)
    requires |r.errors| > 0
    ensures var e := Render(Some(r)).value.errorNotice.value;
      && e.header == HeaderText(|r.errors|)
      && e.listed <= r.errors
      && |e.listed| <= ListedErrors
      && (e.hidden.None? <==> e.listed == r.errors)
      && (e.hidden.Some? ==> |e.listed| == ListedErrors && |e.listed| + e.hidden.value == |r.errors|)
      && (e.closing.Some? <==> e.hidden.Some?)
      && (e.hidden.Some? ==> e.closing.value == OverflowText(e.hidden.value))
  {
  }

  /** The closing line appears exactly when there are more than five errors. */
  lemma OverflowIffMoreThanFive(r: ImportResult)
    requires |r.errors| > 0
    ensures Render(Some(r)).value.errorNotice.value.hidden.Some? <==> |r.errors| > ListedErrors
  {
  }

  /** The closing line is `... and <k> more errors`, and its `k` reads back as the number of errors not listed. */
  lemma OverflowCountReadsBack(r: ImportResult)
    requires |r.errors| > ListedErrors
    ensures var e := Render(Some(r)).value.errorNotice.value;
      && e.closing == Some("... and " + NatToString(e.hidden.value) + " more errors")
      && ParseDecimal(NatToString(e.hidden.value)) == |r.errors| - |e.listed|
  {
    NatToStringRoundTrip(|r.errors| - ListedErrors);
  }

  /**
    * A batch whose row outcomes (`RowOutcomes(rows, env)` for a sheet) are all
    * leads shows only the success notice, naming the row count twice.
    */
  lemma CleanImportShowsOnlySuccess(outs: seq<RowOutcome>)
    requires forall i :: 0 <= i < |outs| ==> outs[i].Valid?
    requires outs != []
    ensures Render(Some(Collect(outs))).value == Summary(Some(SuccessText(|outs|, |outs|)), None)
  {
    CollectCounts(outs);
    assert forall i :: 0 <= i < |outs| ==> IsValidOutcome(outs[i]) && !IsInvalidOutcome(outs[i]);
    FilterKeepsAll(outs, IsValidOutcome);
    FilterLength(outs, IsValidOutcome);
    FilterDropsAll(outs, IsInvalidOutcome);
    FilterLength(outs, IsInvalidOutcome);
  }
}
