# Lead import and pipeline model

This project is a Dafny model of the core of a lead-management web
application for a solar-energy sales team. The application imports sales
leads from spreadsheets, reconciles them with a lead store keyed by
organisation number, and shows them in a table, on a pipeline board and in
dashboard charts.

The model covers these parts:

- **Spreadsheet import** (`src/utils/excelProcessor.ts`).
  - Each logical column (company, org number, status, …) is resolved against
    a fixed list of header aliases. The first alias whose cell is present and
    not blank wins.
  - Each row is classified as skipped (no required field at all), invalid
    (some required field missing, or the date cannot be converted) or valid.
    A valid row is turned into a lead with defaults: source `Nettside`,
    seller `Unknown`, today's date.
  - The batch loop accumulates the valid leads, the row errors and the
    skipped-row count. Unreadable or undecodable files give a one-error result.
- **Upsert reconciliation** (`src/hooks/useLeads.ts`).
  - Each incoming lead is looked up by organisation number.
  - When a record is found, it is updated field by field with every key the
    lead provides (a key counts as provided when it is not
    null/undefined/empty).
  - Otherwise the lead is inserted.
  - Each lead gets its own tagged result: `inserted`, `updated` or `error`.
  - The store is a class over a map. Whether each store call fails is an
    input.
  - The same file's dashboard counts (`totalLeads`, `qualifiedLeads`) are
    also modelled.
- **Card notes** (`src/components/pipeline/NotesSection.tsx`): parsing the
  stored note list, and adding and removing notes.
- **Dashboard charts** (`src/hooks/useLeadCharts.ts`).
  - Counts per source and per status, in first-seen key order, with their
    colour palettes.
  - The kWp totals and counts per status, taken over the leads with a truthy
    kWp.
  - The PPA price points, ordered by date.
- **The lead search** (`src/components/leads/LeadTable.tsx`) and its
  empty-state messages.
- **The pipeline board columns** (`src/components/pipeline/PipelineBoard.tsx`).
- **The status badge lookup** (`src/components/ui/status-badge.tsx`).
- **The import summary** with its first-five truncation of errors
  (`src/components/import/ProcessingResult.tsx`).
- **The sign-in view state machine** (`src/pages/Auth.tsx`).
- **The pipeline card editor** (`src/components/pipeline/CardDialog.tsx`):
  form initialisation, submit mapping and the delete guard.

Shared modules:

- `Base`: `Option`, `Result`, and a JavaScript number that may be `NaN`.
- `Text`: ASCII trim, lower-casing, `includes`, `join` and decimal rendering.
- `Seqs`: `filter`, counting and subsequences.

How the imperative parts are modelled:

- Code that updates state step by step becomes methods with loops, proved
  against specification functions:
  - the alias search,
  - the batch loop,
  - the upsert loop with its key-by-key merge,
  - the chart accumulators,
  - the sign-in page,
  - the card dialog.
- These parts are abstracted as function parameters:
  - spreadsheet date conversion, which may fail;
  - `parseFloat`;
  - number-to-text rendering;
  - today's date;
  - JSON decoding;
  - the date-to-timestamp conversion used for sorting.

The design description of the system differs from the code in two places.
The model follows the code in both:

- The description says header resolution falls back to a case-insensitive
  substring match. `findColumnValue` (`src/utils/excelProcessor.ts:26-33`)
  only accepts exact keys.
- The description says a row with only one of company and org number can
  borrow the other's value. The code reports any missing required field as
  an error (`src/utils/excelProcessor.ts:61-72`).

## Model

| member | source | states |
|---|---|---|
| ExcelProcessor.BlankCellTrims | src/utils/excelProcessor.ts:28 | A text cell is blank for the resolver exactly when trimming it leaves the empty string |
| ExcelProcessor.ResolveFindsFirst | src/utils/excelProcessor.ts:26-33 | Column resolution yields nothing iff no alias has an own, non-null, non-blank cell; otherwise it yields the cell of the first such alias in alias order |
| ExcelProcessor.ResolveLocal | src/utils/excelProcessor.ts:26-33 | Two rows that agree on the alias keys resolve the column identically |
| ExcelProcessor.ResolveIgnoresOtherKeys | src/utils/excelProcessor.ts:26-33 | Adding or changing a header that is not an alias does not change the resolved value |
| ExcelProcessor.FindColumnValue | src/utils/excelProcessor.ts:26-33 | The alias loop with early return computes exactly the first-qualifying-alias resolution |
| ExcelProcessor.PresentIsTruthy | src/utils/excelProcessor.ts:40-50 | For a resolved value, `Boolean(v && String(v).trim())` coincides with plain truthiness |
| ExcelProcessor.SkippedIff | src/utils/excelProcessor.ts:35-41 | A row is skipped exactly when company, org number and status all resolve to nothing truthy |
| ExcelProcessor.ClassifyDependsOnRequired | src/utils/excelProcessor.ts:35-72 | Whether a row is skipped, and the error for an incomplete row, depend only on the three required columns |
| ExcelProcessor.ClassificationIgnoresOtherColumns | src/utils/excelProcessor.ts:35-72 | Rows that agree on the required columns' alias cells are equally skipped, and get the same error when incomplete |
| ExcelProcessor.MissingLabelsUnfold | src/utils/excelProcessor.ts:66-69 | The missing-field list holds, in fixed order, the label of each required field that is not present |
| ExcelProcessor.MissingFieldsReported | src/utils/excelProcessor.ts:61-72 | For the columns a row resolves to: an incomplete, non-empty row gives the error `Row <index+2>: Missing required fields: <labels joined by ', '>`; a label is listed iff its field is absent; the list is non-empty and in fixed order |
| ExcelProcessor.MissingLabelsExact | src/utils/excelProcessor.ts:61-69 | A required field's label is in the missing list exactly when the field is absent, and a row lacking a required field lists at least one label |
| ExcelProcessor.MissingSubsequence | src/utils/excelProcessor.ts:66-69 | The missing labels are an ordered selection from Company/Firmanavn, Org.nr, Status |
| ExcelProcessor.ValidLeadFields | src/utils/excelProcessor.ts:81-92 | For the columns a row resolves to: a valid row's lead has trimmed company/org number/status, source and seller with their defaults, contact/kWp/PPA undefined iff their cell is falsy, and is_existing_customer true iff the cell reads `ja` |
| ExcelProcessor.ValidCompanyNonEmpty | src/utils/excelProcessor.ts:48-50 | The company name of a valid row, text or number, is non-empty and already trimmed, given that a numeric company is not rendered blank |
| ExcelProcessor.MissingDateIsToday | src/utils/excelProcessor.ts:82 | A complete row without a truthy date becomes a lead dated today |
| ExcelProcessor.BadDateIsError | src/utils/excelProcessor.ts:82-97 | A complete row whose date cannot be converted gives `Row <index+2>: Error processing data - <detail>` |
| ExcelProcessor.MapExcelRowToLead | src/utils/excelProcessor.ts:53-98 | The method that resolves columns and pushes missing labels returns the specified outcome of the row |
| ExcelProcessor.MapColumns | src/utils/excelProcessor.ts:56-94 | From resolved columns: skip, missing-field error built by pushes, conversion error, or the lead |
| ExcelProcessor.CollectCounts | src/utils/excelProcessor.ts:116-138 | Valid, error and skipped counts are the numbers of rows with each outcome, and they sum to totalRows |
| ExcelProcessor.CollectSnoc | src/utils/excelProcessor.ts:123-130 | Each further row appends its lead or error, or counts one skipped row, and leaves the rest unchanged |
| ExcelProcessor.ProcessRows | src/utils/excelProcessor.ts:116-138 | The forEach loop computes the batch result; totalRows is the row count and the three counts add up to it |
| ExcelProcessor.ProcessExcelFile | src/utils/excelProcessor.ts:100-159 | A decoded sheet gives the batch result, whose leads, errors and skips add up to its row count; a read failure gives `Failed to read file`; a decode failure gives `Failed to process Excel file: <detail>`; both with zero counts |
| Leads.Set | src/hooks/useLeads.ts:125 | Writing one key of a lead gives that key the value and leaves every other key unchanged |
| Leads.FillForward | src/hooks/useLeads.ts:120-127 | In the merged record every key the incoming lead provides has the incoming value, and every other key keeps the stored value |
| Leads.FillForwardKeeps | src/hooks/useLeads.ts:122-126 | A key the incoming lead leaves null, undefined or empty keeps its stored value |
| Leads.FillForwardAbsorbed | src/hooks/useLeads.ts:120-127 | Merging into a record that already agrees with every provided key changes nothing |
| Leads.FillForwardIdempotent | src/hooks/useLeads.ts:120-127 | Merging the same lead twice equals merging once |
| Leads.FillForwardKeepsKey | src/hooks/useLeads.ts:115-127 | Merging a lead found by its org number keeps the org number |
| Leads.Metrics | src/hooks/useLeads.ts:54-57 | totalLeads is the lead count and qualifiedLeads the number with status `Kvalifisert`, both 0 for no data; qualified never exceeds total |
| Upsert.Assigned | src/hooks/useLeads.ts:140-144 | An inserted record has an id and otherwise equals the lead |
| Upsert.StepKeys | src/hooks/useLeads.ts:109-153 | One lead keeps every record under its own key, keeps all keys, and adds only its own key and only when tagged inserted |
| Upsert.ReconcileKeepsKeys | src/hooks/useLeads.ts:107-155 | The loop never removes a key and keeps each record under its own org number |
| Upsert.ReconcileReports | src/hooks/useLeads.ts:137-151 | Result i reports on lead i: an error carries the lead, an insert the lead with its id, an update every key the lead provides |
| Upsert.AddedKeyWasInserted | src/hooks/useLeads.ts:118-148 | Every key the loop adds is the org number of some lead tagged inserted |
| Upsert.InsertedKeyWasAdded | src/hooks/useLeads.ts:138-148 | The org number of every lead tagged inserted is a key the loop added |
| Upsert.ReconcileAddsInsertedKeys | src/hooks/useLeads.ts:109-153 | The added keys are exactly the org numbers of the leads tagged inserted |
| Upsert.UpdatesAddNoRows | src/hooks/useLeads.ts:118-137 | When every lead is already stored and no call fails, every result is an update and no key is added |
| Upsert.ReimportIsStable | src/hooks/useLeads.ts:109-148 | A new lead imported twice in one batch is inserted then updated, and the second pass leaves the stored record as the first stored it |
| Upsert.LaterDuplicateIsUpdate | src/hooks/useLeads.ts:109-148 | A later lead with the org number an earlier lead just inserted is merged into that record and tagged updated |
| Upsert.FailedLookupOfStoredKey | src/hooks/useLeads.ts:112-151 | A failed lookup of a stored key falls through to an insert that is rejected, giving an error result and no change |
| Upsert.FailedLookupOfNewKey | src/hooks/useLeads.ts:112-147 | A failed lookup of a new key still inserts the lead |
| Upsert.LeadStore.FindByOrgNumber | src/hooks/useLeads.ts:112-116 | The lookup finds a record iff it succeeds and the key is stored, and then returns the record stored under that key |
| Upsert.LeadStore.Update | src/hooks/useLeads.ts:129-136 | A successful update overwrites the record under the key; a failed one changes nothing |
| Upsert.LeadStore.Insert | src/hooks/useLeads.ts:140-146 | An insert stores the lead with an id unless it fails or the key is taken, and changes nothing otherwise |
| Upsert.MergeFields | src/hooks/useLeads.ts:120-127 | The key-by-key copy loop over a copy of the stored record computes the fill-forward merge |
| Upsert.UpsertOne | src/hooks/useLeads.ts:110-152 | One pass of the loop body leaves the store and result the specification step gives |
| Upsert.UpsertLeads | src/hooks/useLeads.ts:106-155 | The loop's results and final store are those of reconciling the leads in input order |
| Upsert.TallyOf | src/hooks/useLeads.ts:161-163 | The inserted, updated and error counts are the numbers of results with each tag and sum to the result count |
| Upsert.TagsPartition | src/hooks/useLeads.ts:161-163 | Every result carries exactly one of the three tags |
| Upsert.Summary | src/hooks/useLeads.ts:167 | The toast text starts with `<inserted> new leads, <updated> updated leads` from the tally, ends with `, <errors> errors` when there are errors, and ends with ` updated leads` exactly when there are none |
| Notes.ParseNotes | src/components/pipeline/NotesSection.tsx:21-33 | No stored text gives no notes; decodable text gives the decoded list; other text becomes one legacy note with id `1` |
| Notes.AddNote | src/components/pipeline/NotesSection.tsx:37-49 | A blank draft changes nothing; otherwise the list grows by one trimmed note at the end, the earlier notes are kept, and the draft is cleared |
| Notes.AddedNoteIsTrimmed | src/components/pipeline/NotesSection.tsx:38-42 | An added note's content is non-empty and has no surrounding whitespace |
| Notes.RemoveNoteSpec | src/components/pipeline/NotesSection.tsx:51-54 | After removal no note has the id, every other note survives in order, and exactly the notes with that id are gone |
| Notes.RemoveUnknownId | src/components/pipeline/NotesSection.tsx:51-54 | Removing an id no note has leaves the list unchanged |
| Notes.RemoveNoteIdempotent | src/components/pipeline/NotesSection.tsx:51-54 | Removing an id twice is removing it once |
| Notes.RemoveUndoesAdd | src/components/pipeline/NotesSection.tsx:37-54 | Removing the id of a freshly added note restores the earlier list |
| LeadCharts.FirstSeenDistinct | src/hooks/useLeadCharts.ts:19-29 | The chart keys are pairwise distinct |
| LeadCharts.FirstSeenCovers | src/hooks/useLeadCharts.ts:19-23 | Every lead's key is among the chart keys |
| LeadCharts.FirstSeenFromLeads | src/hooks/useLeadCharts.ts:19-23 | Every chart key is the key of some lead |
| LeadCharts.KeyCountUnseen | src/hooks/useLeadCharts.ts:21 | A key that is not among the chart keys counts no leads |
| LeadCharts.KeyCountAbsent | src/hooks/useLeadCharts.ts:21 | A key no lead has counts zero |
| LeadCharts.KeyCountPresent | src/hooks/useLeadCharts.ts:21 | A lead's own key counts at least one |
| LeadCharts.CountsCoverLeads | src/hooks/useLeadCharts.ts:19-23 | The counts of the chart keys add up to the number of leads |
| LeadCharts.HistogramOf | src/hooks/useLeadCharts.ts:25-42 | One group per chart key in key order, each with its lead count and the palette colour at its index modulo 5 |
| LeadCharts.HistogramTotal | src/hooks/useLeadCharts.ts:19-29 | The group values add up to the number of leads |
| LeadCharts.HistogramCoversLeads | src/hooks/useLeadCharts.ts:19-29 | Every lead's key names some group |
| LeadCharts.HistogramGroupsDistinct | src/hooks/useLeadCharts.ts:19-29 | Group names are distinct and every group counts at least one lead |
| LeadCharts.EmptySourceIsUnknown | src/hooks/useLeadCharts.ts:20 | A lead with an empty source is counted under `Unknown` |
| LeadCharts.CountBy | src/hooks/useLeadCharts.ts:19-36 | The accumulating loop yields the first-seen keys and, for each, the number of leads with that key |
| LeadCharts.GroupsOf | src/hooks/useLeadCharts.ts:25-42 | The mapping loop gives group i the name, count and palette colour of key i |
| LeadCharts.SourceData | src/hooks/useLeadCharts.ts:19-29 | The source chart is the histogram by `source \|\| 'Unknown'` with the source palette; no data gives none |
| LeadCharts.StatusData | src/hooks/useLeadCharts.ts:32-42 | The status chart is the histogram by `status \|\| 'Unknown'` with the status palette; no data gives none |
| LeadCharts.KwpGroupsOf | src/hooks/useLeadCharts.ts:45-61 | One kWp group per status of the leads with a truthy kWp, in first-seen order, with their kWp total, count and palette colour |
| LeadCharts.AddKwp | src/hooks/useLeadCharts.ts:46-53 | Adding one lead creates its status entry on first use and adds its kWp and one to the count |
| LeadCharts.KwpByStatus | src/hooks/useLeadCharts.ts:45-55 | The reduce yields, per status, the kWp total and count over the leads with a truthy kWp |
| LeadCharts.KwpSumUnseen | src/hooks/useLeadCharts.ts:51 | A status outside the chart keys has kWp total zero |
| LeadCharts.KwpSumAbsent | src/hooks/useLeadCharts.ts:51 | A status no lead has has kWp total zero |
| LeadCharts.KwpData | src/hooks/useLeadCharts.ts:45-61 | The kWp chart is built from the per-status entries in key order; no data gives none |
| LeadCharts.KwpGroupsCountContributors | src/hooks/useLeadCharts.ts:47-52 | Every kWp group counts at least one lead, and the counts add up to the number of leads with a truthy kWp |
| LeadCharts.KwpGroupsOnlyFromContributors | src/hooks/useLeadCharts.ts:47-52 | Every kWp group is the status of some lead with a truthy kWp |
| LeadCharts.KwpGroupsCoverContributors | src/hooks/useLeadCharts.ts:47-52 | Every lead with a truthy kWp has its status among the kWp groups |
| LeadCharts.Insert | src/hooks/useLeadCharts.ts:65 | Inserting into a date-ordered list gives a date-ordered list one longer |
| LeadCharts.InsertPermutes | src/hooks/useLeadCharts.ts:65 | Insertion adds exactly the new lead to the multiset |
| LeadCharts.SortByDate | src/hooks/useLeadCharts.ts:65 | The sorted list is in ascending date order and as long as the input |
| LeadCharts.SortPermutes | src/hooks/useLeadCharts.ts:65 | Sorting is a permutation |
| LeadCharts.PpaData | src/hooks/useLeadCharts.ts:64-70 | No data gives no PPA points |
| LeadCharts.PpaDataOrdered | src/hooks/useLeadCharts.ts:64-70 | The PPA points are exactly the leads with a truthy price, as a date-ordered permutation, each shown with its date, price and company |
| LeadCharts.LeadChartData | src/hooks/useLeadCharts.ts:18-77 | The four charts are the source and status histograms, the kWp groups and the PPA points; no data gives four empty charts |
| LeadTable.FilteredLeads | src/components/leads/LeadTable.tsx:14-18 | No lead list gives no leads, and the result is never longer than the list |
| LeadTable.FilteredLeadsSpec | src/components/leads/LeadTable.tsx:14-17 | A lead is kept iff it matches on company (case-insensitive), org number (as typed) or a non-empty contact (case-insensitive); kept leads keep their order |
| LeadTable.EmptyQueryKeepsAll | src/components/leads/LeadTable.tsx:14-17 | An empty search keeps every lead |
| LeadTable.ExtendedQueryMatchesPrefix | src/components/leads/LeadTable.tsx:14-17 | A lead matching a longer query matches every query it extends |
| LeadTable.TypingNarrowsResult | src/components/leads/LeadTable.tsx:14-18 | Typing more only narrows the result, to a subsequence of the previous one |
| LeadTable.View | src/components/leads/LeadTable.tsx:90-137 | Loading shows the skeleton; otherwise the matching leads; when none match, "Ingen leads matcher søket" for a non-empty query and "Ingen leads funnet" with the import hint for an empty one |
| LeadTable.NoLeadsMessageMeansNoLeads | src/components/leads/LeadTable.tsx:124-133 | "Ingen leads funnet" with the import hint shows iff the query is empty and there are no leads |
| LeadTable.NoMatchMessageMeansNoneMatch | src/components/leads/LeadTable.tsx:124-128 | "Ingen leads matcher søket" (without the hint) shows exactly when the query is non-empty and no lead matches it |
| PipelineBoard.LeadsForColumn | src/components/pipeline/PipelineBoard.tsx:29-31 | No lead list gives an empty column, and a column is never longer than the list |
| PipelineBoard.LeadsForColumnSpec | src/components/pipeline/PipelineBoard.tsx:29-31 | A column holds exactly the leads with its status, in input order, as many as there are such leads |
| PipelineBoard.ColumnStatusesDistinct | src/components/pipeline/PipelineBoard.tsx:7-14 | The six column statuses are pairwise distinct |
| PipelineBoard.LeadInAtMostOneColumn | src/components/pipeline/PipelineBoard.tsx:7-36 | A lead appears in at most one column |
| PipelineBoard.UnknownStatusOnNoColumn | src/components/pipeline/PipelineBoard.tsx:7-36 | A lead whose status is none of the six appears in no column |
| PipelineBoard.BoardOf | src/components/pipeline/PipelineBoard.tsx:19-45 | Loading shows six skeletons; otherwise six column views with the column titles in order |
| PipelineBoard.ViewOfColumn | src/components/pipeline/PipelineBoard.tsx:35-36 | Column view c is built from column c's status alone |
| PipelineBoard.BadgeCountsColumnLeads | src/components/pipeline/PipelineBoard.tsx:36-45 | A column shows its leads and its badge is their number |
| PipelineBoard.PlaceholderIffNoLeads | src/components/pipeline/PipelineBoard.tsx:83-87 | The "Ingen leads" placeholder shows iff no lead has the column's status |
| PipelineBoard.NoLeadsEmptyBoard | src/components/pipeline/PipelineBoard.tsx:30 | Without a lead list every badge is 0 and every placeholder shows |
| StatusBadge.StatusClass | src/components/ui/status-badge.tsx:23-24 | The class is the table entry of the lower-cased status, or `bg-gray-500` when there is none |
| StatusBadge.RenderBadge | src/components/ui/status-badge.tsx:26-30 | The badge text is the status as given; classes are `status-badge`, the status class, then the caller's class when non-empty |
| StatusBadge.StatusClassIgnoresCase | src/components/ui/status-badge.tsx:23 | A status and its lower-cased form get the same class |
| StatusBadge.PairsShareClass | src/components/ui/status-badge.tsx:9-20 | Both names of each English/Norwegian pair map to the same class, and different pairs to different classes |
| StatusBadge.TableIsThePairs | src/components/ui/status-badge.tsx:9-20 | Every table key is one of the ten pair names |
| StatusBadge.KeysReachable | src/components/ui/status-badge.tsx:9-24 | Every table key is lower case, so each status name reaches its own entry |
| StatusBadge.FallbackIffUnmapped | src/components/ui/status-badge.tsx:24 | The grey fallback is used iff the lower-cased status is not in the table |
| ProcessingResult.Render | src/components/import/ProcessingResult.tsx:13-32 | Nothing renders for no result; the success notice shows iff there are valid leads, reporting their number out of totalRows; the error notice shows iff there are errors |
| ProcessingResult.ErrorNoticeAccountsForAll | src/components/import/ProcessingResult.tsx:32-39 | The header counts all errors; the listed errors are a prefix, at most five; either all are listed or the closing line `... and <k> more errors` is shown with k exactly the rest |
| ProcessingResult.OverflowIffMoreThanFive | src/components/import/ProcessingResult.tsx:37-39 | The closing line appears iff there are more than five errors |
| ProcessingResult.OverflowCountReadsBack | src/components/import/ProcessingResult.tsx:38 | The closing line reads `... and <k> more errors`, and k reads back as the number of unlisted errors |
| ProcessingResult.CleanImportShowsOnlySuccess | src/components/import/ProcessingResult.tsx:18-44 | A batch whose row outcomes are all leads shows only the success notice, with valid and total counts both equal to the number of rows |
| AuthPage.FormOf | src/pages/Auth.tsx:34-65 | The login form shows exactly in the login view; the two-factor forms receive the state's user id |
| AuthPage.HandleKeepsWellFormed | src/pages/Auth.tsx:19-62 | Every callback keeps a user id in the two-factor views |
| AuthPage.RunKeepsWellFormed | src/pages/Auth.tsx:19-62 | After any sequence of callbacks the two-factor form shown receives a defined user id |
| AuthPage.AuthSuccessSpec | src/pages/Auth.tsx:21-27 | Auth success requiring two-factor login moves to verification with that user; otherwise the state is unchanged |
| AuthPage.BackToLoginSpec | src/pages/Auth.tsx:29-54 | Finishing setup, verifying, or switching to login returns to the login view without a user id |
| AuthPage.VerifyOnlyAfterTwoFactorSuccess | src/pages/Auth.tsx:21-27 | The verify view is entered only by an auth success that required two-factor login, carrying that user |
| AuthPage.OfferedTransitions | src/pages/Auth.tsx:34-65 | Through the callbacks each form offers: login switches to signup and back, the two-factor forms return to login, and setup is entered only from login |
| AuthPage.Auth.constructor | src/pages/Auth.tsx:19 | The page starts in the login view with no user id |
| AuthPage.Auth.HandleAuthSuccess | src/pages/Auth.tsx:21-27 | The auth-success handler performs the specified transition and keeps the invariant |
| AuthPage.Auth.Handle2FASetupComplete | src/pages/Auth.tsx:29-32 | Setup completion returns to login |
| AuthPage.Auth.OnVerifySuccess | src/pages/Auth.tsx:54 | Verification success returns to login |
| AuthPage.Auth.OnSwitchToLogin | src/pages/Auth.tsx:40 | The signup form's switch returns to login |
| AuthPage.Auth.OnSwitchToSignUp | src/pages/Auth.tsx:61 | The login form's switch moves to signup |
| AuthPage.Auth.OnSetup2FA | src/pages/Auth.tsx:62 | The setup request moves to the setup view with the given user |
| AuthPage.Auth.RenderAuthForm | src/pages/Auth.tsx:34-65 | The rendered form is the one for the current view, and a two-factor form always gets a defined user id |
| CardDialog.EmptyToNone | src/components/pipeline/CardDialog.tsx:71-72 | An empty text becomes unset and any other text is kept |
| CardDialog.CardDataOf | src/components/pipeline/CardDialog.tsx:67-74 | Name, stage, priority and date pass through; an empty assignee or notes becomes unset |
| CardDialog.FormRoundTrip | src/components/pipeline/CardDialog.tsx:47-74 | Re-editing what was submitted gives back the same form |
| CardDialog.DataRoundTrip | src/components/pipeline/CardDialog.tsx:47-74 | Data without empty-text fields survives being edited and resubmitted unchanged |
| CardDialog.EditShowsCard | src/components/pipeline/CardDialog.tsx:47-53 | Editing a card copies all its fields, with null assignee and notes shown as empty |
| CardDialog.NewCardDefaults | src/components/pipeline/CardDialog.tsx:54-61 | A new card starts with empty name, assignee and notes, the default stage or `not_started`, priority M and today's date |
| CardDialog.UneditedSaveKeepsCard | src/components/pipeline/CardDialog.tsx:47-74 | Saving an unedited card sends back its own fields, except that a stored empty assignee or notes text is sent unset |
| CardDialog.ClearingUnsets | src/components/pipeline/CardDialog.tsx:71-72 | Clearing the assignee or notes sends that field unset, and every other field of the submitted data is as before |
| CardDialog.Dialog.RunEffect | src/components/pipeline/CardDialog.tsx:46-61 | The effect sets the form to the card's copy or the new-card defaults |
| CardDialog.Dialog.constructor | src/components/pipeline/CardDialog.tsx:35-62 | After mounting, the form is the effect's initialisation for the initial inputs |
| CardDialog.Dialog.Rerender | src/components/pipeline/CardDialog.tsx:62 | The form is re-initialised iff card, default stage or open changed, and left as it was otherwise |
| CardDialog.Dialog.ApplyEdit | src/components/pipeline/CardDialog.tsx:115-178 | Each input handler sets its own field only |
| CardDialog.Dialog.HandleSubmit | src/components/pipeline/CardDialog.tsx:64-86 | The request carries the form's data; it is an update with the card's id iff a card is edited; the dialog closes iff the save succeeds |
| CardDialog.HandleDelete | src/components/pipeline/CardDialog.tsx:88-97 | Confirmation is asked iff a card is edited; the card is deleted iff it is edited and confirmed; the dialog closes iff the delete happened and succeeded |
| Text.NatToStringRoundTrip | src/utils/excelProcessor.ts:71 | The decimal row number in a message reads back as the number, so distinct rows get distinct labels |

## Left out

- Spreadsheet decoding and file reading (`XLSX.read`, `sheet_to_json`, `FileReader`) are a foreign library and I/O. The model starts from decoded rows, or from a read or decode failure.
- JavaScript dates and floating point are parameters:
  - `new Date(v).toISOString()`, which may throw;
  - `parseFloat`;
  - `String(number)`;
  - today's date;
  - `getTime` of a lead date;
  - `toLocaleDateString`.
- Cell values are text, number or null. Other `sheet_to_json` values (booleans, dates) are not modelled.
- Averages are floating-point division with `toFixed`:
  - `avgKwp` and `avgPpaPrice` in the dashboard metrics;
  - `avgKwp` in the kWp chart.
  
  The kWp chart keeps each status's kWp total and count instead.
- Store calls, query-cache invalidation, toasts and `console` logging (Supabase, React Query) are side effects.
  - Whether a store call fails is an input.
  - The id a new record gets is an input.
  - Store-assigned timestamps are not modelled.
- Concurrent imports racing between lookup and write are not modelled: the upsert loop is sequential.
- Upsert.LeadStore.Insert: assumes the store rejects an insert under an org number it already holds, as a unique key would. The code itself does not promise this.
- JSON encoding and decoding of notes is an abstract decoder that may fail. A decoded value that is not a note list is not modelled. `Date.now()` ids and ISO timestamps are inputs.
- The two-factor components are not modelled: random secrets, the QR library, and a placeholder TOTP check.
- Rendering-only components, routing and drag-and-drop are not part of this model.
- Text handling is ASCII only: `toLowerCase` maps A–Z, and `trim` removes ASCII whitespace.
- Chart keys are in first-seen order. JavaScript `Object.entries` lists integer-like keys first, and keys such as `__proto__` behave specially in plain objects; neither is modelled. The same applies to prototype-named statuses in the status badge table.
- Import headers that shadow `Object.prototype` members are not modelled. A sheet with a column named `hasOwnProperty` makes the lookup at `src/utils/excelProcessor.ts:28` throw in every row, so each row becomes a `Row <n>: Error processing data - ...` error through the catch at lines 95-97; the model resolves such a row like any other.
- LeadCharts.KwpSum: the per-status kWp totals use exact real addition. The code adds JavaScript floating-point numbers (`src/hooks/useLeadCharts.ts:51`), so rounding in those totals is not modelled.
- LeadCharts.SortByDate: proved sorted and a permutation. Stability of the order between leads with equal dates is not proved. Dates whose timestamp is `NaN` are not modelled.
- LeadCharts.PriceOf: falls back to 0 for a lead without a price; only leads with a truthy price reach it.
- StatusBadge.RenderBadge: the class-merging helper's resolution of conflicting utility classes is not modelled. Only empty additions are dropped.
- CardDialog.Dialog.Rerender: effect inputs are compared by value. React compares object identity, so a new card object with equal contents would also re-run the effect.
- The upload help text (`src/components/import/FileUploadSection.tsx:104-105`) says two things the model does not follow:
  - that rows without required fields are skipped: only rows lacking all three are skipped, and the others are errors;
  - that existing leads get only their empty fields filled: every key the import provides overwrites.
  
  The model follows the code (`ExcelProcessor.SkippedIff`, `Leads.FillForward`).
