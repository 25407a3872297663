# vets-api decision logic in Dafny

This project models the parts of the VA.gov API (vets-api) that decide
things rather than move data about, and proves what they promise.

- **Supplemental-claim status reconciler** (`DecisionReview::SavedClaimScStatusUpdaterJob`)
  - One run walks the open claims, oldest first.
  - It stores each claim's fetched status and evidence-upload statuses as the claim's metadata.
  - It updates the claim's open secondary (4142) forms.
  - It sets a claim's delete date only when the claim, every upload and every secondary form is successful.
  - It emits a status metric only on a change of status.
  - An error on one claim is counted and does not stop the run.
  - The job is a class over its claim rows, form rows and event log. Its methods loop over those tables and are proved equal to pure functions of the old tables. The lemmas are stated about those functions.
- **FSR transform utilities**
  - the `YYYY-M[M]` → `MM/YYYY` date reformatter;
  - the recursive lower-camel re-keying of nested arrays and hashes;
  - the lenient string-to-integer parser.
- **IVC CHAMPVA uploads controller**: the reply status for a list of upload statuses, the form-number lookup and the attachment ids.
- **Check-in travel-claim submission worker**: the response → (metric, template) table, the error path, and the SMS sender and phone digits.
- **Claims API**
  - the claim-access validator;
  - the document file-name and request-body builders;
  - the power-of-attorney request lookup;
  - the power-of-attorney decision value.
- **Travel-pay claims listing**: the appointment-date filter and the claim status rewrite.
- **VA Profile**
  - the profile-information service: the identifier, path, error mapping, write verb and path, the OldEmail rule, and change notifications at most once per transaction;
  - the `Person` model.
- **VA Notify veteran**: the first-name dispatch and `verified?`.
- **Higher-Level Review v2 PDF structure**: the 13-issue cap, decision-date filling, the address-on-file entries and the memoised additional pages.
- **686c-674 v2 form profile**: the address prefill, metadata and the last four of the file number.
- **VAOS base service**: the referrer and the route prefix.
- **Connected-devices record service**: the find-or-create-then-activate upsert.

Shared modules:
- `Wrappers` holds Option and Result.
- `Json` models decoded JSON and Ruby hashes as ordered entry lists, with Ruby's `[]`, `[]=`, `slice`, `delete` and `dig`.
- `Text` holds the Ruby string operations used: `gsub`, `sub`, `split`, `last`, `blank?`, `compact_blank.join` and zero padding.

Collaborators are parameters:
- HTTP services are functions from a request to an answer that may fail.
- Feature flags are booleans.
- Database tables are sequences or maps.
- The clock is a number.
- Metrics and log lines are an event list that only grows.

A failed upload-status fetch in the reconciler raises and aborts that claim; nothing fetched before it is kept.

## Model

| member | source | states |
|---|---|---|
| ScStatusUpdater.OpenClaims | app/sidekiq/decision_review/saved_claim_sc_status_updater_job.rb:60-62 | the claims a run visits are exactly the rows without a delete date, each once, ordered by creation time |
| ScStatusUpdater.SortByCreation | app/sidekiq/decision_review/saved_claim_sc_status_updater_job.rb:61 | `order(created_at: :asc)` is a permutation of its input (same members, same length, distinctness kept) and is sorted by creation time |
| ScStatusUpdater.InsertKeepsSorted | app/sidekiq/decision_review/saved_claim_sc_status_updater_job.rb:61 | inserting a row index into a creation-ordered list keeps it ordered |
| ScStatusUpdater.InsertKeepsDistinct | app/sidekiq/decision_review/saved_claim_sc_status_updater_job.rb:61 | inserting a new index keeps the list free of repeats |
| ScStatusUpdater.OpenFormsOf | app/sidekiq/decision_review/saved_claim_sc_status_updater_job.rb:91-92 | the secondary forms visited are distinct rows of the table |
| ScStatusUpdater.OpenFormsUpTo | app/sidekiq/decision_review/saved_claim_sc_status_updater_job.rb:91-92 | a form row is visited exactly when it belongs to the appeal submission and has no delete date |
| ScStatusUpdater.UploadsStatuses | app/sidekiq/decision_review/saved_claim_sc_status_updater_job.rb:72-85 | the fetched upload list has one entry per lighthouse upload id |
| ScStatusUpdater.UploadsJson | app/sidekiq/decision_review/saved_claim_sc_status_updater_job.rb:36 | the stored `uploads` value is an array holding each upload entry as a hash, in order |
| ScStatusUpdater.AsHashes | app/sidekiq/decision_review/saved_claim_sc_status_updater_job.rb:174 | a decoded upload list reads as hashes exactly entry for entry |
| ScStatusUpdater.SecondaryStep | app/sidekiq/decision_review/saved_claim_sc_status_updater_job.rb:94-100 | one secondary-form step never adds or removes a form row |
| ScStatusUpdater.SecondaryLoop | app/sidekiq/decision_review/saved_claim_sc_status_updater_job.rb:94-100 | the secondary-form loop never adds or removes a form row |
| ScStatusUpdater.SecondaryForms | app/sidekiq/decision_review/saved_claim_sc_status_updater_job.rb:87-103 | `get_and_update_secondary_form_statuses` keeps the number of form rows |
| ScStatusUpdater.AfterClaim | app/sidekiq/decision_review/saved_claim_sc_status_updater_job.rb:30-49 | processing one claim keeps the number of claim rows and form rows |
| ScStatusUpdater.AfterRun | app/sidekiq/decision_review/saved_claim_sc_status_updater_job.rb:30-49 | a run keeps the number of claim rows and form rows |
| ScStatusUpdater.StatusUpdaterJob.constructor | app/sidekiq/decision_review/saved_claim_sc_status_updater_job.rb:7 | a job starts on the given tables with an empty event log |
| ScStatusUpdater.StatusUpdaterJob.Perform | app/sidekiq/decision_review/saved_claim_sc_status_updater_job.rb:25-52 | `perform` leaves exactly the tables and events of the run function and keeps both retention invariants |
| ScStatusUpdater.StatusUpdaterJob.ProcessClaim | app/sidekiq/decision_review/saved_claim_sc_status_updater_job.rb:30-49 | one loop iteration, rescue included, leaves exactly what the claim function gives and keeps the invariants |
| ScStatusUpdater.StatusUpdaterJob.GetEvidenceUploadsStatuses | app/sidekiq/decision_review/saved_claim_sc_status_updater_job.rb:72-85 | the loop builds exactly the specified upload list, or reports the raise |
| ScStatusUpdater.StatusUpdaterJob.GetAndUpdateSecondaryFormStatuses | app/sidekiq/decision_review/saved_claim_sc_status_updater_job.rb:87-103 | the loop leaves exactly the specified form rows, events and aggregate, and keeps the form retention invariant |
| ScStatusUpdater.StatusUpdaterJob.UpdateOneSecondaryForm | app/sidekiq/decision_review/saved_claim_sc_status_updater_job.rb:95-99 | one form step matches the step function and keeps the form retention invariant |
| ScStatusUpdater.StatusUpdaterJob.HandleSecondaryFormStatusMetricsAndLogging | app/sidekiq/decision_review/saved_claim_sc_status_updater_job.rb:118-129 | appends exactly the secondary-form events for the status |
| ScStatusUpdater.StatusUpdaterJob.UpdateSecondaryFormStatus | app/sidekiq/decision_review/saved_claim_sc_status_updater_job.rb:131-140 | only that form row changes; it gets a delete date only for a `vbms` status, which keeps the form retention invariant |
| ScStatusUpdater.StatusUpdaterJob.CheckAttachmentsStatus | app/sidekiq/decision_review/saved_claim_sc_status_updater_job.rb:142-165 | answers whether every upload is `vbms` and appends one upload's events per upload; an unreadable stored list raises before any event |
| ScStatusUpdater.StatusUpdaterJob.SavedClaimComplete | app/sidekiq/decision_review/saved_claim_sc_status_updater_job.rb:167-169 | complete exactly when all uploads are `vbms`, the secondary forms are complete and the status is `complete`; the attachment check runs first |
| ScStatusUpdater.StatusUpdaterJob.HandleFormStatusMetricsAndLogging | app/sidekiq/decision_review/saved_claim_sc_status_updater_job.rb:105-116 | appends exactly the claim-status events for the status |
| ScStatusUpdater.FailedUploadStops | app/sidekiq/decision_review/saved_claim_sc_status_updater_job.rb:78-82 | once an upload fetch raises, the whole upload list raises |
| ScStatusUpdater.RaisedLoopStops | app/sidekiq/decision_review/saved_claim_sc_status_updater_job.rb:94-100 | after a raise, the remaining secondary forms are not visited |
| ScStatusUpdater.HashesOfUploadsJson | app/sidekiq/decision_review/saved_claim_sc_status_updater_job.rb:171-175 | the stored upload list reads back as the list that was stored |
| ScStatusUpdater.StoredMetadataReadsBack | app/sidekiq/decision_review/saved_claim_sc_status_updater_job.rb:36 | stored metadata reads back the fetched status and the upload list |
| ScStatusUpdater.StoredMetadataKeys | app/sidekiq/decision_review/saved_claim_sc_status_updater_job.rb:36 | every fetched attribute other than `uploads` is stored unchanged, and no other key appears |
| ScStatusUpdater.SecondaryLoopKeepsInvariant | app/sidekiq/decision_review/saved_claim_sc_status_updater_job.rb:131-140 | the secondary pass keeps "a form with a delete date stores a successful status" |
| ScStatusUpdater.AfterClaimFrame | app/sidekiq/decision_review/saved_claim_sc_status_updater_job.rb:45 | processing one claim changes no other claim row |
| ScStatusUpdater.AfterClaimKeepsInvariants | app/sidekiq/decision_review/saved_claim_sc_status_updater_job.rb:38-45 | processing an open claim keeps both retention invariants |
| ScStatusUpdater.SecondaryLoopSnoc | app/sidekiq/decision_review/saved_claim_sc_status_updater_job.rb:94-100 | the secondary loop over one more form is one more step |
| ScStatusUpdater.AfterRunSnoc | app/sidekiq/decision_review/saved_claim_sc_status_updater_job.rb:30-49 | the run over one more claim is one more claim step |
| ScStatusUpdater.IdleRunChangesNothing | app/sidekiq/decision_review/saved_claim_sc_status_updater_job.rb:26 | a disabled job, or one with no open claim, changes nothing and emits nothing |
| ScStatusUpdater.RunProcessesOpenClaimsOldestFirst | app/sidekiq/decision_review/saved_claim_sc_status_updater_job.rb:25-30 | an enabled run processes exactly the open claims, each once, oldest first, after the processing-records metric |
| ScStatusUpdater.RetentionExactlyWhenAllSuccessful | app/sidekiq/decision_review/saved_claim_sc_status_updater_job.rb:35-45 | an open claim gets a delete date 59 days after the run exactly when nothing raised, its status is `complete`, every upload is `vbms` and every secondary form is complete |
| ScStatusUpdater.AllUploadsSuccessfulIff | app/sidekiq/decision_review/saved_claim_sc_status_updater_job.rb:142-165 | the upload aggregate holds exactly when every upload status is `vbms` |
| ScStatusUpdater.UploadsStatusesFetched | app/sidekiq/decision_review/saved_claim_sc_status_updater_job.rb:78-82 | the upload list is built exactly when every upload answers |
| ScStatusUpdater.UploadsStatusesEntries | app/sidekiq/decision_review/saved_claim_sc_status_updater_job.rb:78-82 | entry k is built from the k-th upload id's answer and carries that id |
| ScStatusUpdater.UploadEntryContents | app/sidekiq/decision_review/saved_claim_sc_status_updater_job.rb:79-81 | an upload entry holds its `id` and exactly the answered attributes among status, detail, createDate and updateDate |
| ScStatusUpdater.SecondaryLoopFrame | app/sidekiq/decision_review/saved_claim_sc_status_updater_job.rb:94-100 | the secondary pass changes only the forms it visits, and never a form's identity |
| ScStatusUpdater.SecondaryLoopRaises | app/sidekiq/decision_review/saved_claim_sc_status_updater_job.rb:95 | the secondary pass raises exactly when a visited form fails to answer |
| ScStatusUpdater.SecondaryStepOutcome | app/sidekiq/decision_review/saved_claim_sc_status_updater_job.rb:95-99 | one visited form: its new row and its effect on the aggregate |
| ScStatusUpdater.SecondaryLoopComplete | app/sidekiq/decision_review/saved_claim_sc_status_updater_job.rb:87-103 | without a raise, the pass is complete exactly when every visited form now stores a `vbms` status |
| ScStatusUpdater.SecondaryLoopDeleteDates | app/sidekiq/decision_review/saved_claim_sc_status_updater_job.rb:131-140 | without a raise, a visited form has a delete date exactly when its stored status is `vbms` |
| ScStatusUpdater.FormStatusEventsOnChange | app/sidekiq/decision_review/saved_claim_sc_status_updater_job.rb:105-116 | claim-status events appear exactly on a change of status, and a silent failure only on a change to `error` |
| ScStatusUpdater.UploadEventsOnChange | app/sidekiq/decision_review/saved_claim_sc_status_updater_job.rb:147-162 | upload events appear exactly when the upload's stored status differs, and a silent failure only for `error` |
| ScStatusUpdater.FailedFetchLeavesClaim | app/sidekiq/decision_review/saved_claim_sc_status_updater_job.rb:30-49 | a claim whose own status cannot be fetched is left as it was, and its error is counted |
| ScStatusUpdater.RaiseLeavesClaimRows | app/sidekiq/decision_review/saved_claim_sc_status_updater_job.rb:45-48 | any raise while a claim is processed leaves every claim row unchanged, and the claim's events end with its error count |
| ScStatusUpdater.SecondaryLoopExtendsEvents | app/sidekiq/decision_review/saved_claim_sc_status_updater_job.rb:94-100 | the secondary pass only appends events |
| ScStatusUpdater.AfterClaimExtendsEvents | app/sidekiq/decision_review/saved_claim_sc_status_updater_job.rb:30-49 | processing a claim only appends events |
| ScStatusUpdater.AfterRunFrame | app/sidekiq/decision_review/saved_claim_sc_status_updater_job.rb:30-49 | a run only appends events and changes only the claims it visits |
| ScStatusUpdater.AfterRunIsolatesErrors | app/sidekiq/decision_review/saved_claim_sc_status_updater_job.rb:30-49 | a visited claim whose fetch fails keeps its row and has its error counted, and the run leaves every claim row and form row as a run without that claim would |
| ScStatusUpdater.FailedClaimsKeepRows | app/sidekiq/decision_review/saved_claim_sc_status_updater_job.rb:46-49 | every visited claim whose fetch fails keeps its row and has its error counted, whatever the other claims did |
| ScStatusUpdater.FailedClaimIsSkipped | app/sidekiq/decision_review/saved_claim_sc_status_updater_job.rb:30-49 | a claim whose fetch fails is skipped: claim rows and form rows end as in the run without it |
| ScStatusUpdater.Skip | app/sidekiq/decision_review/saved_claim_sc_status_updater_job.rb:30 | the order without its k-th claim: one shorter, the others in order |
| ScStatusUpdater.AfterRunKeepsGuids | app/sidekiq/decision_review/saved_claim_sc_status_updater_job.rb:30-49 | a run never changes a claim's guid |
| ScStatusUpdater.SecondaryLoopIgnoresEvents | app/sidekiq/decision_review/saved_claim_sc_status_updater_job.rb:94-100 | the rows, aggregate and raise of a secondary pass do not depend on the events logged before it |
| ScStatusUpdater.AfterClaimIgnoresEvents | app/sidekiq/decision_review/saved_claim_sc_status_updater_job.rb:30-49 | the rows processing a claim leaves do not depend on the events logged before it |
| ScStatusUpdater.AfterRunKeepsInvariants | app/sidekiq/decision_review/saved_claim_sc_status_updater_job.rb:30-49 | a run over distinct open claims keeps both retention invariants |
| ScStatusUpdater.PerformKeepsInvariants | app/sidekiq/decision_review/saved_claim_sc_status_updater_job.rb:25-52 | `perform` keeps "retention set ⇒ stored status and uploads successful" and the form counterpart |
| ScStatusUpdater.ExtractUploadsCases | app/sidekiq/decision_review/saved_claim_sc_status_updater_job.rb:171-175 | nil metadata and an empty `uploads` hash give no uploads; an array read back gives its hashes entry for entry |
| ScStatusUpdater.OldUploadStatusFindsEntry | app/sidekiq/decision_review/saved_claim_sc_status_updater_job.rb:145-153 | in a consistent stored list, `index_by` and `dig` find an entry's own status |
| ScStatusUpdater.QuietAttachments | app/sidekiq/decision_review/saved_claim_sc_status_updater_job.rb:152-153 | no upload event when every upload's status is the stored one |
| ScStatusUpdater.FetchedUploadsConsistent | app/sidekiq/decision_review/saved_claim_sc_status_updater_job.rb:78-82 | the fetched list never gives one id two statuses |
| ScStatusUpdater.RerunIsQuiet | app/sidekiq/decision_review/saved_claim_sc_status_updater_job.rb:105-162 | re-running a claim whose answers are already stored emits no claim or upload status metric and no silent failure of its own: only the secondary-form events and, when complete, the delete-date metric |
| ScStatusUpdater.QuietSecondaryStep | app/sidekiq/decision_review/saved_claim_sc_status_updater_job.rb:118-140 | a visited form whose stored status is its answer emits nothing but, when successful, the delete-date metric |
| ScStatusUpdater.SettledLoopIsQuiet | app/sidekiq/decision_review/saved_claim_sc_status_updater_job.rb:94-100 | a pass over settled open forms changes no row and emits nothing; it is complete only when it visits no form |
| ScStatusUpdater.FirstPassSettles | app/sidekiq/decision_review/saved_claim_sc_status_updater_job.rb:94-100 | without a raise, every form a pass visits is left settled |
| ScStatusUpdater.RerunSecondaryPass | app/sidekiq/decision_review/saved_claim_sc_status_updater_job.rb:87-103 | re-running the secondary pass on the rows it left changes nothing, emits nothing and finds the same aggregate |
| ScStatusUpdater.RerunKeepsRows | app/sidekiq/decision_review/saved_claim_sc_status_updater_job.rb:30-49 | re-running a claim whose first run raised nothing leaves every claim and form row as the first run did, and emits only the delete-date metric when the claim is complete |
| FsrUtils.SanitizeDateString | modules/debts_api/lib/debts_api/v0/fsr_form_transform/utils.rb:39-47 | the in-place method computes what the date reformatter answers |
| FsrUtils.YearMonthBecomesMonthSlashYear | modules/debts_api/lib/debts_api/v0/fsr_form_transform/utils.rb:39-47 | `YYYY-M[M]` becomes `MM/YYYY` |
| FsrUtils.YearMonthDayBecomesMonthSlashYear | modules/debts_api/lib/debts_api/v0/fsr_form_transform/utils.rb:39-47 | `YYYY-M[M]-DD` becomes `MM/YYYY`; the day is ignored |
| FsrUtils.SanitizeYearMonth | modules/debts_api/lib/debts_api/v0/fsr_form_transform/utils.rb:42-46 | once `XX` is replaced, a year-month string reformats to the padded month, a slash and the year |
| FsrUtils.UnknownMonthIsJanuary | modules/debts_api/lib/debts_api/v0/fsr_form_transform/utils.rb:42 | an unknown month `XX` is read as January |
| FsrUtils.ReplaceUnknownMonth | modules/debts_api/lib/debts_api/v0/fsr_form_transform/utils.rb:42 | `gsub('XX', '01')` on `year-XX` gives `year-01` |
| FsrUtils.YearAloneRaises | modules/debts_api/lib/debts_api/v0/fsr_form_transform/utils.rb:43-45 | a year with no month makes the reformatter raise |
| FsrUtils.PlainJoinHasNoX | modules/debts_api/lib/debts_api/v0/fsr_form_transform/utils.rb:42 | fields free of `X` joined by `-` contain no `X` |
| FsrUtils.SplitPlainJoin | modules/debts_api/lib/debts_api/v0/fsr_form_transform/utils.rb:43-44 | `split('-')` undoes a join of plain fields |
| FsrUtils.SplitYearMonth | modules/debts_api/lib/debts_api/v0/fsr_form_transform/utils.rb:43 | `year-month` splits into two fields |
| FsrUtils.SplitYearMonthDefaultDay | modules/debts_api/lib/debts_api/v0/fsr_form_transform/utils.rb:43-44 | `year-month-01` splits into three fields |
| FsrUtils.JoinTwo | modules/debts_api/lib/debts_api/v0/fsr_form_transform/utils.rb:43 | a step for the split lemmas: joining two fields puts one `-` between them |
| FsrUtils.JoinThree | modules/debts_api/lib/debts_api/v0/fsr_form_transform/utils.rb:43 | a step for the split lemmas: joining three fields puts a `-` between each pair |
| FsrUtils.JanuaryIsPlain | modules/debts_api/lib/debts_api/v0/fsr_form_transform/utils.rb:42-43 | the default day `01` is a plain field |
| FsrUtils.LeadingDigits | modules/debts_api/lib/debts_api/v0/fsr_form_transform/utils.rb:53 | `to_i` reads the longest all-digit prefix and stops at the first non-digit |
| FsrUtils.LeadingDigitsAll | modules/debts_api/lib/debts_api/v0/fsr_form_transform/utils.rb:53 | an all-digit string is read whole |
| FsrUtils.LeadingDigitsStop | modules/debts_api/lib/debts_api/v0/fsr_form_transform/utils.rb:53 | reading stops at a non-digit |
| FsrUtils.KeepNumberCharsKeeps | modules/debts_api/lib/debts_api/v0/fsr_form_transform/utils.rb:53 | `gsub(/[^0-9.-]/, '')` keeps a string made only of digits, dots and minus signs |
| FsrUtils.KeepNumberCharsConcat | modules/debts_api/lib/debts_api/v0/fsr_form_transform/utils.rb:53 | the character filter works piece by piece |
| FsrUtils.KeepNumberCharsKeptPrefix | modules/debts_api/lib/debts_api/v0/fsr_form_transform/utils.rb:53 | a kept prefix survives the filter unchanged |
| FsrUtils.KeepCurrencyChars | modules/debts_api/lib/debts_api/v0/fsr_form_transform/utils.rb:53 | `$a,b.c` filters to `ab.c` |
| FsrUtils.StrToNumOfNumeral | modules/debts_api/lib/debts_api/v0/fsr_form_transform/utils.rb:49-54 | a signed numeral string parses back to its number |
| FsrUtils.StrToNumOfCurrency | modules/debts_api/lib/debts_api/v0/fsr_form_transform/utils.rb:49-54 | a `$a,b.c` amount parses to the whole-dollar value of `ab` |
| FsrUtils.StrToNumOfDollarsExample | modules/debts_api/lib/debts_api/v0/fsr_form_transform/utils.rb:49-54 | an illustration: `$1,234.56` parses to 1234 |
| FsrUtils.StrToNumEdges | modules/debts_api/lib/debts_api/v0/fsr_form_transform/utils.rb:50-53 | numbers pass through; non-strings and the empty string give 0 |
| FsrUtils.ReCamel | modules/debts_api/lib/debts_api/v0/fsr_form_transform/utils.rb:9-13 | the method gives the re-keyed container, nil for anything else |
| FsrUtils.ReCamelArray | modules/debts_api/lib/debts_api/v0/fsr_form_transform/utils.rb:15-25 | the append loop builds exactly the converted element list |
| FsrUtils.ReCamelHash | modules/debts_api/lib/debts_api/v0/fsr_form_transform/utils.rb:27-37 | the store loop builds exactly the re-keyed hash |
| FsrUtils.ScalarsBecomeNil | modules/debts_api/lib/debts_api/v0/fsr_form_transform/utils.rb:12 | a value that is neither array nor hash re-camels to nil |
| FsrUtils.CamelizedArrayPointwise | modules/debts_api/lib/debts_api/v0/fsr_form_transform/utils.rb:15-25 | an array keeps its length and order; containers are converted and scalars kept |
| FsrUtils.CamelizedHashStep | modules/debts_api/lib/debts_api/v0/fsr_form_transform/utils.rb:29-35 | with distinct camelized keys, each entry is appended |
| FsrUtils.CamelizedHashPointwise | modules/debts_api/lib/debts_api/v0/fsr_form_transform/utils.rb:27-37 | with distinct camelized keys, entry k is the camelized key with the converted value, in order |
| IvcUploads.AsArray | modules/ivc_champva/app/controllers/ivc_champva/v1/uploads_controller.rb:26 | `Array(status)`: nil is empty, a scalar is wrapped, a list stays |
| IvcUploads.BuildJson | modules/ivc_champva/app/controllers/ivc_champva/v1/uploads_controller.rb:99-115 | the reply always has a `status` and no duplicate key |
| IvcUploads.BuildJsonStatus | modules/ivc_champva/app/controllers/ivc_champva/v1/uploads_controller.rb:99-115 | 200 exactly when every upload is 200, no uploads included; 400 exactly when there are uploads and all are 400, with the uploader's message; 206 with `Partial upload failure` otherwise |
| IvcUploads.SubmitReply | modules/ivc_champva/app/controllers/ivc_champva/v1/uploads_controller.rb:24-26 | a nil status renders 200; a single code renders as a one-element list |
| IvcUploads.GetFormId | modules/ivc_champva/app/controllers/ivc_champva/v1/uploads_controller.rb:90-97 | a missing number raises; a known number maps to one of the form ids |
| IvcUploads.GetFormIdPlain | modules/ivc_champva/app/controllers/ivc_champva/v1/uploads_controller.rb:94-96 | a number without a colon is looked up as given |
| IvcUploads.GetFormIdDropsFirstColon | modules/ivc_champva/app/controllers/ivc_champva/v1/uploads_controller.rb:94 | only the first colon is removed |
| IvcUploads.GenerateAttachmentIds | modules/ivc_champva/app/controllers/ivc_champva/v1/uploads_controller.rb:68-70 | `count` copies of the form id |
| IvcUploads.SupportingDocumentIds | modules/ivc_champva/app/controllers/ivc_champva/v1/uploads_controller.rb:72-74 | no `supporting_docs` gives none; a list gives each document's `attachment_id` in order |
| IvcUploads.Pluck | modules/ivc_champva/app/controllers/ivc_champva/v1/uploads_controller.rb:73 | `pluck` succeeds exactly on a list of hashes and strings, and gives, item by item, what `item[key]` reads |
| IvcUploads.PluckString | modules/ivc_champva/app/controllers/ivc_champva/v1/uploads_controller.rb:73 | a string item gives the key when it holds it, else nil |
| IvcUploads.ApplicantsCount | modules/ivc_champva/app/controllers/ivc_champva/v1/uploads_controller.rb:54 | an absent applicant key counts as one applicant |
| IvcUploads.FormCopies | modules/ivc_champva/app/controllers/ivc_champva/v1/uploads_controller.rb:55-56 | the number of copies is applicants divided by the PDF count, rounded up |
| IvcUploads.CeilDivision | modules/ivc_champva/app/controllers/ivc_champva/v1/uploads_controller.rb:55-56 | the integer expression used is the ceiling of the division |
| IvcUploads.AttachmentIds | modules/ivc_champva/app/controllers/ivc_champva/v1/uploads_controller.rb:60-62 | the ids are never empty: the copies then the documents, or the bare form id |
| IvcUploads.AttachmentIdsLayout | modules/ivc_champva/app/controllers/ivc_champva/v1/uploads_controller.rb:60-61 | one form id per copy first, then the documents' ids in their order |
| IvcUploads.GetAttachmentIds | modules/ivc_champva/app/controllers/ivc_champva/v1/uploads_controller.rb:48-65 | the method's ids and errors are the specified ones: no form id, unreadable applicants, and otherwise a non-empty list laid out as above |
| TravelClaimWorker.FacilityIsOh | modules/check_in/app/sidekiq/check_in/travel_claim_submission_worker.rb:58-61 | the Oracle Health row is chosen exactly for a facility type `oh` in any case; nil is the check-in row |
| TravelClaimWorker.SameFacilityRule | modules/check_in/app/sidekiq/check_in/travel_claim_submission_worker.rb:44-104 | `downcase == 'oh'` and `casecmp?` pick the same facility for every input |
| TravelClaimWorker.ClaimNumberOf | modules/check_in/app/sidekiq/check_in/travel_claim_submission_worker.rb:56 | `last(4)` answers exactly for nil, a string and a list: nil stays nil, a string or list keeps its last four; any other value raises |
| TravelClaimWorker.ClaimNumberListSuffix | modules/check_in/app/sidekiq/check_in/travel_claim_submission_worker.rb:56 | a list claim number is answered by its last four items, or whole when shorter |
| TravelClaimWorker.ClaimNumberIsSuffix | modules/check_in/app/sidekiq/check_in/travel_claim_submission_worker.rb:56 | a claim number is answered by its last four characters, or whole when shorter |
| TravelClaimWorker.HandleResponse | modules/check_in/app/sidekiq/check_in/travel_claim_submission_worker.rb:55-87 | the response is handled exactly when its claim number and code can be read |
| TravelClaimWorker.HandleResponseTable | modules/check_in/app/sidekiq/check_in/travel_claim_submission_worker.rb:60-86 | the metric and template come from the same table row; the facility is the one named; success, duplicate and timeout codes get their rows and every other code is a failure |
| TravelClaimWorker.SubmitClaim | modules/check_in/app/sidekiq/check_in/travel_claim_submission_worker.rb:33-52 | exactly one BTSSS counter per submission; a claim number only from a handled response; a raise is a failure |
| TravelClaimWorker.SubmitClaimCountsOnce | modules/check_in/app/sidekiq/check_in/travel_claim_submission_worker.rb:33-52 | exactly one counter per submission, matching the template; a raise gives no claim number and the facility's error template |
| TravelClaimWorker.PhoneLastFour | modules/check_in/app/sidekiq/check_in/travel_claim_submission_worker.rb:92 | the last four of the phone's digits, or all of them when there are fewer |
| TravelClaimWorker.SendNotification | modules/check_in/app/sidekiq/check_in/travel_claim_submission_worker.rb:90-113 | raises exactly when there is no phone, no date or the SMS is refused; a raise with a phone reports the template and counts a notify error; otherwise exactly one SMS goes to the phone with the chosen template |
| TravelClaimWorker.Perform | modules/check_in/app/sidekiq/check_in/travel_claim_submission_worker.rb:12-31 | raises exactly as the notification does; notify success is counted exactly when nothing raised |
| TravelClaimWorker.PerformOutcome | modules/check_in/app/sidekiq/check_in/travel_claim_submission_worker.rb:12-123 | either the SMS goes out with the chosen template, claim number and facility sender, and success is counted; or the job raises after reporting the phone's last four and counting a notification error |
| ClaimValidator.ParticipantIds | modules/claims_api/lib/claims_api/v2/claims/claim_validator.rb:24-27 | no BGS claim, or no details entry, gives nil participant ids |
| ClaimValidator.VeteranIcn | modules/claims_api/lib/claims_api/v2/claims/claim_validator.rb:29-31 | the Lighthouse ICN is used exactly when the claim and its ICN are present |
| ClaimValidator.NotValidClaim | modules/claims_api/lib/claims_api/v2/claims/claim_validator.rb:23-38 | the check raises exactly when reading the details raises |
| ClaimValidator.Validate | modules/claims_api/lib/claims_api/v2/claims/claim_validator.rb:13-19 | ResourceNotFound exactly when the claim is not valid for the ICN, and success exactly when it is |
| ClaimValidator.ValidateAccepts | modules/claims_api/lib/claims_api/v2/claims/claim_validator.rb:33-45 | accepted exactly when the ICNs match (nil with nil), or both participant ids are present and one is the target veteran |
| ClaimValidator.MissingDetailsFailParticipantCheck | modules/claims_api/lib/claims_api/v2/claims/claim_validator.rb:23-45 | without claim details only the ICN match can accept |
| ClaimValidator.NilIcnWithoutLighthouseIcn | modules/claims_api/lib/claims_api/v2/claims/claim_validator.rb:29-33 | a request without an ICN is accepted for a claim with no Lighthouse ICN |
| ClaimValidator.BlankIcnNeverMatches | modules/claims_api/lib/claims_api/v2/claims/claim_validator.rb:29-33 | a blank Lighthouse ICN counts as none, so only the participant check can accept |
| DocumentService.BuildFileName | modules/claims_api/app/services/claims_api/document_service_base.rb:30-32 | the file name ends in `.pdf` |
| DocumentService.CompactBlankThree | modules/claims_api/app/services/claims_api/document_service_base.rb:31 | of the three file-name parts, exactly the present ones are kept, in order |
| DocumentService.BuildFileNameThree | modules/claims_api/app/services/claims_api/document_service_base.rb:30-32 | three present parts are joined in order by `_`, then `.pdf` |
| DocumentService.BuildFileNameSkipsBlank | modules/claims_api/app/services/claims_api/document_service_base.rb:30-32 | a nil or blank part in any position is dropped: the two present parts are joined by a single `_` |
| DocumentService.BuildFileNameOnePart | modules/claims_api/app/services/claims_api/document_service_base.rb:30-32 | with one present part, the name is that part and `.pdf` |
| Text.CompactBlankConcat | modules/claims_api/app/services/claims_api/document_service_base.rb:31 | `compact_blank` keeps each part's present entries in order, so it distributes over concatenation |
| Text.CompactBlankSnoc | modules/claims_api/app/services/claims_api/document_service_base.rb:31 | a further entry adds its value exactly when it is present |
| Text.CompactBlankOne | modules/claims_api/app/services/claims_api/document_service_base.rb:31 | a single entry survives exactly when it is present |
| DocumentService.CompactVeteranNameOne | modules/claims_api/app/services/claims_api/document_service_base.rb:26-28 | a missing or blank first name leaves just the last name |
| DocumentService.CompactVeteranNameTwo | modules/claims_api/app/services/claims_api/document_service_base.rb:26-28 | two present names are joined by one underscore |
| DocumentService.FileNameSplitsBack | modules/claims_api/app/services/claims_api/document_service_base.rb:30-32 | three present parts without underscores split back out of the file name |
| DocumentService.Body | modules/claims_api/app/services/claims_api/document_service_base.rb:36-47 | the body is a single `data` hash of at most seven entries |
| DocumentService.BuildBody | modules/claims_api/app/services/claims_api/document_service_base.rb:36-47 | the method's conditional assignments build exactly the specified body |
| DocumentService.FixedEntries | modules/claims_api/app/services/claims_api/document_service_base.rb:37-42 | the hash literal reads back its four entries and holds no identifier |
| DocumentService.SetUnlessNilOther | modules/claims_api/app/services/claims_api/document_service_base.rb:43-45 | a conditional assignment leaves every other key as it was |
| DocumentService.SetUnlessNilOwn | modules/claims_api/app/services/claims_api/document_service_base.rb:43-45 | the key is present exactly when the value is not nil, and reads the value |
| DocumentService.KeepsFixed | modules/claims_api/app/services/claims_api/document_service_base.rb:43-45 | an identifier assignment keeps the four fixed entries |
| DocumentService.BodyFixedEntries | modules/claims_api/app/services/claims_api/document_service_base.rb:36-47 | the body always has systemName, docType, fileName, and trackedItemIds (`[]` when blank) |
| DocumentService.BodyIdentifiers | modules/claims_api/app/services/claims_api/document_service_base.rb:43-45 | claimId, participantId and fileNumber are present exactly when given non-nil, the empty string included |
| DocumentService.GenerateUploadParameters | modules/claims_api/app/services/claims_api/document_service_base.rb:10-16 | the parameters body is built from the given values, with the BIRLS number as `fileNumber` |
| PoaRequestFind.IdPiecesOfComposite | modules/claims_api/app/models/claims_api/power_of_attorney_request/find.rb:8 | a `participant_proc` id splits back into its two pieces |
| PoaRequestFind.Wrap | modules/claims_api/app/models/claims_api/power_of_attorney_request/find.rb:28 | `Array.wrap`: nil is empty, a list stays, anything else is one entry |
| PoaRequestFind.FirstMatch | modules/claims_api/app/models/claims_api/power_of_attorney_request/find.rb:29-31 | a found entry is one of the entries and carries the proc id; a raise means some entry is neither a hash nor a string |
| PoaRequestFind.FirstMatchIsFirst | modules/claims_api/app/models/claims_api/power_of_attorney_request/find.rb:29-31 | the first matching entry among hashes and strings is the one found |
| PoaRequestFind.FirstMatchNone | modules/claims_api/app/models/claims_api/power_of_attorney_request/find.rb:29-31 | with no match among hashes and strings, nothing is found |
| PoaRequestFind.StringEntrySkipped | modules/claims_api/app/models/claims_api/power_of_attorney_request/find.rb:29-31 | a string entry never matches a proc id other than `procID` and is passed over |
| PoaRequestFind.FirstMatchOutcome | modules/claims_api/app/models/claims_api/power_of_attorney_request/find.rb:29-34 | over hashes and strings, nothing is found exactly when none matches; otherwise the first match |
| PoaRequestFind.FirstIndex | modules/claims_api/app/models/claims_api/power_of_attorney_request/find.rb:29-31 | any matching index has a first matching index at or before it |
| PoaRequestFind.Perform | modules/claims_api/app/models/claims_api/power_of_attorney_request/find.rb:7-37 | a found request carries the id's proc id; an unreadable list comes only from a reply with an entry that is neither hash nor string; a fault is never reported as unreadable |
| PoaRequestFind.FaultsMapped | modules/claims_api/app/models/claims_api/power_of_attorney_request/find.rb:20-25 | a NO_RECORD_FOUND fault becomes RecordNotFound for the id; any other fault is re-raised unchanged |
| PoaRequestFind.AsksForParticipant | modules/claims_api/app/models/claims_api/power_of_attorney_request/find.rb:17-19 | only the id's participant is asked about |
| PoaRequestFind.ReplyOutcome | modules/claims_api/app/models/claims_api/power_of_attorney_request/find.rb:28-36 | RecordNotFound exactly when no listed request has the proc id; otherwise the first one that does |
| PoaDecision.StatusesPartition | modules/claims_api/app/models/claims_api/power_of_attorney_request/decision.rb:13-59 | never both accepted and declined; one of them exactly when the status is in `Statuses::ALL` |
| PoaDecision.Build | modules/claims_api/app/models/claims_api/power_of_attorney_request/decision.rb:29-33 | the caller's attributes lose `representative`, whatever happens next |
| PoaDecision.BuildStampsNow | modules/claims_api/app/models/claims_api/power_of_attorney_request/decision.rb:29-51 | a built decision is stamped with the current time and carries the given status, reason and representative |
| PoaDecision.BuildDeletesRepresentative | modules/claims_api/app/models/claims_api/power_of_attorney_request/decision.rb:30-33 | `representative` is removed and every other attribute kept |
| PoaDecision.BuildNeedsRepresentative | modules/claims_api/app/models/claims_api/power_of_attorney_request/decision.rb:30-33 | without a representative hash nothing is built |
| TravelPayClaims.FilterOn | modules/travel_pay/app/services/travel_pay/claims_service.rb:25-28 | the kept claims are no more than the claims, and each is on the date |
| TravelPayClaims.FilterOnComplete | modules/travel_pay/app/services/travel_pay/claims_service.rb:25-28 | every claim on the date is kept |
| TravelPayClaims.FilterOnAppend | modules/travel_pay/app/services/travel_pay/claims_service.rb:25-28 | the filter goes claim by claim, so order is kept |
| TravelPayClaims.FilterByDate | modules/travel_pay/app/services/travel_pay/claims_service.rb:21-35 | a blank date or an unparsable filter date returns the claims unchanged |
| TravelPayClaims.FilterByDateOutcome | modules/travel_pay/app/services/travel_pay/claims_service.rb:23-34 | with a parsed date: only claims on that date, or the whole list when a claim date fails to parse |
| TravelPayClaims.Restatus | modules/travel_pay/app/services/travel_pay/claims_service.rb:13 | rewriting succeeds exactly when the status is a string |
| TravelPayClaims.RestatusOnlyStatus | modules/travel_pay/app/services/travel_pay/claims_service.rb:13-14 | only the status changes, to its display form |
| TravelPayClaims.GetClaims | modules/travel_pay/app/services/travel_pay/claims_service.rb:5-17 | `{data: claims}` holds the filtered claims in order, each with its status rewritten; a filter raise propagates |
| ProfileService.IcnWithAaid | lib/va_profile/profile_information/service.rb:118-123 | an identifier exists exactly when the user has either uuid |
| ProfileService.IcnWithAaidSource | lib/va_profile/profile_information/service.rb:118-123 | the ID.me uuid wins, with its suffix; otherwise the Login.gov uuid with its suffix |
| ProfileService.IcnPresentIffUuid | lib/va_profile/profile_information/service.rb:118-127 | the presence check passes exactly when the user has either uuid |
| ProfileService.PathSplits | lib/va_profile/profile_information/service.rb:129-131 | the path is the OID, a slash and the encoded identifier |
| ProfileService.GetResponse | lib/va_profile/profile_information/service.rb:42-66 | a handled missing-identifier error exactly when the user has no uuid; a person response only for a 400-499 status; a built response carries the fetched body |
| ProfileService.GetResponseClientErrors | lib/va_profile/profile_information/service.rb:51-63 | a client error is a person response with its own status exactly for 400-499, and nil otherwise |
| ProfileService.GetResponseAsksPath | lib/va_profile/profile_information/service.rb:42-50 | without a uuid no request is made; otherwise only the answer for the user's path matters |
| ProfileService.ReassignHttpVerb | lib/va_profile/profile_information/service.rb:141-148 | a nil attr raises; otherwise PUT exactly when the cache has an id for the attr, else POST |
| ProfileService.ChosenVerb | lib/va_profile/profile_information/service.rb:84 | `:update` is always reassigned; other verbs are kept |
| ProfileService.UpdatePath | lib/va_profile/profile_information/service.rb:85 | the path fails exactly when there is neither a permission type nor an attr |
| ProfileService.CreateOrUpdate | lib/va_profile/profile_information/service.rb:80-99 | an OldEmail is recorded only for a successful write |
| ProfileService.OldEmailRule | lib/va_profile/profile_information/service.rb:88-94 | an OldEmail is recorded exactly for a PUT of an e-mail record with a present profile e-mail and a received transaction, and it is that e-mail |
| ProfileService.WriteRequest | lib/va_profile/profile_information/service.rb:84-87 | an `:update` write sends the reassigned verb to the update path |
| ProfileService.PostKeepsNoOldEmail | lib/va_profile/profile_information/service.rb:88 | a POST records no OldEmail |
| ProfileService.Personalisation | lib/va_profile/profile_information/service.rb:150-152 | `{contact_info: label}`; the label is a string exactly for a known field |
| ProfileService.Notify | lib/va_profile/profile_information/service.rb:154-171 | the intended rule: a pass that does anything marks a transaction not marked before and queues e-mail |
| ProfileService.NotifyOutcome | lib/va_profile/profile_information/service.rb:154-171 | under the intended rule, a pass happens exactly when the transaction is not completed, not yet notified and has an address; it marks the transaction, queues the old (and for an e-mail change the new) address and drops the OldEmail row |
| ProfileService.NotifyAtMostOnce | lib/va_profile/profile_information/service.rb:154-171 | under the intended rule, once a transaction has been notified a later pass changes nothing |
| ProfileService.NotifyAsWritten | lib/va_profile/profile_information/service.rb:154-171 | the code as written: an e-mail-change transaction that is neither completed nor notified raises ArgumentError; otherwise at most one e-mail is queued and no OldEmail row is touched |
| ProfileService.NotifyAsWrittenAgrees | lib/va_profile/profile_information/service.rb:157-166 | whenever the code as written does not raise, it does what the intended rule does |
| ProfileService.EmailChangeRaises | lib/va_profile/profile_information/service.rb:159-160 | a pending e-mail change raises in the code as written, where the intended rule queues two e-mails and drops the OldEmail row |
| ProfileService.NotifyAsWrittenAtMostOnce | lib/va_profile/profile_information/service.rb:157 | the code as written also never notifies a transaction twice |
| ProfileService.Service.constructor | lib/va_profile/profile_information/service.rb:37-40 | the service starts for the user over the given rows |
| ProfileService.Service.SendChangeNotifications | lib/va_profile/profile_information/service.rb:154-171 | the rows and queued e-mails become exactly what the code as written gives, and its ArgumentError is returned |
| ProfileService.Service.CreateOrUpdateInfo | lib/va_profile/profile_information/service.rb:80-99 | returns the write's result, records the OldEmail its rule asks for, and touches nothing else |
| ProfileService.Service.GetTransactionStatus | lib/va_profile/profile_information/service.rb:101-114 | no identifier or failed request is a handled error; notifications are sent only when the model answers true to `send_change_notifcations?`, and their ArgumentError becomes a handled error |
| Person.MapBuild | lib/va_profile/models/person.rb:40-43 | one built element per item, in order |
| Person.Collection | lib/va_profile/models/person.rb:40-53 | a nil collection is empty, a list keeps its length, and anything else raises |
| Person.BuildFromNil | lib/va_profile/models/person.rb:38-39 | a nil body builds the same person as `{}` |
| Person.BuildFromFields | lib/va_profile/models/person.rb:40-55 | the renames create_date, update_date and trx_audit_id; source_date and vet360_id are copied; collections built in order |
| Person.TransactionStatusPath | lib/va_profile/models/person.rb:70-72 | the path starts with `status/` |
| Person.TransactionStatusPathId | lib/va_profile/models/person.rb:70-72 | the path ignores the user and reads back the id |
| Person.PersonUpdateRaises | lib/va_profile/models/person.rb:78-80 | an `:update` of a person raises because its attr is nil |
| Veteran.LookupFirstName | modules/va_notify/app/models/va_notify/veteran.rb:50-58 | a not-ok profile is an MPIError; a name exactly for an ok profile with given names, and then the first one |
| Veteran.FirstNameUnsupported | modules/va_notify/app/models/va_notify/veteran.rb:19-29 | UnsupportedForm, naming the form and record, exactly for a form id outside the three |
| Veteran.FirstNameSources | modules/va_notify/app/models/va_notify/veteran.rb:19-29 | MPI is asked only for 21-526EZ; the form data are read only for the other two |
| Veteran.FirstName | modules/va_notify/app/models/va_notify/veteran.rb:18-29 | a name only for the three form ids; for 686C-674 and 1010ez only from form data that is a hash; for 21-526EZ always a string |
| Veteran.DigName | modules/va_notify/app/models/va_notify/veteran.rb:21-23 | `dig` answers exactly on a hash, and then gives what the path reads |
| Veteran.NonHashFormDataRaises | modules/va_notify/app/models/va_notify/veteran.rb:21-23 | form data that is not a hash makes `first_name` raise for 686C-674 and 1010ez |
| Veteran.DependentsFirstName | modules/va_notify/app/models/va_notify/veteran.rb:20-21 | for 686C-674 the name is `veteran_information.full_name.first` |
| Veteran.Verified | modules/va_notify/app/models/va_notify/veteran.rb:41-43 | verified only for a form with an account that has an ICN |
| Veteran.VerifiedNeedsAccount | modules/va_notify/app/models/va_notify/veteran.rb:13-44 | verified exactly when the form has an account whose ICN is not blank |
| HlrStructure.MainFormIssues | modules/appeals_api/app/services/appeals_api/pdf_construction/higher_level_review/v2/structure.rb:129-134 | at most 13 issues, a prefix of the list; additional pages exactly when some issue is left off |
| HlrStructure.DecisionDate | modules/appeals_api/app/services/appeals_api/pdf_construction/higher_level_review/v2/structure.rb:137 | a date only from a hash or string issue; for a hash issue with hash attributes, exactly the parse of a string `decisionDate`, else none |
| HlrStructure.StringIssueHasNoDate | modules/appeals_api/app/services/appeals_api/pdf_construction/higher_level_review/v2/structure.rb:137 | a string issue never yields a date |
| HlrStructure.FillFrom | modules/appeals_api/app/services/appeals_api/pdf_construction/higher_level_review/v2/structure.rb:133-143 | filling succeeds exactly when every issue from the start index has a readable date |
| HlrStructure.FillContestableIssues | modules/appeals_api/app/services/appeals_api/pdf_construction/higher_level_review/v2/structure.rb:133-143 | the method fills exactly what the fill function gives for the main-form issues |
| HlrStructure.ThreeNames | modules/appeals_api/app/services/appeals_api/pdf_construction/higher_level_review/v2/structure.rb:136 | three distinct names means month, day and year fields differ |
| HlrStructure.FillKeepsOther | modules/appeals_api/app/services/appeals_api/pdf_construction/higher_level_review/v2/structure.rb:135-142 | filling leaves every non-date entry as it was |
| HlrStructure.LaterFieldsDiffer | modules/appeals_api/app/services/appeals_api/pdf_construction/higher_level_review/v2/structure.rb:136 | with distinct field names, later issues never write this issue's fields |
| HlrStructure.FillWritesDate | modules/appeals_api/app/services/appeals_api/pdf_construction/higher_level_review/v2/structure.rb:135-141 | each issue's fields end up with its decision date as `%m`, `%d` and `%Y` |
| HlrStructure.AddressOnFile | modules/appeals_api/app/services/appeals_api/pdf_construction/higher_level_review/v2/structure.rb:28-34 | the street reads `USE ADDRESS ON FILE` and the other address fields are empty |
| HlrStructure.InsertOverlaidPages | modules/appeals_api/app/services/appeals_api/pdf_construction/higher_level_review/v2/structure.rb:86-88 | the fill path is returned unchanged |
| HlrStructure.Structure.constructor | modules/appeals_api/app/services/appeals_api/pdf_construction/higher_level_review/v2/structure.rb:11-13 | a structure starts with no additional-pages document |
| HlrStructure.Structure.AddAdditionalPages | modules/appeals_api/app/services/appeals_api/pdf_construction/higher_level_review/v2/structure.rb:90-98 | nil when the issues fit; otherwise the document made on the first call, returned on every later one |
| Form686c.FormAddressKeys | app/models/form_profiles/va_686c674v2.rb:43-54 | the form address has exactly the listed attributes the address has, plus `country_name`, which is the ISO-3 code |
| Form686c.PrefilledAddressCases | app/models/form_profiles/va_686c674v2.rb:34-41 | an address is set exactly when there is a vet360 id and the lookup found one; without an id, the lookup is irrelevant |
| Form686c.VaFileNumberLastFour | app/models/form_profiles/va_686c674v2.rb:57-62 | an answer exactly when the file number or the SSN is present |
| Form686c.LastFourOfChosen | app/models/form_profiles/va_686c674v2.rb:59-61 | at most four characters, ending the file number (or the SSN when there is none), and four when it is long enough |
| Form686c.Profile.constructor | app/models/form_profiles/va_686c674v2.rb:16 | a profile starts without a form address |
| Form686c.Profile.Prefill | app/models/form_profiles/va_686c674v2.rb:18-55 | the form address is set exactly as the prefill rule says, else kept |
| VaosBaseService.Referrer | modules/vaos/app/services/vaos/base_service.rb:24-30 | always `https://`; any host outside `.gov` gets the review-instance referrer |
| VaosBaseService.GovReferrer | modules/vaos/app/services/vaos/base_service.rb:25-26 | for a `.gov` host: the scheme, then the host with every `vets` turned into `va` |
| VaosBaseService.GovReferrerKeepsHost | modules/vaos/app/services/vaos/base_service.rb:25-26 | a `.gov` host without `v` is kept as it is |
| VaosBaseService.BaseVaosRoute | modules/vaos/app/services/vaos/base_service.rb:32-38 | the alternate route exactly when the flag is on |
| DeviceRecords.MatchIndex | modules/dhp_connected_devices/app/services/veteran_device_records_service.rb:7 | `find_by` gives the first row for the veteran and device, or none |
| DeviceRecords.MatchIndexIs | modules/dhp_connected_devices/app/services/veteran_device_records_service.rb:7 | the first matching row is the one found |
| DeviceRecords.UpsertOutcome | modules/dhp_connected_devices/app/services/veteran_device_records_service.rb:6-8 | afterwards an active row for the pair exists; an existing row is reused and nothing else changes; only a missing one is appended |
| DeviceRecords.UpsertIdempotent | modules/dhp_connected_devices/app/services/veteran_device_records_service.rb:6-8 | activating twice leaves the same rows as activating once |
| DeviceRecords.Service.constructor | modules/dhp_connected_devices/app/services/veteran_device_records_service.rb:3 | the service starts over the given devices and rows |
| DeviceRecords.Service.DeviceFor | modules/dhp_connected_devices/app/services/veteran_device_records_service.rb:5 | a device exactly for a known key |
| DeviceRecords.Service.CreateOrActivate | modules/dhp_connected_devices/app/services/veteran_device_records_service.rb:4-9 | the rows become exactly the upsert of the old rows |

## Left out

- Each reconciler run reads one clock value. The source reads the clock afresh for each claim and each secondary form.
- The reconciler's stored JSON columns are kept decoded as hashes. A column holding JSON that is not a hash, and `metadata_updated_at` / `status_updated_at`, are not modelled.
- ScStatusUpdater.ExtractUploads: a stored `uploads` list with an entry that is not a hash is treated as a raise. In Ruby, a string entry is indexed under `"id"` or nil and raises only if `dig` later reaches it. An empty hash under `uploads` is modelled as no uploads, as `index_by` gives `{}`.
- The reconciler's `sc.update` (which would return false) and `form.update!` (which would raise) are assumed to succeed; a database error while saving is not modelled.
- Sidekiq options (no retry, uniqueness window) and log-line texts are not modelled. Metrics keep their names and tags as event values.
- ActiveSupport inflections are function parameters: `camelcase(:lower)`, `underscore.titleize` and `pluralize`. So are `ERB::Util.url_encode`, `Date.parse` and `DateTime.strptime`/`strftime('%b %d')`. Only the zero padding of `strftime('%m')`, `('%d')` and `('%Y')` is written out.
- `blank?`/`present?` treat only ASCII spaces as blank. `casecmp?`/`downcase` fold ASCII letters only.
- FsrUtils: `dollars_cents` and `format_number` are floating-point formatting and are not modelled. `str_to_num` on a Float is not modelled: numbers are integers.
- FsrUtils.CamelizedHashPointwise: stated for key maps that keep keys apart. With colliding camelized keys the function still follows Ruby's overwrite-in-place, but no lemma describes it.
- IVC uploads: `submit`'s PDF filling, metadata validation, file upload and tracing are not modelled. Neither are `submit_supporting_documents` (record persistence) and `authenticate`. The form class constants are a parameter. The applicant count is rounded up with integers, which is exact for the non-negative counts that arise.
- TravelClaimWorker: the response codes, metric names, template ids and SMS sender ids are defined outside the model. They are symbolic values or a parameter. Redis, the BTSSS call and VA Notify are inputs.
- DocumentService: the tempfile and `Faraday::UploadIO` parts of `generate_upload_body` are not modelled, only its `parameters` body.
- PoaRequestFind: the BGS request XML and `Load.perform` are not modelled. The loaded request is the matching entry itself.
- PoaDecision: `find` and `create` delegate to Find and Create. Create is not part of this model.
- TravelPayClaims: the client call is an input. `deep_dup` is implicit, because values are immutable.
- ProfileService: several things are abstract:
  - `with_monitoring`, `handle_error` and Sentry are a handled error value;
  - the response classes are the raw answer;
  - the MPI root OID is a parameter;
  - `VAProfile::Stats` is not modelled.
- ProfileService: the `record.id` assignment inside `reassign_http_verb` is not modelled. Neither is the request payload (`in_json`).
- ProfileService: `submit` and `get_person` are not modelled; they only forward to the configuration and `get_response`.
- ProfileService: `old_email` reads the OldEmail table only when given a transaction id. A missing OldEmail row is nil.
- ProfileService.Service.GetTransactionStatus: the model class's answer to the misspelled `send_change_notifcations?` is an input. None stands for a model class on which the status call raises before any notification, which is then a handled error. For Person this happens one line earlier: `transaction_response_class` is an instance method (lib/va_profile/models/person.rb:66), so `model.transaction_response_class` raises at service.rb:106. The outcome is the same handled error.
- Person: a collection that is present but not a list (where Ruby's `map` might still respond) is treated as a raise. The nested models' own `build_from` are parameters.
- Veteran: `form_data` is kept decoded, so the `JSON::ParserError` of a form whose JSON does not parse is not modelled. The MPI service is an input. `first_name` and `icn` memoisation is not modelled, because each call gives the same value.
- HlrStructure: `FormFields`/`FormData`, the other `form_fill` entries, the Prawn document, `final_page_adjustments` and `stamp` (PDF and clock) are not modelled. The decision-date field names are a parameter.
- Form686c: the generic `FormProfile` prefill that `prefill` calls afterwards is not modelled. The BGS people request is an input.
- VaosBaseService: the hostname setting and the feature flag are inputs.
- DeviceRecords: model validations are not modelled; `update!` is assumed to succeed. The device table is a map from key to device.

## Findings

| source | as written | input that shows it | evidently intended | confidence | as-written member | corrected member |
|---|---|---|---|---|---|---|
| lib/va_profile/profile_information/service.rb:160 | `old_email(transaction_id)` passes the id positionally to `def old_email(transaction_id: nil)` (line 133), whose only parameter is a keyword, so the call raises ArgumentError | a transaction status with a present `new_email` whose transaction is neither completed nor already notified | look up the OldEmail row for the transaction, notify the old and the new address, and destroy the OldEmail row | not executed | ProfileService.EmailChangeRaises | ProfileService.Notify |
