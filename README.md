# Report Improvements search layer — a verified model

This project models the search layer of the SV Report Improvements add-on for XenForo. It
also models two pieces of entity state logic beside it.

The three search handlers are `report`, `report_comment` and `warning_log`, plus the
ticket-message report handler.
- Each turns an entity into an index record with a metadata map.
- Each declares the typed metadata fields of its content type.
- The comment and warning handlers compile the advanced search form's filters into a
  list of metadata constraints on the query. The constraints are `Meta`, `MetaNone`,
  `Exists`, `Not`, `And` and `Or`. Compiling also sets the URL constraint set and
  records query errors.
- `Constraints.Holds` gives each constraint its meaning on a record's metadata. The
  lemmas state what a filter keeps in those terms.

The backend tier (Elasticsearch or MySQL) is the boolean `elastic`.

Around the search layer sit the report commenter's rules and the comment editor's
edit-history bookkeeping:
- the commenter's rules are the last-modified stamp, the assignee restore, the alert
  flag and the user list published for notifications;
- each `parent::` call of the framework is an arbitrary transition passed in as a
  function.

Modules:
- `Common` holds PHP value semantics: truthiness, the `+=` array merge, `array_unique`,
  and URL constraint updates.
- `Entities` holds the entity records and `Constraints` holds the query. The query is a
  class whose methods append constraints and errors.
- `Schema` holds the metadata structure registry and the three setup methods.
- The data side is `ReportData`, `ReportCommentData`, `WarningLogData` and
  `TicketMessage`.
- The filter compilers are `ReportCommentFilters` and `WarningLogFilters`.
  `SearchImprovements` holds the helpers they call from the search add-on's
  repository.
- `ContentRange` holds the warning log cursor fetch and an indexing loop over it.
- `ReportCommenter` and `ReportCommentManager` hold the two services.

The code behaves as follows where a reader might expect otherwise:
- An unknown report state records an error. The `c.report.state` URL entry is then left
  as it was, not removed (ReportComment.php:304-318).
- An empty report type selection leaves the `c.report.type` URL entry as it was.
- Selecting every report state is not treated as "no filter". Only the is_report flags
  and the warning types have that rule.
- In the warning type filter, repeated values count towards the number of known types.
  Selecting one type as often as there are known types therefore adds no constraint
  (`WarningLogFilters.RepeatedTypeCountsAsAll`).

## Model

| member | source | states |
|---|---|---|
| Common.DedupProperties | upload/src/addons/SV/ReportImprovements/Search/Data/ReportComment.php:304 | `array_unique` keeps each value once, loses none and adds none |
| Common.AddMissing | upload/src/addons/SV/ReportImprovements/Search/Data/WarningLog.php:172-181 | the `+=` merge keeps every key already present with its value and adds only the missing ones |
| Schema.MetadataStructure.AddField | upload/src/addons/SV/ReportImprovements/Search/Data/Report.php:157-163 | addField declares one field with its kind and leaves the others |
| Schema.SetupReportStructure | upload/src/addons/SV/ReportImprovements/Search/Data/Report.php:155-164 | the registry gains exactly the six report fields with their kinds |
| Schema.SetupReportCommentStructure | upload/src/addons/SV/ReportImprovements/Search/Data/ReportComment.php:237-257 | the registry gains report_user, then the report handlers' fields, then the comment's own fields, then the discussion fields, in the code's order, so the discussion kinds win |
| Schema.SetupWarningLogStructure | upload/src/addons/SV/ReportImprovements/Search/Data/WarningLog.php:232-244 | the registry gains the report search fields, the discussion fields and the warning fields |
| Schema.CommentDeclarations | upload/src/addons/SV/ReportImprovements/Search/Data/ReportComment.php:248-256 | the comment's own declarations amount to the ReportCommentFields table |
| Schema.WarningDeclarations | upload/src/addons/SV/ReportImprovements/Search/Data/WarningLog.php:238-243 | the warning declarations amount to the WarningLogFields table |
| Schema.SharedFieldsAgree | upload/src/addons/SV/ReportImprovements/Search/Data/Report.php:155-164 | the fields report and comment share (report, report_state, report_content_type, assigned_user, is_report) have the same kind in both |
| Schema.WarningFieldsAreNew | upload/src/addons/SV/ReportImprovements/Search/Data/WarningLog.php:238-243 | no warning field clashes with a report or comment field |
| ReportData.EntityWith | upload/src/addons/SV/ReportImprovements/Search/Data/Report.php:57-68 | empty unless for view, and then exactly the one Permissions relation for the visitor's combination |
| ReportData.GetMetaData | upload/src/addons/SV/ReportImprovements/Search/Data/Report.php:121-137 | is_report is 2; report, state, assignee and content type are copied; thread is present iff content_info has thread_id |
| ReportData.GetIndexData | upload/src/addons/SV/ReportImprovements/Search/Data/Report.php:83-115 | none iff the content or its handler is missing; an \\Exception from the content message is logged and gives an empty message, an \\Error propagates; discussion id is the report id, date the first report date, user the content user |
| ReportData.MetaDataConformsToSchema | upload/src/addons/SV/ReportImprovements/Search/Data/Report.php:121-164 | a report's metadata has the kinds Report declares |
| TicketMessage.SetupReportEntityContent | upload/src/addons/SV/ReportImprovements/NF/Tickets/Report/Message.php:21-31 | content_info gains message_date and ticket_status_id; every other key is kept |
| TicketMessage.GetContentDate | upload/src/addons/SV/ReportImprovements/NF/Tickets/Report/Message.php:33-51 | as written: no date when the content is gone; otherwise the content's date, written back into content_info |
| TicketMessage.GetCachedContentDate | upload/src/addons/SV/ReportImprovements/NF/Tickets/Report/Message.php:33-51 | as intended: a cached date is returned untouched, otherwise as above |
| TicketMessage.CachedDateIsIgnored | upload/src/addons/SV/ReportImprovements/NF/Tickets/Report/Message.php:35 | a report whose content is gone but whose date is cached gets no date as written, and the cached date as intended |
| TicketMessage.PopulateMetaData | upload/src/addons/SV/ReportImprovements/NF/Tickets/Report/Message.php:72-92 | ticket, ticketcat and ticket_status are added only when their content_info source is present; no other key is removed or changed |
| ReportCommentData.OrphanCommentsAreHidden | upload/src/addons/SV/ReportImprovements/Search/Data/ReportComment.php:69-75 | a comment without a report cannot be viewed |
| ReportCommentData.EntityWith | upload/src/addons/SV/ReportImprovements/Search/Data/ReportComment.php:122-133 | Report, User and WarningLog, plus the visitor's Report.Permissions when for view |
| ReportCommentData.GetMessage | upload/src/addons/SV/ReportImprovements/Search/Data/ReportComment.php:172-182 | the comment text, then the alert comment on a new line when there is one |
| ReportCommentData.GetMetaData | upload/src/addons/SV/ReportImprovements/Search/Data/ReportComment.php:184-215 | the discussion entries win; own entries as in the code; assigner and assignee ids appear only when non-zero; is_report is 1 or 0; under the ticket-message handler, ticket, ticketcat and ticket_status appear exactly when ticket_id, category_id and ticket_status_id are cached, with those values, and never under another handler; the result has the declared kinds |
| ReportCommentData.GetIndexDataAsWritten | upload/src/addons/SV/ReportImprovements/Search/Data/ReportComment.php:141-170 | as written: the warning handler's record when there is a warning log, none without a report, otherwise a TypeError |
| ReportCommentData.PlainCommentRaises | upload/src/addons/SV/ReportImprovements/Search/Data/ReportComment.php:164 | every comment with a report and no warning log raises the TypeError |
| ReportCommentData.GetIndexData | upload/src/addons/SV/ReportImprovements/Search/Data/ReportComment.php:141-170 | as intended: delegation to the warning handler; none iff no report; discussion id is the report id; the message is GetMessage of the comment |
| ReportCommentData.CommentCodesDifferFromReports | upload/src/addons/SV/ReportImprovements/Search/Data/ReportComment.php:192 | a comment's is_report is 0 or 1, never the 2 a report carries |
| WarningLogData.EntityWith | upload/src/addons/SV/ReportImprovements/Search/Data/WarningLog.php:116-127 | the comment's Report and User, plus its report's Permissions when for view |
| WarningLogData.GetMetaData | upload/src/addons/SV/ReportImprovements/Search/Data/WarningLog.php:168-209 | the merge never overwrites report or discussion keys; expiry_date, points (on warning_id), thread_reply_ban and post_reply_ban appear iff their source is truthy; is_latest_version is only ever true |
| WarningLogData.WarningFieldsConformToSchema | upload/src/addons/SV/ReportImprovements/Search/Data/WarningLog.php:168-244 | every warning field of the metadata has the declared kind |
| WarningLogData.GetIndexData | upload/src/addons/SV/ReportImprovements/Search/Data/WarningLog.php:135-158 | none iff the add-on is inactive or the comment or its report is missing; date, user and discussion id come from the comment |
| WarningLogData.SortOrdersAreIntegerFields | upload/src/addons/SV/ReportImprovements/Search/Data/WarningLog.php:267-277 | the added sort orders are declared integer fields, and there are none on MySQL |
| ReportCommentFilters.ReportUserIsNeverFiltered | upload/src/addons/SV/ReportImprovements/Search/Data/ReportComment.php:262-277 | `c.report_user` is not among the filtered inputs its user helper reads |
| ReportCommentFilters.SetCodesProperties | upload/src/addons/SV/ReportImprovements/Search/Data/ReportComment.php:279-293 | the codes of the set flags, in table order, none when no flag is set and all when every flag is |
| ReportCommentFilters.IsReportStepLaw | upload/src/addons/SV/ReportImprovements/Search/Data/ReportComment.php:279-298 | is_report is constrained iff between one and four of the five flags are set; its codes are exactly those of the set flags, ascending |
| ReportCommentFilters.IsReportFilterMeaning | upload/src/addons/SV/ReportImprovements/Search/Data/ReportComment.php:279-298 | a record with code c passes iff flag c was selected |
| ReportCommentFilters.CollectIsReportCodes | upload/src/addons/SV/ReportImprovements/Search/Data/ReportComment.php:279-293 | the foreach collects exactly the set flags' codes |
| ReportCommentFilters.BadStatesMembers | upload/src/addons/SV/ReportImprovements/Search/Data/ReportComment.php:306-309 | the bad states are exactly the selected values that are not state keys |
| ReportCommentFilters.StateStepOmitted | upload/src/addons/SV/ReportImprovements/Search/Data/ReportComment.php:300-323 | an empty selection or one holding '0' adds nothing and removes `c.report.state` |
| ReportCommentFilters.StateStepRejected | upload/src/addons/SV/ReportImprovements/Search/Data/ReportComment.php:304-313 | an unknown state records one error on report.state naming the bad values; neither the query nor the URL gets the filter |
| ReportCommentFilters.StateStepAccepted | upload/src/addons/SV/ReportImprovements/Search/Data/ReportComment.php:304-317 | known states add one constraint a record passes iff its state is selected; the deduplicated states go to the URL |
| ReportCommentFilters.PutProperties | upload/src/addons/SV/ReportImprovements/Search/Data/ReportComment.php:347-353 | `$types[$k] =` keeps the key order and replaces or appends |
| ReportCommentFilters.BuildTypesProperties | upload/src/addons/SV/ReportImprovements/Search/Data/ReportComment.php:336-355 | the type keys are the deduplicated selection, each with its nested handler's constraints |
| ReportCommentFilters.LimitedTierRejectsSeveralTypes | upload/src/addons/SV/ReportImprovements/Search/Data/ReportComment.php:383-386 | on MySQL (the tier test at lines 330-334), several types record an error on `c.report.type`, add nothing and remove the URL entry |
| ReportCommentFilters.AlternativesMeaning | upload/src/addons/SV/ReportImprovements/Search/Data/ReportComment.php:362-369 | a record passes the Or iff it has one of the types and passes that type's nested constraints |
| ReportCommentFilters.BuildTypesMeaning | upload/src/addons/SV/ReportImprovements/Search/Data/ReportComment.php:336-369 | the alternatives built from a selection are satisfied exactly by the selected types' records |
| ReportCommentFilters.SeveralTypes | upload/src/addons/SV/ReportImprovements/Search/Data/ReportComment.php:357-381 | several types add exactly one Or, one branch per distinct type; the URL gets the types; `$constraints` is overwritten |
| ReportCommentFilters.SingleType | upload/src/addons/SV/ReportImprovements/Search/Data/ReportComment.php:371-381 | one type adds its report_content_type equality and its nested constraints; the URL gets that type |
| ReportCommentFilters.DedupOfRepeats | upload/src/addons/SV/ReportImprovements/Search/Data/ReportComment.php:338-355 | a selection of one repeated type deduplicates to that type |
| ReportCommentFilters.ApplyReportTypes | upload/src/addons/SV/ReportImprovements/Search/Data/ReportComment.php:325-387 | the type part's effect is TypeStep |
| ReportCommentFilters.CompileTypes | upload/src/addons/SV/ReportImprovements/Search/Data/ReportComment.php:336-355 | compiling nested filters leaves the outer query's constraints exactly as before; the nested URL changes are lost |
| ReportCommentFilters.BuildAlternatives | upload/src/addons/SV/ReportImprovements/Search/Data/ReportComment.php:361-368 | the foreach builds one And per type |
| ReportCommentFilters.HelpersInputs | upload/src/addons/SV/ReportImprovements/Search/Data/ReportComment.php:388-406 | with several types the helpers get the array overwritten at line 361, which has no filter keys; otherwise they get the filtered inputs, without `c.report_user` |
| ReportCommentFilters.ApplyTypeConstraintsFromInput | upload/src/addons/SV/ReportImprovements/Search/Data/ReportComment.php:260-407 | the query gains the is_report, state, type and helper constraints and errors in that order; the URL set is the one Compile leaves |
| ReportCommentFilters.PermissionMeaning | upload/src/addons/SV/ReportImprovements/Search/Data/ReportComment.php:415-435 | postings disabled hides type=report; otherwise a visitor who cannot see reporters loses is_report=1; otherwise nothing |
| ReportCommentFilters.ReporterGate | upload/src/addons/SV/ReportImprovements/Search/Data/ReportComment.php:415-435 | under the reporter gate a comment passes iff it is not a user report, and every report record passes |
| ReportCommentFilters.PostingsGate | upload/src/addons/SV/ReportImprovements/Search/Data/ReportComment.php:416-421 | with report search kept out of account postings, every report record is rejected and every record of another content type passes, reading `type` as the record's content type |
| ReportCommentFilters.TypeOrder | upload/src/addons/SV/ReportImprovements/Search/Data/ReportComment.php:489-510 | an order is handled iff Elasticsearch is in use and it is 'replies', and then by that order then date |
| WarningLogFilters.LatestTriState | upload/src/addons/SV/ReportImprovements/Search/Data/WarningLog.php:324-338 | true requires is_latest_version, false forbids it, no value adds nothing and removes `c.warning.latest` |
| WarningLogFilters.LatestSelectsVersions | upload/src/addons/SV/ReportImprovements/Search/Data/WarningLog.php:324-338 | on a warning log's record (its flag set at lines 204-206) the latest filter keeps exactly the matching versions |
| WarningLogFilters.KnownTypesMembers | upload/src/addons/SV/ReportImprovements/Search/Data/WarningLog.php:343-351 | the kept values are exactly the selected known types |
| WarningLogFilters.KeepKnownTypes | upload/src/addons/SV/ReportImprovements/Search/Data/WarningLog.php:343-351 | the foreach keeps the known values in order, duplicates included |
| WarningLogFilters.WarningTypeLaw | upload/src/addons/SV/ReportImprovements/Search/Data/WarningLog.php:340-366 | a warning_type constraint and URL entry appear iff 0 < kept < known; a record passes iff its type is a selected known type; otherwise the entry is removed |
| WarningLogFilters.RepeatedTypeCountsAsAll | upload/src/addons/SV/ReportImprovements/Search/Data/WarningLog.php:353 | a repeated selection counts towards the known-type total |
| WarningLogFilters.ExpiryBounds | upload/src/addons/SV/ReportImprovements/Search/Data/WarningLog.php:376-404 | active gives [now, open), expired [0, now], date keeps the user's bounds, anything else [0, open); only never-expires adds a constraint and only an unknown type clears `c.warning.expiry_type` |
| WarningLogFilters.NeverExpiresSelectsOpenEnded | upload/src/addons/SV/ReportImprovements/Search/Data/WarningLog.php:383-387 | active_never_expires keeps exactly the warning logs without an expiry date (the key is set only when non-zero, lines 183-186) |
| WarningLogFilters.CommentFiltersFirst | upload/src/addons/SV/ReportImprovements/Search/Data/WarningLog.php:309 | the report_comment compiler's constraints and errors come first, and the warning part starts from its URL set |
| WarningLogFilters.ApplyTypeConstraintsFromInput | upload/src/addons/SV/ReportImprovements/Search/Data/WarningLog.php:307-406 | the query gains exactly what Compile gives: comment filters, latest, types, moderator, points, expiry switch, date range |
| WarningLogFilters.ApplyWarningTypes | upload/src/addons/SV/ReportImprovements/Search/Data/WarningLog.php:340-366 | the type part's effect is WarningTypeStep |
| WarningLogFilters.PermissionsMatchComments | upload/src/addons/SV/ReportImprovements/Search/Data/WarningLog.php:413-416 | delegating to the report_comment handler: with report search kept out of account postings only `type` report is excluded, so every warning log record passes; without canViewReporter user reports are excluded; otherwise nothing |
| ContentRange.GetContentInRange | upload/src/addons/SV/ReportImprovements/Search/Data/WarningLog.php:77-114 | the scan returns what ContentInRange specifies |
| ContentRange.ContentInRangeMeaning | upload/src/addons/SV/ReportImprovements/Search/Data/WarningLog.php:77-114 | nothing when inactive; a LogicException for a missing entity or a composite key; otherwise at most amount rows past the cursor with a comment, ascending, none skipped |
| ContentRange.AfterCursor | upload/src/addons/SV/ReportImprovements/Search/Data/WarningLog.php:100-106 | paging on from a returned key yields exactly the rows after it |
| ContentRange.IndexInBatches | upload/src/addons/SV/ReportImprovements/Search/Data/WarningLog.php:77-114 | paging in batches visits every eligible row exactly once, in key order, with strictly increasing cursors |
| ReportCommenter.Commenter.SetCommentDefaults | upload/src/addons/SV/ReportImprovements/XF/Service/Report/Commenter.php:19-35 | last_modified_date never decreases; going back in time restores date, user id and username; otherwise last_modified_id is the comment's deferred id |
| ReportCommenter.Commenter.SetReportState | upload/src/addons/SV/ReportImprovements/XF/Service/Report/Commenter.php:41-71 | suppressed: nothing changes; a non-open state whose assignee the framework cleared gets it back, and an unchanged state then leaves state_change ''; a changed assignee is mirrored on the comment |
| ReportCommenter.Commenter.FinalSetup | upload/src/addons/SV/ReportImprovements/XF/Service/Report/Commenter.php:73-87 | the framework runs with sendAlert false; the comment is marked alerted only when it was true; sendAlert ends as it began unless the framework throws, when it stays false (no `finally`) |
| ReportCommenter.Commenter.SendNotifications | upload/src/addons/SV/ReportImprovements/XF/Service/Report/Commenter.php:92-104 | the sender sees the user list, and afterwards it is null whether the sender threw or not |
| ReportCommentManager.CommentManager.SetOldMessage | upload/src/addons/SV/ReportImprovements/Service/Report/CommentManager.php:66-79 | the getter returns what was set; nothing else changes |
| ReportCommentManager.CommentManager.SetLogEdit | upload/src/addons/SV/ReportImprovements/Service/Report/CommentManager.php:89-99 | the getter returns what was set; nothing else changes |
| ReportCommentManager.CommentManager.SetLogHistory | upload/src/addons/SV/ReportImprovements/Service/Report/CommentManager.php:101-111 | the getter returns what was set; nothing else changes |
| ReportCommentManager.CommentManager.SetAttachmentHash | upload/src/addons/SV/ReportImprovements/Service/Report/CommentManager.php:164-169 | the getter (lines 84-87) returns what was set; nothing else changes |
| ReportCommentManager.CommentManager.SetupEditHistory | upload/src/addons/SV/ReportImprovements/Service/Report/CommentManager.php:113-129 | edit_count grows by exactly one; the editor and date are stamped only with the edit log shown and edits logged; the old text is kept only with history enabled and logged |
| ReportCommentManager.CommentManager.SetMessage | upload/src/addons/SV/ReportImprovements/Service/Report/CommentManager.php:144-162 | history is set up exactly when the message was unchanged before, is changed now and was not null; the whole new comment and old message are given, and only message, embed metadata, errors and the edit-history fields change |
| ReportCommentManager.CommentManager.PostSave | upload/src/addons/SV/ReportImprovements/Service/Report/CommentManager.php:176-196 | history is inserted iff an old text is recorded; attachments are associated iff the hash is truthy |
| ReportCommentManager.CommentManager.AssociateAttachments | upload/src/addons/SV/ReportImprovements/Service/Report/CommentManager.php:198-211 | attach_count grows by exactly the associated count and is untouched when it is 0 |
| ReportCommentManager.CommentManager.Validate | upload/src/addons/SV/ReportImprovements/Service/Report/CommentManager.php:213-221 | the errors returned are the comment's errors after preSave |

## Left out

- getContent, getResultDate, getTemplateData, getSearchFormTab, getSearchFormData,
  getSearchableContentTypes and getGroupByType: presentation and entity loading, no
  search logic.
- The association prefetch (svPreloadReportComments, svPreloadReports): it only warms
  caches.
- `Report::canViewContent` and `WarningLog::canViewContent`: each is the entity's own
  canView(), which is outside this model.
- The SQL table references (getReportQueryTableReference,
  getWarningLogQueryTableReference): they are join descriptors for the SQL engine. The
  helpers here are not given them.
- applyUserConstraint, applyRangeConstraint and applyDateRangeConstraint of the search
  add-on's repository are modelled as arbitrary functions of what they read.
  getReportSearchMetaData and populateDiscussionMetaData are the `reportMeta` and
  `discussion` maps they produce.
- The phrases shown with query errors: errors carry a tag naming their reason.
- Request coercion (`$request->filter`): the filters arrive already typed.
- `\XF::$time`, the visitor, the options and the global flags are parameters.
- `ReportCommentData.GetIndexData`: `handler('warning')` is taken to be the warning log
  handler, whose getIndexData is `WarningLogData.GetIndexData`.
- The `instanceof` guards at the top of getIndexData are not modelled. The model's
  parameters are always the right entity.
- `Message::applySearchTypeConstraintsFromInput` and `Message::setupMetadataStructure`
  delegate to the tickets add-on's own search handler.
  - The nested constraints appear as `CommentEnv.nested`. Its URL part is dropped, as
    the by-value parameter drops it.
  - The nested fields are a parameter of `Schema.SetupReportCommentStructure`.
- `ContentRange.GetContentInRange`: the table is a sequence in primary-key order. A
  primary key given as an array with no columns is treated like a single column.
- `ContentRange.IndexInBatches` stands for the framework's indexer. The indexer is not
  part of this repository; the loop states what the cursor contract gives it.
- `ReportCommenter.Commenter`:
  - getPreviousValue and getExistingValue both read the values the report was loaded
    with;
  - isChanged('assigned_user_id') compares against those values;
  - hydrateRelation('LastModified') is not modelled.
- `ReportCommentManager.CommentManager`:
  - the message preparer, the edit history insert and the attachment preparer are
    represented by what they return;
  - `_save`, with its transaction and entity save, is not modelled.
- `ReportData.GetIndexData`: the logged exception is a flag on the outcome; the log
  message text is not modelled.
- `ReportCommenter.Commenter.FinalSetup`: when the framework throws, whatever it changed
  before throwing is not modelled; the report and comment are as they were handed to it.
- `ReportCommentFilters.PostingsGate`: the search index's own `type` column is modelled as
  a `type` entry holding the record's content type (`SearchedMetadata`).
- `TicketMessage.SetupReportEntityContent`: a missing Ticket relation gives a null status
  (an absent `ticket_status_id`); the PHP warning for reading a property of null, which
  an error handler may turn into an exception, is not modelled.
- null values in `content_info` are absent keys, since `isset` and `?? null` treat both
  alike.

## Findings

| source | as written | input that shows it | evidently intended | confidence | as-written member | corrected member |
|---|---|---|---|---|---|---|
| upload/src/addons/SV/ReportImprovements/Search/Data/ReportComment.php:164 | `getMessage($entity->message)` passes the comment's text, but getMessage is declared (line 172) to take the ReportComment entity, so PHP raises a TypeError | any comment that has a report and no warning log | `getMessage($entity)`: the comment text followed by the alert comment | not executed | ReportCommentData.GetIndexDataAsWritten, ReportCommentData.PlainCommentRaises | ReportCommentData.GetIndexData |
| upload/src/addons/SV/ReportImprovements/NF/Tickets/Report/Message.php:35 | `$contentInfo['message_date']` is read before `$contentInfo` is assigned, so the cached date is never used | a report whose content is gone and whose content_info caches message_date 1700000000: no date is returned | read `$report->content_info['message_date']` first and return the cached date | not executed | TicketMessage.GetContentDate, TicketMessage.CachedDateIsIgnored | TicketMessage.GetCachedContentDate |
