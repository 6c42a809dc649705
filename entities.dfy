/** The entity records the search handlers read, with their relations as optional
    values, and the index record the handlers produce. */
module Entities {
  import opened Common

  /** Which report handler is registered for a report's content type: none, one that
      does not implement the search-form interface, or the ticket-message handler (the
      one search-form handler that is part of this model). */
  datatype ReportHandler = NoHandler | PlainHandler | TicketMessageHandler

  /** The outcome of a report handler's getContentMessage: the text, or a throw of an
      \Exception or of an \Error (which a `catch (\Exception)` does not catch). */
  datatype ContentMessage = Message(text: string) | RaisesException | RaisesError

  /** An XF report, as far as the search handlers read it. */
  datatype ReportEntity = ReportEntity(
    reportId: int,
    titleString: string,
    reportState: string,
    contentType: string,
    contentUserId: int,
    assignerUserId: int,
    assignedUserId: int,
    firstReportDate: int,
    contentInfo: Metadata,
    hasContent: bool,                 // the Content relation exists
    handler: ReportHandler,           // getHandler() for the content type
    contentMessage: ContentMessage,   // what the handler's getContentMessage does
    canView: bool)                    // the report's own canView() for the visitor

  /** A report comment's own columns. */
  datatype ReportCommentRow = ReportCommentRow(
    reportCommentId: int,
    reportId: int,
    message: string,
    alertComment: Option<string>,
    commentDate: int,
    userId: int,
    stateChange: Option<string>,
    isReport: bool,
    reportType: Value,                // getReportType()
    searchText: string)               // the search repository's getEntityToMessage

  /** A warning log's own columns. */
  datatype WarningLogRow = WarningLogRow(
    warningLogId: int,
    title: string,
    operationType: string,
    warningUserId: int,
    expiryDate: int,
    warningId: int,
    points: int,
    replyBanThreadId: int,
    replyBanPostId: int,
    isLatestVersion: bool,
    searchText: string)               // the search repository's getEntityToMessage

  /** A report comment with its Report and WarningLog relations. */
  datatype ReportCommentEntity = ReportCommentEntity(
    row: ReportCommentRow,
    report: Option<ReportEntity>,
    warningLog: Option<WarningLogRow>)

  /** A warning log with its ReportComment relation and that comment's Report. */
  datatype WarningLogEntity = WarningLogEntity(
    row: WarningLogRow,
    comment: Option<ReportCommentRow>,
    report: Option<ReportEntity>)

  /** XF's IndexRecord. */
  datatype IndexRecord = IndexRecord(
    contentType: string,
    contentId: int,
    title: string,
    message: string,
    date: int,
    userId: int,
    discussionId: int,
    metadata: Metadata)

  /** An eager-load entry of getEntityWith: a relation path, plus the visitor's
      permission combination id for a `Permissions|<id>` entry. */
  datatype Relation = Relation(path: string, permissionCombination: Option<int>)
}
