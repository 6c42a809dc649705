/** The `report_comment` search handler's data side: the is_report codes, the index
    record, the message and the metadata it produces for a report comment, and what it
    eager-loads. */
module ReportCommentData {
  import opened Common
  import opened Entities
  import Schema
  import TicketMessage
  import WarningLogData

  /** The is_report codes. */
  const REPORT_TYPE_COMMENT: int := 0
  const REPORT_TYPE_USER_REPORT: int := 1
  const REPORT_TYPE_IS_REPORT: int := 2
  const REPORT_TYPE_WARNING: int := 3
  const REPORT_TYPE_REPLY_BAN: int := 4

  /** canViewContent: the comment is visible when its report exists and is visible. */
  predicate CanViewContent(e: ReportCommentEntity)
  {
    e.report.Some? && e.report.value.canView
  }

  /** A comment without a report is never visible, whatever else it carries. */
  lemma OrphanCommentsAreHidden(e: ReportCommentEntity)
    requires e.report.None?
    ensures !CanViewContent(e)
  {
  }

  /** getEntityWith */
  function EntityWith(forView: bool, permissionCombinationId: int): (r: seq<Relation>)
    ensures |r| == if forView then 4 else 3
    ensures r[..3] == [Relation("Report", None), Relation("User", None), Relation("WarningLog", None)]
    ensures forView ==> r[3] == Relation("Report.Permissions", Some(permissionCombinationId))
  {
    var get := [Relation("Report", None), Relation("User", None), Relation("WarningLog", None)];
    if forView then get + [Relation("Report.Permissions", Some(permissionCombinationId))] else get
  }

  /** getMessage: the comment text, then the alert comment on its own line when there is one. */
  function GetMessage(c: ReportCommentRow): (r: string)
    ensures |r| >= |c.message| && r[..|c.message|] == c.message
    ensures c.alertComment.None? <==> |r| == |c.message|
    ensures c.alertComment.Some? ==> r[|c.message|] == '\n' && r[|c.message| + 1..] == c.alertComment.value
  {
    match c.alertComment
    case None => c.message
    case Some(alert) => c.message + "\n" + alert
  }

  /** `state_change ?: ''` */
  function StateChange(sc: Option<string>): (r: string)
    ensures TruthyString(r) || r == ""
    ensures Truthy(sc) ==> r == sc.value
  {
    if Truthy(sc) then sc.value else ""
  }

  /** The keys getMetaData writes itself. */
  const OwnKeys: set<string> :=
    {"report", "report_state", "report_content_type", "state_change", "is_report", "report_user",
     "assigner_user", "assigned_user"}

  /** `key` holds `v` unless the discussion metadata overwrote it. */
  predicate OwnEntry(md: Metadata, discussion: Metadata, key: string, v: Value)
  {
    key !in discussion ==> key in md && md[key] == v
  }

  /** A truthy id appears under `key`; a zero id leaves the key out. */
  predicate OptionalId(md: Metadata, discussion: Metadata, key: string, id: int)
  {
    key !in discussion ==> (key in md <==> id != 0) && (id != 0 ==> md[key] == Int(id))
  }

  /** What getMetaData promises about the metadata of comment `c` on report `r`, where
      `discussion` is what populateDiscussionMetaData writes last. */
  ghost predicate MetaData(c: ReportCommentRow, r: ReportEntity, discussion: Metadata, md: Metadata)
  {
    && (forall k :: k in discussion ==> k in md && md[k] == discussion[k])
    && (forall k :: k in md ==> k in discussion || k in OwnKeys ||
                                (r.handler.TicketMessageHandler? && k in TicketMessage.TicketKeys))
    && OwnEntry(md, discussion, "report", Int(c.reportId))
    && OwnEntry(md, discussion, "report_state", Str(r.reportState))
    && OwnEntry(md, discussion, "report_content_type", Str(r.contentType))
    && OwnEntry(md, discussion, "state_change", Str(StateChange(c.stateChange)))
    && OwnEntry(md, discussion, "is_report",
                Int(if c.isReport then REPORT_TYPE_USER_REPORT else REPORT_TYPE_COMMENT))
    && OwnEntry(md, discussion, "report_user", Int(r.contentUserId))
    && OptionalId(md, discussion, "assigner_user", r.assignerUserId)
    && OptionalId(md, discussion, "assigned_user", r.assignedUserId)
    && TicketEntry(md, discussion, r, "ticket_id", "ticket")
    && TicketEntry(md, discussion, r, "category_id", "ticketcat")
    && TicketEntry(md, discussion, r, "ticket_status_id", "ticket_status")
  }

  /** Unless the discussion metadata overwrote it, `key` is present exactly when the
      ticket-message handler finds `src` cached in content_info, and then holds it. */
  predicate TicketEntry(md: Metadata, discussion: Metadata, r: ReportEntity, src: string, key: string)
  {
    key !in discussion ==>
      && (key in md <==> r.handler.TicketMessageHandler? && src in r.contentInfo)
      && (key in md ==> src in r.contentInfo && md[key] == r.contentInfo[src])
  }

  /** getMetaData. The ticket-message handler is the one search-form report handler in
      this model; it alone adds keys of its own. */
  method GetMetaData(c: ReportCommentRow, r: ReportEntity, discussion: Metadata) returns (md: Metadata)
    ensures MetaData(c, r, discussion, md)
    ensures Conforms(md - discussion.Keys - TicketMessage.TicketKeys, CommentSchema)
  {
    md := map[
      "report" := Int(c.reportId),
      "report_state" := Str(r.reportState),
      "report_content_type" := Str(r.contentType),
      "state_change" := Str(StateChange(c.stateChange)),
      "is_report" := Int(if c.isReport then REPORT_TYPE_USER_REPORT else REPORT_TYPE_COMMENT),
      "report_user" := Int(r.contentUserId)];
    if r.assignerUserId != 0 {
      md := md["assigner_user" := Int(r.assignerUserId)];
    }
    if r.assignedUserId != 0 {
      md := md["assigned_user" := Int(r.assignedUserId)];
    }
    ghost var own := md;
    assert OwnFields(c, r, own);
    OwnAndTicketKeysDisjoint();
    if r.handler.TicketMessageHandler? {
      md := TicketMessage.PopulateMetaData(r.contentInfo, md);
    }
    ghost var populated := md;
    md := md + discussion;
    MergedMetaData(c, r, own, populated, discussion);
  }

  /** The entries getMetaData writes before any helper runs. */
  ghost predicate OwnFields(c: ReportCommentRow, r: ReportEntity, own: Metadata)
  {
    && own.Keys <= OwnKeys
    && OwnEntry(own, map[], "report", Int(c.reportId))
    && OwnEntry(own, map[], "report_state", Str(r.reportState))
    && OwnEntry(own, map[], "report_content_type", Str(r.contentType))
    && OwnEntry(own, map[], "state_change", Str(StateChange(c.stateChange)))
    && OwnEntry(own, map[], "is_report", Int(if c.isReport then REPORT_TYPE_USER_REPORT else REPORT_TYPE_COMMENT))
    && OwnEntry(own, map[], "report_user", Int(r.contentUserId))
    && OptionalId(own, map[], "assigner_user", r.assignerUserId)
    && OptionalId(own, map[], "assigned_user", r.assignedUserId)
  }

  /** The ticket handler's keys and the discussion entries on top of the own entries. */
  lemma MergedMetaData(c: ReportCommentRow, r: ReportEntity, own: Metadata, populated: Metadata,
                       discussion: Metadata)
    requires OwnFields(c, r, own)
    requires r.handler.TicketMessageHandler? ==>
      && (forall k :: k in own && k !in TicketMessage.TicketKeys ==> k in populated && populated[k] == own[k])
      && (forall k :: k in populated && k !in own ==> k in TicketMessage.TicketKeys)
      && TicketEntry(populated, map[], r, "ticket_id", "ticket")
      && TicketEntry(populated, map[], r, "category_id", "ticketcat")
      && TicketEntry(populated, map[], r, "ticket_status_id", "ticket_status")
    requires !r.handler.TicketMessageHandler? ==> populated == own
    ensures MetaData(c, r, discussion, populated + discussion)
    ensures Conforms(populated + discussion - discussion.Keys - TicketMessage.TicketKeys, CommentSchema)
  {
    OwnAndTicketKeysDisjoint();
    OwnFieldsConform(c, r, own);
    ConformsSubmap(populated + discussion - discussion.Keys - TicketMessage.TicketKeys, own, CommentSchema);
  }

  /** The kinds ReportComment declares for the fields getMetaData writes. */
  const CommentSchema: map<string, Kind> := Schema.ReportCommentFields["report_user" := Integer]

  lemma OwnFieldsConform(c: ReportCommentRow, r: ReportEntity, own: Metadata)
    requires OwnFields(c, r, own)
    ensures Conforms(own, CommentSchema)
  {
  }

  lemma ConformsSubmap(a: Metadata, b: Metadata, schema: map<string, Kind>)
    requires forall k :: k in a ==> k in b && a[k] == b[k]
    requires Conforms(b, schema)
    ensures Conforms(a, schema)
  {
  }

  lemma OwnAndTicketKeysDisjoint()
    ensures OwnKeys !! TicketMessage.TicketKeys
  {
  }

  /** What getIndexData produces, or the TypeError the code as written raises. */
  datatype IndexOutcome = Indexed(record: Option<IndexRecord>) | TypeError

  /** getIndexData as written: a comment that has a report but no warning log reaches
      `getMessage($entity->message)`, which passes a string where the declared parameter
      is a ReportComment entity. */
  function GetIndexDataAsWritten(e: ReportCommentEntity, addonActive: bool, reportMeta: Metadata): (r: IndexOutcome)
    ensures e.warningLog.Some? ==>
      r == Indexed(WarningLogData.GetIndexData(WarningLogEntity(e.warningLog.value, Some(e.row), e.report),
                                               addonActive, reportMeta))
    ensures e.warningLog.None? && e.report.None? ==> r == Indexed(None)
    ensures e.warningLog.None? && e.report.Some? ==> r == TypeError
  {
    match e.warningLog
    case Some(w) =>
      Indexed(WarningLogData.GetIndexData(WarningLogEntity(w, Some(e.row), e.report), addonActive, reportMeta))
    case None =>
      if e.report.None? then Indexed(None) else TypeError
  }

  /** Every comment that carries a report and no warning log, which is the common case,
      raises the TypeError. */
  lemma PlainCommentRaises(c: ReportCommentRow, r: ReportEntity, addonActive: bool, reportMeta: Metadata)
    ensures GetIndexDataAsWritten(ReportCommentEntity(c, Some(r), None), addonActive, reportMeta) == TypeError
  {
  }

  /** getIndexData with getMessage given the entity, as its signature asks. A warning log
      is indexed by the warning handler; `addonActive` and `reportMeta` are that handler's
      inputs, and `discussion` is what populateDiscussionMetaData writes for this comment. */
  method GetIndexData(e: ReportCommentEntity, addonActive: bool, reportMeta: Metadata, discussion: Metadata)
    returns (r: Option<IndexRecord>)
    ensures e.warningLog.Some? ==>
      r == WarningLogData.GetIndexData(WarningLogEntity(e.warningLog.value, Some(e.row), e.report),
                                       addonActive, reportMeta)
    ensures e.warningLog.None? ==> (r.None? <==> e.report.None?)
    ensures e.warningLog.None? && r.Some? ==>
      && r.value.contentType == "report_comment"
      && r.value.contentId == e.row.reportCommentId
      && r.value.title == e.report.value.titleString
      && r.value.message == GetMessage(e.row)
      && r.value.date == e.row.commentDate
      && r.value.userId == e.row.userId
      && r.value.discussionId == e.row.reportId
      && MetaData(e.row, e.report.value, discussion, r.value.metadata)
  {
    if e.warningLog.Some? {
      return WarningLogData.GetIndexData(WarningLogEntity(e.warningLog.value, Some(e.row), e.report),
                                         addonActive, reportMeta);
    }
    if e.report.None? {
      return None;
    }
    var report := e.report.value;
    var md := GetMetaData(e.row, report, discussion);
    r := Some(IndexRecord("report_comment", e.row.reportCommentId, report.titleString, GetMessage(e.row),
                          e.row.commentDate, e.row.userId, e.row.reportId, md));
  }

  /** The is_report code of a comment is never the one a report record carries, whatever
      the comment's flag. */
  lemma CommentCodesDifferFromReports(c: ReportCommentRow, r: ReportEntity, discussion: Metadata, md: Metadata)
    requires MetaData(c, r, discussion, md)
    requires "is_report" !in discussion
    ensures "is_report" in md && md["is_report"].Int?
    ensures md["is_report"].i in {REPORT_TYPE_COMMENT, REPORT_TYPE_USER_REPORT}
    ensures md["is_report"].i != REPORT_TYPE_IS_REPORT
  {
  }
}
