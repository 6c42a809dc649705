/** The `report` search handler: what it eager-loads, the index record and the
    metadata it produces for a report. */
module ReportData {
  import opened Common
  import opened Entities
  import Schema
  import ReportCommentData

  /** getEntityWith: nothing, or the visitor's Permissions entry when loading for view. */
  function EntityWith(forView: bool, permissionCombinationId: int): (r: seq<Relation>)
    ensures forView <==> |r| == 1
    ensures !forView <==> r == []
    ensures forView ==> r[0] == Relation("Permissions", Some(permissionCombinationId))
  {
    if forView then [Relation("Permissions", Some(permissionCombinationId))] else []
  }

  /** getMetaData */
  function GetMetaData(e: ReportEntity): (md: Metadata)
    ensures "is_report" in md && md["is_report"] == Int(ReportCommentData.REPORT_TYPE_IS_REPORT)
    ensures "report" in md && md["report"] == Int(e.reportId)
    ensures "report_state" in md && md["report_state"] == Str(e.reportState)
    ensures "assigned_user" in md && md["assigned_user"] == Int(e.assignedUserId)
    ensures "report_content_type" in md && md["report_content_type"] == Str(e.contentType)
    ensures "thread" in md <==> "thread_id" in e.contentInfo
    ensures "thread" in md ==> md["thread"] == e.contentInfo["thread_id"]
    ensures md.Keys <= Schema.ReportFields.Keys
  {
    var md := map[
      "report" := Int(e.reportId),
      "report_state" := Str(e.reportState),
      "assigned_user" := Int(e.assignedUserId),
      "is_report" := Int(ReportCommentData.REPORT_TYPE_IS_REPORT),
      "report_content_type" := Str(e.contentType)];
    if "thread_id" in e.contentInfo then md["thread" := e.contentInfo["thread_id"]] else md
  }

  /** What getIndexData does: returns a record or none, having logged the exception it
      caught or not; or lets an \Error from the content message propagate. */
  datatype IndexOutcome = Indexed(record: Option<IndexRecord>, loggedException: bool) | ErrorRaised

  /** getIndexData: no record when the reported content is gone or has no handler; an
      \Exception while reading the content message is logged and gives an empty message,
      an \Error propagates. */
  function GetIndexData(e: ReportEntity): (r: IndexOutcome)
    ensures r.ErrorRaised? <==> e.hasContent && !e.handler.NoHandler? && e.contentMessage.RaisesError?
    ensures r.Indexed? && r.record.None? <==> !e.hasContent || e.handler.NoHandler?
    ensures r.Indexed? ==> (r.loggedException <==> r.record.Some? && e.contentMessage.RaisesException?)
    ensures r.Indexed? && r.record.Some? ==>
      && r.record.value.contentType == "report"
      && r.record.value.contentId == e.reportId
      && r.record.value.discussionId == e.reportId
      && r.record.value.date == e.firstReportDate
      && r.record.value.userId == e.contentUserId
      && r.record.value.title == e.titleString
      && r.record.value.message == (if e.contentMessage.Message? then e.contentMessage.text else "")
      && r.record.value.metadata == GetMetaData(e)
  {
    if !e.hasContent then Indexed(None, false)
    else if e.handler.NoHandler? then Indexed(None, false)
    else
      match e.contentMessage
      case RaisesError => ErrorRaised
      case RaisesException => Indexed(Some(Record(e, "")), true)
      case Message(m) => Indexed(Some(Record(e, m)), false)
  }

  function Record(e: ReportEntity, message: string): IndexRecord
  {
    IndexRecord("report", e.reportId, e.titleString, message, e.firstReportDate,
                e.contentUserId, e.reportId, GetMetaData(e))
  }

  /** A report's metadata matches the structure Report declares, provided the cached
      thread id is an integer. */
  lemma MetaDataConformsToSchema(e: ReportEntity)
    requires "thread_id" in e.contentInfo ==> e.contentInfo["thread_id"].Int?
    ensures Conforms(GetMetaData(e), Schema.ReportFields)
  {
  }
}
