/** The `warning_log` search handler: what it eager-loads, the index record and the
    metadata it produces for a warning log, and its sort orders. */
module WarningLogData {
  import opened Common
  import opened Entities
  import Schema

  /** canViewContent is the entity's own canView(), not part of this model. */

  /** getEntityWith */
  function EntityWith(forView: bool, permissionCombinationId: int): (r: seq<Relation>)
    ensures |r| == if forView then 3 else 2
    ensures r[0] == Relation("ReportComment.Report", None) && r[1] == Relation("ReportComment.User", None)
    ensures forView ==> r[2] == Relation("ReportComment.Report.Permissions", Some(permissionCombinationId))
  {
    var get := [Relation("ReportComment.Report", None), Relation("ReportComment.User", None)];
    if forView then get + [Relation("ReportComment.Report.Permissions", Some(permissionCombinationId))] else get
  }

  /** The keys the `+=` merge offers. */
  const MergedKeys: set<string> := {"state_change", "report_type", "warning_type", "issuer_user"}

  /** The keys getMetaData sets only when their source is truthy. */
  const OptionalKeys: set<string> :=
    {"expiry_date", "points", "thread_reply_ban", "post_reply_ban", "is_latest_version"}

  /** `state_change ?: ''` */
  function StateChange(sc: Option<string>): (r: string)
    ensures TruthyString(r) || r == ""
    ensures Truthy(sc) ==> r == sc.value
  {
    if Truthy(sc) then sc.value else ""
  }

  /** getMetaData. `reportMeta` is what the report repository's getReportSearchMetaData
      and the discussion trait's populateDiscussionMetaData (neither part of this model)
      leave in the array for the comment's report. */
  function GetMetaData(w: WarningLogRow, c: ReportCommentRow, reportMeta: Metadata): (md: Metadata)
    // what the report and discussion metadata produced survives the merge
    ensures forall k :: k in reportMeta && k !in OptionalKeys ==>
      k in md && md[k] == reportMeta[k]
    ensures forall k :: k in md ==> k in reportMeta || k in MergedKeys || k in OptionalKeys
    ensures "warning_type" !in reportMeta ==> "warning_type" in md && md["warning_type"] == Str(w.operationType)
    ensures "issuer_user" !in reportMeta ==> "issuer_user" in md && md["issuer_user"] == Int(w.warningUserId)
    ensures "state_change" !in reportMeta ==> "state_change" in md && md["state_change"] == Str(StateChange(c.stateChange))
    ensures "report_type" !in reportMeta ==> "report_type" in md && md["report_type"] == c.reportType
    ensures w.expiryDate != 0 ==> "expiry_date" in md && md["expiry_date"] == Int(w.expiryDate)
    ensures w.warningId != 0 ==> "points" in md && md["points"] == Int(w.points)
    ensures w.replyBanThreadId != 0 ==> "thread_reply_ban" in md && md["thread_reply_ban"] == Int(w.replyBanThreadId)
    ensures w.replyBanPostId != 0 ==> "post_reply_ban" in md && md["post_reply_ban"] == Int(w.replyBanPostId)
    ensures w.isLatestVersion ==> "is_latest_version" in md && md["is_latest_version"] == Bool(true)
    // an optional key the helpers did not produce appears only when its source is truthy
    ensures "expiry_date" !in reportMeta ==> ("expiry_date" in md <==> w.expiryDate != 0)
    ensures "points" !in reportMeta ==> ("points" in md <==> w.warningId != 0)
    ensures "thread_reply_ban" !in reportMeta ==> ("thread_reply_ban" in md <==> w.replyBanThreadId != 0)
    ensures "post_reply_ban" !in reportMeta ==> ("post_reply_ban" in md <==> w.replyBanPostId != 0)
    ensures "is_latest_version" !in reportMeta ==>
      ("is_latest_version" in md <==> w.isLatestVersion) &&
      ("is_latest_version" in md ==> md["is_latest_version"] == Bool(true))
  {
    MergedAndOptionalKeysDisjoint();
    var merged := AddMissing(reportMeta, MergedFields(w, c));
    OptionalFields(w, merged)
  }

  lemma MergedAndOptionalKeysDisjoint()
    ensures "state_change" !in OptionalKeys && "report_type" !in OptionalKeys
    ensures "warning_type" !in OptionalKeys && "issuer_user" !in OptionalKeys
    ensures MergedKeys !! OptionalKeys
  {
  }

  /** The entries offered to the `+=` merge. */
  function MergedFields(w: WarningLogRow, c: ReportCommentRow): (r: Metadata)
    ensures r.Keys == MergedKeys
    ensures r["state_change"] == Str(StateChange(c.stateChange)) && r["report_type"] == c.reportType
    ensures r["warning_type"] == Str(w.operationType) && r["issuer_user"] == Int(w.warningUserId)
  {
    map["state_change" := Str(StateChange(c.stateChange)), "report_type" := c.reportType,
        "warning_type" := Str(w.operationType), "issuer_user" := Int(w.warningUserId)]
  }

  /** The five conditional assignments after the merge. */
  function OptionalFields(w: WarningLogRow, md: Metadata): (r: Metadata)
    ensures forall k :: k !in OptionalKeys ==> (k in r <==> k in md) && (k in md ==> r[k] == md[k])
    ensures OptionalSet(md, r, w.expiryDate != 0, "expiry_date", Int(w.expiryDate))
    ensures OptionalSet(md, r, w.warningId != 0, "points", Int(w.points))
    ensures OptionalSet(md, r, w.replyBanThreadId != 0, "thread_reply_ban", Int(w.replyBanThreadId))
    ensures OptionalSet(md, r, w.replyBanPostId != 0, "post_reply_ban", Int(w.replyBanPostId))
    ensures OptionalSet(md, r, w.isLatestVersion, "is_latest_version", Bool(true))
  {
    var md1 := PutIf(md, w.expiryDate != 0, "expiry_date", Int(w.expiryDate));
    var md2 := PutIf(md1, w.warningId != 0, "points", Int(w.points));
    var md3 := PutIf(md2, w.replyBanThreadId != 0, "thread_reply_ban", Int(w.replyBanThreadId));
    var md4 := PutIf(md3, w.replyBanPostId != 0, "post_reply_ban", Int(w.replyBanPostId));
    PutIf(md4, w.isLatestVersion, "is_latest_version", Bool(true))
  }

  /** `key` holds `v` when `cond`, and is otherwise as it was before. */
  predicate OptionalSet(before: Metadata, after: Metadata, cond: bool, key: string, v: Value)
  {
    && (cond ==> key in after && after[key] == v)
    && (!cond ==> (key in after <==> key in before) && (key in before ==> after[key] == before[key]))
  }

  /** `if (cond) $metaData[key] = v;` */
  function PutIf(md: Metadata, cond: bool, key: string, v: Value): (r: Metadata)
    ensures r.Keys == if cond then md.Keys + {key} else md.Keys
    ensures cond ==> r[key] == v
    ensures forall k :: k in md && k != key ==> r[k] == md[k]
  {
    if cond then md[key := v] else md
  }

  /** Every warning field of a warning log's metadata has the kind WarningLog declares for
      it, provided the report and discussion metadata do not use the warning fields. */
  lemma {:induction false} WarningFieldsConformToSchema(w: WarningLogRow, c: ReportCommentRow, reportMeta: Metadata)
    requires reportMeta.Keys !! Schema.WarningLogFields.Keys
    ensures forall k :: k in GetMetaData(w, c, reportMeta) && k in Schema.WarningLogFields ==>
      KindOf(GetMetaData(w, c, reportMeta)[k]) == Schema.WarningLogFields[k]
  {
    var md := GetMetaData(w, c, reportMeta);
    assert "warning_type" in Schema.WarningLogFields && "issuer_user" in Schema.WarningLogFields;
    WarningKinds(md);
  }

  /** The kind of each warning field present, given that each holds the value getMetaData
      puts there. */
  lemma WarningKinds(md: Metadata)
    requires "warning_type" in md ==> md["warning_type"].Str?
    requires "issuer_user" in md ==> md["issuer_user"].Int?
    requires "points" in md ==> md["points"].Int?
    requires "expiry_date" in md ==> md["expiry_date"].Int?
    requires "thread_reply_ban" in md ==> md["thread_reply_ban"].Int?
    requires "post_reply_ban" in md ==> md["post_reply_ban"].Int?
    requires "is_latest_version" in md ==> md["is_latest_version"].Bool?
    ensures forall k :: k in md && k in Schema.WarningLogFields ==> KindOf(md[k]) == Schema.WarningLogFields[k]
  {
  }

  /** getIndexData: no record when the add-on is not fully active or when the comment or
      its report is missing; otherwise the comment's date, author and report id. */
  function GetIndexData(e: WarningLogEntity, addonActive: bool, reportMeta: Metadata): (r: Option<IndexRecord>)
    ensures r.None? <==> !addonActive || e.comment.None? || e.report.None?
    ensures r.Some? ==>
      && r.value.contentType == "warning_log"
      && r.value.contentId == e.row.warningLogId
      && r.value.title == e.row.title
      && r.value.date == e.comment.value.commentDate
      && r.value.userId == e.comment.value.userId
      && r.value.discussionId == e.comment.value.reportId
      && r.value.message == e.row.searchText + e.comment.value.searchText
      && r.value.metadata == GetMetaData(e.row, e.comment.value, reportMeta)
  {
    if !addonActive then None
    else if e.comment.None? || e.report.None? then None
    else
      var c := e.comment.value;
      Some(IndexRecord("warning_log", e.row.warningLogId, e.row.title,
                       e.row.searchText + c.searchText, c.commentDate, c.userId, c.reportId,
                       GetMetaData(e.row, c, reportMeta)))
  }

  /** getSvSortOrders: none on the limited backend; expiry date and points otherwise. */
  function SortOrders(elastic: bool): (r: set<string>)
    ensures !elastic ==> r == {}
    ensures elastic ==> r == {"expiry_date", "points"}
  {
    if elastic then {"expiry_date", "points"} else {}
  }

  /** Every sort order offered is a declared integer warning field. */
  lemma SortOrdersAreIntegerFields(elastic: bool)
    ensures forall k :: k in SortOrders(elastic) ==>
      k in Schema.WarningLogFields && Schema.WarningLogFields[k] == Integer
  {
  }
}
