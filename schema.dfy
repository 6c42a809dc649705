/** The metadata structure each search handler declares (setupMetadataStructure), and
    the invariant that a field declared by more than one content type has one kind. */
module Schema {
  import opened Common

  /** XF's MetadataStructure: field name to declared kind; addField overwrites. */
  class MetadataStructure {
    var fields: map<string, Kind>

    constructor ()
      ensures fields == map[]
    {
      fields := map[];
    }

    method AddField(name: string, kind: Kind)
      modifies this
      ensures fields == old(fields)[name := kind]
    {
      fields := fields[name := kind];
    }

    /** The fields declared by a setup routine that is not part of this model. */
    method AddFields(decl: map<string, Kind>)
      modifies this
      ensures fields == old(fields) + decl
    {
      fields := fields + decl;
    }
  }

  /** The fields Report declares. */
  const ReportFields: map<string, Kind> := map[
    "thread" := Integer,
    "report" := Integer,
    "report_state" := Keyword,
    "report_content_type" := Keyword,
    "assigned_user" := Integer,
    "is_report" := Integer]

  /** The fields ReportComment declares after the report handlers' own fields. */
  const ReportCommentFields: map<string, Kind> := map[
    "report" := Integer,
    "state_change" := Keyword,
    "report_state" := Keyword,
    "report_content_type" := Keyword,
    "assigned_user" := Integer,
    "assigner_user" := Integer,
    "is_report" := Integer]

  /** The warning fields WarningLog declares last. */
  const WarningLogFields: map<string, Kind> := map[
    "warning_type" := Keyword,
    "points" := Integer,
    "expiry_date" := Integer,
    "issuer_user" := Integer,
    "thread_reply_ban" := Integer,
    "post_reply_ban" := Integer,
    "is_latest_version" := Boolean]

  /** The fields Report and ReportComment both declare. */
  const SharedReportFields: set<string> :=
    {"report", "report_state", "report_content_type", "assigned_user", "is_report"}

  /** Two declarations agree on every field they both declare. */
  ghost predicate Agree(a: map<string, Kind>, b: map<string, Kind>)
  {
    forall f :: f in a && f in b ==> a[f] == b[f]
  }

  /** The declarations of several handlers applied in order. */
  function UnionAll(ms: seq<map<string, Kind>>): map<string, Kind>
  {
    if ms == [] then map[] else UnionAll(ms[..|ms| - 1]) + ms[|ms| - 1]
  }

  /** What ReportComment's setup leaves in a structure that held `base`. */
  function ReportCommentSchema(base: map<string, Kind>, handlerFields: seq<map<string, Kind>>,
                               discussionFields: map<string, Kind>): map<string, Kind>
  {
    base["report_user" := Integer] + UnionAll(handlerFields) + ReportCommentFields + discussionFields
  }

  /** What WarningLog's setup leaves in a structure that held `base`. */
  function WarningLogSchema(base: map<string, Kind>, reportSearchFields: map<string, Kind>,
                            discussionFields: map<string, Kind>): map<string, Kind>
  {
    base + reportSearchFields + discussionFields + WarningLogFields
  }

  method SetupReportStructure(s: MetadataStructure)
    modifies s
    ensures s.fields == old(s.fields) + ReportFields
  {
    ghost var base := s.fields;
    s.AddField("thread", Integer);
    s.AddField("report", Integer);
    s.AddField("report_state", Keyword);
    s.AddField("report_content_type", Keyword);
    s.AddField("assigned_user", Integer);
    s.AddField("is_report", Integer);
    ReportDeclarations(base);
  }

  /** `handlerFields` lists what each search-form report handler declares, in handler
      order; `discussionFields` what the discussion trait declares. */
  method SetupReportCommentStructure(s: MetadataStructure, handlerFields: seq<map<string, Kind>>,
                                     discussionFields: map<string, Kind>)
    modifies s
    ensures s.fields == ReportCommentSchema(old(s.fields), handlerFields, discussionFields)
  {
    s.AddField("report_user", Integer);
    var i := 0;
    while i < |handlerFields|
      invariant 0 <= i <= |handlerFields|
      invariant s.fields == old(s.fields)["report_user" := Integer] + UnionAll(handlerFields[..i])
    {
      assert handlerFields[..i + 1][..i] == handlerFields[..i];
      UnionAssoc(old(s.fields)["report_user" := Integer], UnionAll(handlerFields[..i]), handlerFields[i]);
      s.AddFields(handlerFields[i]);
      i := i + 1;
    }
    assert handlerFields[..i] == handlerFields;
    ghost var before := s.fields;
    s.AddField("report", Integer);
    s.AddField("state_change", Keyword);
    s.AddField("report_state", Keyword);
    s.AddField("report_content_type", Keyword);
    s.AddField("assigned_user", Integer);
    s.AddField("assigner_user", Integer);
    s.AddField("is_report", Integer);
    CommentDeclarations(before);
    s.AddFields(discussionFields);
  }

  /** `reportSearchFields` is what the report repository's setupMetadataStructureForReport
      declares, `discussionFields` what the discussion trait declares. */
  method SetupWarningLogStructure(s: MetadataStructure, reportSearchFields: map<string, Kind>,
                                  discussionFields: map<string, Kind>)
    modifies s
    ensures s.fields == WarningLogSchema(old(s.fields), reportSearchFields, discussionFields)
  {
    s.AddFields(reportSearchFields);
    s.AddFields(discussionFields);
    ghost var before := s.fields;
    s.AddField("warning_type", Keyword);
    s.AddField("points", Integer);
    s.AddField("expiry_date", Integer);
    s.AddField("issuer_user", Integer);
    s.AddField("thread_reply_ban", Integer);
    s.AddField("post_reply_ban", Integer);
    s.AddField("is_latest_version", Boolean);
    WarningDeclarations(before);
  }

  lemma UnionAssoc(a: map<string, Kind>, b: map<string, Kind>, c: map<string, Kind>)
    ensures a + (b + c) == (a + b) + c
  {
  }

  lemma ReportDeclarations(m: map<string, Kind>)
    ensures m["thread" := Integer]["report" := Integer]["report_state" := Keyword]
             ["report_content_type" := Keyword]["assigned_user" := Integer]
             ["is_report" := Integer] == m + ReportFields
  {
  }

  lemma CommentDeclarations(m: map<string, Kind>)
    ensures m["report" := Integer]["state_change" := Keyword]["report_state" := Keyword]
             ["report_content_type" := Keyword]["assigned_user" := Integer]
             ["assigner_user" := Integer]["is_report" := Integer] == m + ReportCommentFields
  {
  }

  lemma WarningDeclarations(m: map<string, Kind>)
    ensures m["warning_type" := Keyword]["points" := Integer]["expiry_date" := Integer]
             ["issuer_user" := Integer]["thread_reply_ban" := Integer]
             ["post_reply_ban" := Integer]["is_latest_version" := Boolean] == m + WarningLogFields
  {
  }

  /** Whatever the report handlers declare, ReportComment's structure gives the fields it
      shares with Report the kinds Report gives them, as long as the discussion fields
      do not redeclare one of them with another kind. */
  lemma SharedFieldsAgree(base: map<string, Kind>, handlerFields: seq<map<string, Kind>>,
                          discussionFields: map<string, Kind>)
    requires forall f :: f in SharedReportFields && f in discussionFields ==> discussionFields[f] == ReportFields[f]
    ensures forall f :: f in SharedReportFields ==>
      f in ReportCommentSchema(base, handlerFields, discussionFields) &&
      ReportCommentSchema(base, handlerFields, discussionFields)[f] == ReportFields[f]
    ensures SharedReportFields == (ReportFields.Keys * ReportCommentFields.Keys)
    ensures Agree(ReportFields, ReportCommentFields)
  {
  }

  /** The warning fields are new names: no report or comment field is redeclared. */
  lemma WarningFieldsAreNew()
    ensures WarningLogFields.Keys !! ReportFields.Keys
    ensures WarningLogFields.Keys !! ReportCommentFields.Keys
    ensures "report_user" !in WarningLogFields
  {
  }
}
