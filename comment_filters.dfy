/** The `report_comment` handler's filter compiler (applyTypeConstraintsFromInput), its
    permission constraints and its sort orders. */
module ReportCommentFilters {
  import opened Common
  import opened Constraints
  import opened SearchImprovements
  import ReportCommentData
  import ReportData
  import Entities

  /** The request values the compiler filters, already coerced. */
  datatype CommentFilters = CommentFilters(
    assignedUser: string,
    assignerUser: string,
    participants: string,
    repliesLower: nat,
    repliesUpper: Option<nat>,
    reportTypes: seq<string>,
    reportStates: seq<string>,
    contents: bool,
    comments: bool,
    userReports: bool,
    warnings: bool,
    replyBans: bool)

  /** The filtered `$constraints` array. */
  function Filtered(f: CommentFilters): FilterInput
  {
    map[
      "c.assigned" := FStr(f.assignedUser),
      "c.assigner" := FStr(f.assignerUser),
      "c.participants" := FStr(f.participants),
      "c.replies.lower" := FNat(f.repliesLower),
      "c.replies.upper" := FOptNat(f.repliesUpper),
      "c.report.type" := FStrs(f.reportTypes),
      "c.report.state" := FStrs(f.reportStates),
      "c.report.contents" := FBool(f.contents),
      "c.report.comments" := FBool(f.comments),
      "c.report.user_reports" := FBool(f.userReports),
      "c.report.warnings" := FBool(f.warnings),
      "c.report.reply_bans" := FBool(f.replyBans)]
  }

  /** The report-user filter the first user helper is asked for is never among the
      filtered values, so that helper never sees a value for it. */
  lemma ReportUserIsNeverFiltered(f: CommentFilters)
    ensures "c.report_user" !in Filtered(f)
  {
  }

  /** What the compiler reads besides the request: the backend tier, the keys of
      getReportStatePairs, the report types whose handler implements the search-form
      interface, what such a handler's own compiler adds for the same request, and the
      search repository. */
  datatype CommentEnv = CommentEnv(
    elastic: bool,
    knownStates: set<string>,
    formTypes: set<string>,
    nested: string -> HelperEffect,
    repo: Repo)

  // ---------------------------------------------------------------- is_report flags

  /** The codes of the flag table, in table order. */
  const FlagCodes: seq<int> := [
    ReportCommentData.REPORT_TYPE_COMMENT,
    ReportCommentData.REPORT_TYPE_USER_REPORT,
    ReportCommentData.REPORT_TYPE_IS_REPORT,
    ReportCommentData.REPORT_TYPE_WARNING,
    ReportCommentData.REPORT_TYPE_REPLY_BAN]

  /** The filter value read for each entry of the flag table. */
  function Flags(f: CommentFilters): seq<bool>
  {
    [f.comments, f.userReports, f.contents, f.warnings, f.replyBans]
  }

  /** The codes whose flag is set, in table order. */
  function SetCodes(flags: seq<bool>, codes: seq<int>): seq<int>
    requires |flags| == |codes|
  {
    if flags == [] then []
    else
      var n := |flags| - 1;
      SetCodes(flags[..n], codes[..n]) + (if flags[n] then [codes[n]] else [])
  }

  function IsReportCodes(f: CommentFilters): seq<int>
  {
    SetCodes(Flags(f), FlagCodes)
  }

  /** The is_report constraint, added unless no flag or every flag is set. */
  function IsReportStep(f: CommentFilters): seq<Constraint>
  {
    var codes := IsReportCodes(f);
    if |codes| != 0 && |codes| != |FlagCodes| then [Meta("is_report", Ints(codes))] else []
  }

  lemma SetCodesProperties(flags: seq<bool>, codes: seq<int>)
    requires |flags| == |codes|
    ensures forall x :: x in SetCodes(flags, codes) <==> exists i :: 0 <= i < |flags| && flags[i] && codes[i] == x
    ensures |SetCodes(flags, codes)| == 0 <==> forall i :: 0 <= i < |flags| ==> !flags[i]
    ensures |SetCodes(flags, codes)| == |flags| <==> forall i :: 0 <= i < |flags| ==> flags[i]
    ensures (forall i, j :: 0 <= i < j < |codes| ==> codes[i] < codes[j]) ==>
      forall i, j :: 0 <= i < j < |SetCodes(flags, codes)| ==> SetCodes(flags, codes)[i] < SetCodes(flags, codes)[j]
    ensures |SetCodes(flags, codes)| <= |flags|
  {
    SetCodesMembers(flags, codes);
    SetCodesCount(flags, codes);
    if forall i, j :: 0 <= i < j < |codes| ==> codes[i] < codes[j] {
      SetCodesAscending(flags, codes);
    }
  }

  lemma {:induction false} SetCodesMembers(flags: seq<bool>, codes: seq<int>)
    requires |flags| == |codes|
    ensures forall x :: x in SetCodes(flags, codes) <==> exists i :: 0 <= i < |flags| && flags[i] && codes[i] == x
  {
    if flags != [] {
      var n := |flags| - 1;
      SetCodesMembers(flags[..n], codes[..n]);
      assert forall i :: 0 <= i < n ==> flags[..n][i] == flags[i] && codes[..n][i] == codes[i];
    }
  }

  lemma {:induction false} SetCodesCount(flags: seq<bool>, codes: seq<int>)
    requires |flags| == |codes|
    ensures |SetCodes(flags, codes)| == 0 <==> forall i :: 0 <= i < |flags| ==> !flags[i]
    ensures |SetCodes(flags, codes)| == |flags| <==> forall i :: 0 <= i < |flags| ==> flags[i]
    ensures |SetCodes(flags, codes)| <= |flags|
  {
    if flags != [] {
      var n := |flags| - 1;
      SetCodesCount(flags[..n], codes[..n]);
      assert forall i :: 0 <= i < n ==> flags[..n][i] == flags[i];
    }
  }

  lemma {:induction false} SetCodesAscending(flags: seq<bool>, codes: seq<int>)
    requires |flags| == |codes|
    requires forall i, j :: 0 <= i < j < |codes| ==> codes[i] < codes[j]
    ensures forall i, j :: 0 <= i < j < |SetCodes(flags, codes)| ==> SetCodes(flags, codes)[i] < SetCodes(flags, codes)[j]
  {
    if flags != [] {
      var n := |flags| - 1;
      assert forall i, j :: 0 <= i < j < n ==> codes[..n][i] < codes[..n][j];
      SetCodesAscending(flags[..n], codes[..n]);
      SetCodesMembers(flags[..n], codes[..n]);
      var p := SetCodes(flags[..n], codes[..n]);
      if flags[n] {
        forall x | x in p ensures x < codes[n] {
          var i :| 0 <= i < n && flags[..n][i] && codes[..n][i] == x;
        }
        var r := SetCodes(flags, codes);
        assert r == p + [codes[n]];
        forall i, j | 0 <= i < j < |r| ensures r[i] < r[j] {
          assert r[i] == p[i] && p[i] in p;
          if j < |p| {
            assert r[j] == p[j];
          }
        }
      }
    }
  }

  /** The is_report constraint is added exactly when some but not all flags are set; its
      codes are strictly ascending and a code is listed iff its flag is set. */
  lemma IsReportStepLaw(f: CommentFilters)
    ensures IsReportStep(f) == [] <==>
      (forall i :: 0 <= i < 5 ==> !Flags(f)[i]) || (forall i :: 0 <= i < 5 ==> Flags(f)[i])
    ensures IsReportStep(f) != [] ==> IsReportStep(f) == [Meta("is_report", Ints(IsReportCodes(f)))]
    ensures forall code :: 0 <= code < 5 ==> (code in IsReportCodes(f) <==> Flags(f)[code])
    ensures forall i, j :: 0 <= i < j < |IsReportCodes(f)| ==> IsReportCodes(f)[i] < IsReportCodes(f)[j]
  {
    SetCodesProperties(Flags(f), FlagCodes);
  }

  /** A record whose is_report code is one of the table's codes passes the is_report
      constraint iff the flag of its code is set. */
  lemma IsReportFilterMeaning(f: CommentFilters, md: Metadata, code: int)
    requires IsReportStep(f) != []
    requires 0 <= code < 5 && "is_report" in md && md["is_report"] == Int(code)
    ensures AllHold(IsReportStep(f), md) <==> Flags(f)[code]
  {
    IsReportStepLaw(f);
    var codes := IsReportCodes(f);
    var c := Meta("is_report", Ints(codes));
    assert IsReportStep(f) == [c];
    assert AllHold([c], md) <==> Holds(c, md) by {
      assert c in [c];
    }
    assert Flags(f)[code] <==> code in codes;
    if code in codes {
      var i :| 0 <= i < |codes| && codes[i] == code;
      assert Ints(codes)[i] == Int(code);
    }
    if Int(code) in Ints(codes) {
      var i :| 0 <= i < |Ints(codes)| && Ints(codes)[i] == Int(code);
      assert codes[i] == code && codes[i] in codes;
    }
  }

  /** Gathers the codes of the set flags, walking the table as the foreach does. */
  method CollectIsReportCodes(f: CommentFilters) returns (isReport: seq<int>)
    ensures isReport == IsReportCodes(f)
  {
    var flags := Flags(f);
    isReport := [];
    var i := 0;
    while i < |FlagCodes|
      invariant 0 <= i <= |FlagCodes|
      invariant isReport == SetCodes(flags[..i], FlagCodes[..i])
    {
      assert flags[..i + 1][..i] == flags[..i] && FlagCodes[..i + 1][..i] == FlagCodes[..i];
      if flags[i] {
        isReport := isReport + [FlagCodes[i]];
      }
      i := i + 1;
    }
    assert flags[..i] == flags && FlagCodes[..i] == FlagCodes;
  }

  // ---------------------------------------------------------------- report states

  /** array_filter keeping the states that are not a known state key. */
  function BadStates(states: seq<string>, known: set<string>): seq<string>
  {
    if states == [] then []
    else
      var n := |states| - 1;
      BadStates(states[..n], known) + (if states[n] in known then [] else [states[n]])
  }

  lemma {:induction false} BadStatesMembers(states: seq<string>, known: set<string>)
    ensures forall x :: x in BadStates(states, known) <==> x in states && x !in known
    ensures Distinct(states) ==> Distinct(BadStates(states, known))
  {
    if states != [] {
      var n := |states| - 1;
      BadStatesMembers(states[..n], known);
      assert forall x :: x in states <==> x in states[..n] || x == states[n];
      if Distinct(states) {
        assert Distinct(states[..n]);
        assert states[n] !in states[..n];
      }
    }
  }

  /** The report_state part: the query constraint, the error and the URL set. */
  function StateStep(f: CommentFilters, known: set<string>, url: UrlConstraints): HelperEffect
  {
    var states := f.reportStates;
    if |states| != 0 && "0" !in states then
      var unique := Dedup(states);
      var bad := BadStates(unique, known);
      if |bad| != 0 then HelperEffect([], [QueryError("report.state", UnknownReportStates(bad))], url)
      else HelperEffect([Meta("report_state", Strs(unique))], [], SetUrlConstraint(url, "c.report.state", unique))
    else HelperEffect([], [], UnsetUrlConstraint(url, "c.report.state"))
  }

  /** An empty selection, or one holding '0', adds nothing and clears the URL entry. */
  lemma StateStepOmitted(f: CommentFilters, known: set<string>, url: UrlConstraints)
    requires |f.reportStates| == 0 || "0" in f.reportStates
    ensures StateStep(f, known, url).added == [] && StateStep(f, known, url).errors == []
    ensures StateStep(f, known, url).url == url - {"c.report.state"}
  {
  }

  /** A selection with an unknown state records one error naming each unknown selected
      state once, and touches neither the query's constraints nor the URL set. */
  lemma StateStepRejected(f: CommentFilters, known: set<string>, url: UrlConstraints)
    requires |f.reportStates| != 0 && "0" !in f.reportStates
    requires exists s :: s in f.reportStates && s !in known
    ensures StateStep(f, known, url).added == [] && StateStep(f, known, url).url == url
    ensures |StateStep(f, known, url).errors| == 1
    ensures StateStep(f, known, url).errors[0].key == "report.state"
    ensures StateStep(f, known, url).errors[0].reason.UnknownReportStates?
    ensures forall x :: x in StateStep(f, known, url).errors[0].reason.values <==>
      x in f.reportStates && x !in known
    ensures Distinct(StateStep(f, known, url).errors[0].reason.values)
  {
    DedupProperties(f.reportStates);
    BadStatesMembers(Dedup(f.reportStates), known);
    var s :| s in f.reportStates && s !in known;
    assert s in BadStates(Dedup(f.reportStates), known);
  }

  /** A selection of known states adds one report_state constraint that a record passes
      iff its state is one of them, and puts the deduplicated states in the URL set. */
  lemma StateStepAccepted(f: CommentFilters, known: set<string>, url: UrlConstraints, md: Metadata)
    requires |f.reportStates| != 0 && "0" !in f.reportStates
    requires forall s :: s in f.reportStates ==> s in known
    ensures StateStep(f, known, url).errors == []
    ensures |StateStep(f, known, url).added| == 1
    ensures StateStep(f, known, url).url == url["c.report.state" := Dedup(f.reportStates)]
    ensures Distinct(Dedup(f.reportStates))
    ensures Holds(StateStep(f, known, url).added[0], md) <==>
      "report_state" in md && md["report_state"].Str? && md["report_state"].s in f.reportStates
  {
    var unique := Dedup(f.reportStates);
    DedupProperties(f.reportStates);
    BadStatesMembers(unique, known);
    if |BadStates(unique, known)| != 0 {
      assert BadStates(unique, known)[0] in BadStates(unique, known);
    }
    if "report_state" in md && md["report_state"] in Strs(unique) {
      var i :| 0 <= i < |Strs(unique)| && Strs(unique)[i] == md["report_state"];
      assert unique[i] in unique;
    }
    if "report_state" in md && md["report_state"].Str? && md["report_state"].s in f.reportStates {
      var i :| 0 <= i < |unique| && unique[i] == md["report_state"].s;
      assert Strs(unique)[i] == md["report_state"];
    }
  }

  // ---------------------------------------------------------------- report types

  /** The `$types` array: report type to the nested constraints compiled for it, an
      ordered map whose keys keep their first position. */
  type TypeMap = seq<(string, seq<Constraint>)>

  function Keys(ts: TypeMap): (r: seq<string>)
    ensures |r| == |ts| && forall i :: 0 <= i < |ts| ==> r[i] == ts[i].0
  {
    seq(|ts|, i requires 0 <= i < |ts| => ts[i].0)
  }

  /** `$types[$k] = $v`: replaces the value in place when the key is present, appends
      otherwise. */
  function Put(ts: TypeMap, k: string, v: seq<Constraint>): TypeMap
  {
    if ts == [] then [(k, v)]
    else if ts[0].0 == k then [(k, v)] + ts[1..]
    else [ts[0]] + Put(ts[1..], k, v)
  }

  lemma PutProperties(ts: TypeMap, k: string, v: seq<Constraint>)
    ensures Keys(Put(ts, k, v)) == if k in Keys(ts) then Keys(ts) else Keys(ts) + [k]
    ensures forall i :: 0 <= i < |Put(ts, k, v)| ==>
      Put(ts, k, v)[i] == (k, v) || (i < |ts| && Put(ts, k, v)[i] == ts[i])
  {
    PutKeys(ts, k, v);
    PutEntries(ts, k, v);
  }

  lemma {:induction false} PutKeys(ts: TypeMap, k: string, v: seq<Constraint>)
    ensures Keys(Put(ts, k, v)) == if k in Keys(ts) then Keys(ts) else Keys(ts) + [k]
  {
    if ts != [] {
      assert Keys(ts) == [ts[0].0] + Keys(ts[1..]);
      if ts[0].0 != k {
        PutKeys(ts[1..], k, v);
        assert Keys(Put(ts, k, v)) == [ts[0].0] + Keys(Put(ts[1..], k, v));
      } else {
        assert Keys(Put(ts, k, v)) == [k] + Keys(ts[1..]);
      }
    }
  }

  lemma {:induction false} PutEntries(ts: TypeMap, k: string, v: seq<Constraint>)
    ensures forall i :: 0 <= i < |Put(ts, k, v)| ==>
      Put(ts, k, v)[i] == (k, v) || (i < |ts| && Put(ts, k, v)[i] == ts[i])
  {
    if ts != [] && ts[0].0 != k {
      PutEntries(ts[1..], k, v);
    }
  }

  /** The nested constraints for one report type: what its search-form handler adds, or
      nothing when it has none. */
  function TypeConstraints(k: string, env: CommentEnv): seq<Constraint>
  {
    if k in env.formTypes then env.nested(k).added else []
  }

  /** The errors the nested compiler for one report type records in the query. */
  function TypeErrors(k: string, env: CommentEnv): seq<QueryError>
  {
    if k in env.formTypes then env.nested(k).errors else []
  }

  /** The foreach over the selected types. */
  function BuildTypes(reportTypes: seq<string>, env: CommentEnv): TypeMap
  {
    if reportTypes == [] then []
    else
      var n := |reportTypes| - 1;
      Put(BuildTypes(reportTypes[..n], env), reportTypes[n], TypeConstraints(reportTypes[n], env))
  }

  function NestedErrors(reportTypes: seq<string>, env: CommentEnv): seq<QueryError>
  {
    if reportTypes == [] then []
    else
      var n := |reportTypes| - 1;
      NestedErrors(reportTypes[..n], env) + TypeErrors(reportTypes[n], env)
  }

  /** The types array has one entry per distinct selected type, in order of first
      selection, holding that type's nested constraints. */
  lemma {:induction false} BuildTypesProperties(reportTypes: seq<string>, env: CommentEnv)
    ensures Keys(BuildTypes(reportTypes, env)) == Dedup(reportTypes)
    ensures forall i :: 0 <= i < |BuildTypes(reportTypes, env)| ==>
      BuildTypes(reportTypes, env)[i].1 == TypeConstraints(BuildTypes(reportTypes, env)[i].0, env)
  {
    if reportTypes != [] {
      var n := |reportTypes| - 1;
      var init := reportTypes[..n];
      BuildTypesProperties(init, env);
      DedupProperties(init);
      PutProperties(BuildTypes(init, env), reportTypes[n], TypeConstraints(reportTypes[n], env));
    }
  }

  /** One disjunct: the content type, and then that type's nested constraints. */
  function Alternative(t: (string, seq<Constraint>)): Constraint
  {
    And([Meta("report_content_type", [Str(t.0)])] + t.1)
  }

  function Alternatives(ts: TypeMap): (r: seq<Constraint>)
    ensures |r| == |ts| && forall i :: 0 <= i < |ts| ==> r[i] == Alternative(ts[i])
  {
    seq(|ts|, i requires 0 <= i < |ts| => Alternative(ts[i]))
  }

  /** The report type part, and whether it overwrote `$constraints` with the list of
      disjuncts (several types). */
  datatype TypeResult = TypeResult(effect: HelperEffect, overwritten: bool)

  function TypeStep(f: CommentFilters, env: CommentEnv, url: UrlConstraints): TypeResult
  {
    if |f.reportTypes| == 0 then TypeResult(HelperEffect([], [], url), false)
    else
      var limited := !env.elastic && |f.reportTypes| > 1;
      var tierErrors := if limited then [QueryError("c.report.type", OnlySingleReportTypePermitted)] else [];
      var reportTypes := if limited then [] else f.reportTypes;
      var types := BuildTypes(reportTypes, env);
      var errors := tierErrors + NestedErrors(reportTypes, env);
      if |types| == 0 then
        TypeResult(HelperEffect([], errors, UnsetUrlConstraint(url, "c.report.type")), false)
      else if |types| > 1 then
        TypeResult(HelperEffect([Or(Alternatives(types))], errors,
                                SetUrlConstraint(url, "c.report.type", Keys(types))), true)
      else
        TypeResult(HelperEffect([Meta("report_content_type", Strs(Keys(types)))] + types[0].1, errors,
                                SetUrlConstraint(url, "c.report.type", Keys(types))), false)
  }

  /** On the limited backend, selecting more than one report type (even the same one
      twice) records the single-type error and drops every type: no type constraint,
      no nested compiler runs, and the URL entry is removed. */
  lemma LimitedTierRejectsSeveralTypes(f: CommentFilters, env: CommentEnv, url: UrlConstraints)
    requires !env.elastic && |f.reportTypes| > 1
    ensures TypeStep(f, env, url).effect.added == []
    ensures TypeStep(f, env, url).effect.errors == [QueryError("c.report.type", OnlySingleReportTypePermitted)]
    ensures TypeStep(f, env, url).effect.url == url - {"c.report.type"}
    ensures !TypeStep(f, env, url).overwritten
  {
  }

  /** A record passes the disjunction iff its content type is one of the entries and it
      passes that entry's nested constraints. */
  lemma AlternativesMeaning(ts: TypeMap, md: Metadata)
    ensures Holds(Or(Alternatives(ts)), md) <==>
      exists i :: 0 <= i < |ts| && "report_content_type" in md && md["report_content_type"] == Str(ts[i].0) &&
                  AllHold(ts[i].1, md)
  {
    var alts := Alternatives(ts);
    if Holds(Or(alts), md) {
      var x :| x in alts && Holds(x, md);
      var i :| 0 <= i < |alts| && alts[i] == x;
      var head := Meta("report_content_type", [Str(ts[i].0)]);
      assert x == And([head] + ts[i].1);
      assert head in x.children;
      assert Holds(head, md);
      assert md["report_content_type"] == Str(ts[i].0);
      forall y | y in ts[i].1 ensures Holds(y, md) {
        assert y in x.children;
      }
      assert AllHold(ts[i].1, md);
    }
    if exists i :: 0 <= i < |ts| && "report_content_type" in md && md["report_content_type"] == Str(ts[i].0) &&
                   AllHold(ts[i].1, md) {
      var i :| 0 <= i < |ts| && "report_content_type" in md && md["report_content_type"] == Str(ts[i].0) &&
               AllHold(ts[i].1, md);
      var head := Meta("report_content_type", [Str(ts[i].0)]);
      assert alts[i] == And([head] + ts[i].1);
      forall y | y in alts[i].children ensures Holds(y, md) {
        if y != head {
          assert y in ts[i].1;
        }
      }
      assert Holds(alts[i], md);
      assert alts[i] in alts;
      assert Holds(Or(alts), md);
    }
  }

  /** A record passes some entry of the types array iff its content type is a selected
      type and it passes that type's nested constraints. */
  lemma BuildTypesMeaning(reportTypes: seq<string>, env: CommentEnv, md: Metadata)
    ensures (exists i :: 0 <= i < |BuildTypes(reportTypes, env)| &&
               "report_content_type" in md && md["report_content_type"] == Str(BuildTypes(reportTypes, env)[i].0) &&
               AllHold(BuildTypes(reportTypes, env)[i].1, md)) <==>
            (exists k :: k in reportTypes && "report_content_type" in md && md["report_content_type"] == Str(k) &&
               AllHold(TypeConstraints(k, env), md))
  {
    var types := BuildTypes(reportTypes, env);
    BuildTypesProperties(reportTypes, env);
    DedupProperties(reportTypes);
    if exists k :: k in reportTypes && "report_content_type" in md && md["report_content_type"] == Str(k) &&
                   AllHold(TypeConstraints(k, env), md) {
      var k :| k in reportTypes && "report_content_type" in md && md["report_content_type"] == Str(k) &&
               AllHold(TypeConstraints(k, env), md);
      assert k in Keys(types);
      var i :| 0 <= i < |Keys(types)| && Keys(types)[i] == k;
      assert types[i].0 == k;
    }
    if exists i :: 0 <= i < |types| && "report_content_type" in md && md["report_content_type"] == Str(types[i].0) &&
                   AllHold(types[i].1, md) {
      var i :| 0 <= i < |types| && "report_content_type" in md && md["report_content_type"] == Str(types[i].0) &&
               AllHold(types[i].1, md);
      assert Keys(types)[i] in Dedup(reportTypes);
    }
  }

  /** With several distinct types selected on Elasticsearch, exactly one
      Or is added, which a record passes iff its content type is one of the selected
      types and it passes that type's nested constraints; the URL gets the distinct
      types in order of first selection and the helpers lose the filtered values. */
  lemma SeveralTypes(f: CommentFilters, env: CommentEnv, url: UrlConstraints, md: Metadata)
    requires env.elastic && |Dedup(f.reportTypes)| > 1
    ensures |TypeStep(f, env, url).effect.added| == 1 && TypeStep(f, env, url).effect.added[0].Or?
    ensures |TypeStep(f, env, url).effect.added[0].children| == |Dedup(f.reportTypes)|
    ensures Holds(TypeStep(f, env, url).effect.added[0], md) <==>
      exists k :: k in f.reportTypes && "report_content_type" in md && md["report_content_type"] == Str(k) &&
                  AllHold(TypeConstraints(k, env), md)
    ensures TypeStep(f, env, url).effect.url == url["c.report.type" := Dedup(f.reportTypes)]
    ensures TypeStep(f, env, url).effect.errors == NestedErrors(f.reportTypes, env)
    ensures TypeStep(f, env, url).overwritten
  {
    DedupProperties(f.reportTypes);
    var types := BuildTypes(f.reportTypes, env);
    BuildTypesProperties(f.reportTypes, env);
    assert |types| > 1;
    assert TypeStep(f, env, url) ==
      TypeResult(HelperEffect([Or(Alternatives(types))], NestedErrors(f.reportTypes, env),
                              url["c.report.type" := Keys(types)]), true);
    AlternativesMeaning(types, md);
    BuildTypesMeaning(f.reportTypes, env, md);
  }

  /** With one distinct type selected and accepted by the tier, its content type is added
      as an equality and its nested constraints follow only when there are any. */
  lemma SingleType(f: CommentFilters, env: CommentEnv, url: UrlConstraints, k: string)
    requires |f.reportTypes| > 0 && (env.elastic || |f.reportTypes| == 1)
    requires forall x :: x in f.reportTypes ==> x == k
    ensures TypeStep(f, env, url).effect.added == [Meta("report_content_type", [Str(k)])] + TypeConstraints(k, env)
    ensures TypeStep(f, env, url).effect.url == url["c.report.type" := [k]]
    ensures !TypeStep(f, env, url).overwritten
  {
    DedupProperties(f.reportTypes);
    BuildTypesProperties(f.reportTypes, env);
    var types := BuildTypes(f.reportTypes, env);
    assert f.reportTypes[0] in f.reportTypes;
    assert |Dedup(f.reportTypes)| >= 1;
    DedupOfRepeats(f.reportTypes, k);
    assert Strs(Keys(types)) == [Str(k)];
  }

  lemma {:induction false} DedupOfRepeats(s: seq<string>, k: string)
    requires |s| > 0 && forall x :: x in s ==> x == k
    ensures Dedup(s) == [k]
  {
    var n := |s| - 1;
    assert s[n] in s;
    if n > 0 {
      assert forall x :: x in s[..n] ==> x in s;
      assert s[..n][0] in s[..n];
      DedupOfRepeats(s[..n], k);
    }
  }

  /** The report type part of the compiler. */
  method ApplyReportTypes(query: Query, f: CommentFilters, env: CommentEnv, url0: UrlConstraints)
    returns (url: UrlConstraints, overwritten: bool)
    modifies query
    ensures query.constraints == old(query.constraints) + TypeStep(f, env, url0).effect.added
    ensures query.errors == old(query.errors) + TypeStep(f, env, url0).effect.errors
    ensures url == TypeStep(f, env, url0).effect.url
    ensures overwritten == TypeStep(f, env, url0).overwritten
  {
    url := url0;
    overwritten := false;
    var reportTypes := f.reportTypes;
    if |reportTypes| == 0 {
      return;
    }
    ghost var tierErrors: seq<QueryError> := [];
    if !env.elastic && |reportTypes| > 1 {
      query.Error(QueryError("c.report.type", OnlySingleReportTypePermitted));
      tierErrors := [QueryError("c.report.type", OnlySingleReportTypePermitted)];
      reportTypes := [];
    }
    var types := CompileTypes(query, reportTypes, env);
    if |types| != 0 {
      if |types| > 1 {
        var alternatives := BuildAlternatives(types);
        query.WithMetadata(Or(alternatives));
        overwritten := true;
      } else {
        query.WithMetadata(Meta("report_content_type", Strs(Keys(types))));
        if |types[0].1| != 0 {
          query.WithMetadataList(types[0].1);
        }
      }
      url := SetUrlConstraint(url, "c.report.type", Keys(types));
    } else {
      url := UnsetUrlConstraint(url, "c.report.type");
    }
  }

  /** The foreach over the selected types. Each search-form handler compiles its own
      filters into an emptied query; its constraints are taken out and the outer
      constraints put back, while the errors it records stay. The URL set it is given is
      a copy, so its changes are dropped. */
  method CompileTypes(query: Query, reportTypes: seq<string>, env: CommentEnv) returns (types: TypeMap)
    modifies query
    ensures types == BuildTypes(reportTypes, env)
    ensures query.constraints == old(query.constraints)
    ensures query.errors == old(query.errors) + NestedErrors(reportTypes, env)
  {
    types := [];
    var i := 0;
    while i < |reportTypes|
      invariant 0 <= i <= |reportTypes|
      invariant types == BuildTypes(reportTypes[..i], env)
      invariant query.constraints == old(query.constraints)
      invariant query.errors == old(query.errors) + NestedErrors(reportTypes[..i], env)
    {
      assert reportTypes[..i + 1][..i] == reportTypes[..i] && reportTypes[..i + 1][i] == reportTypes[i];
      var reportType := reportTypes[i];
      if reportType in env.formTypes {
        var oldConstraints := query.constraints;
        query.SetMetadataConstraints([]);
        var _ := ApplyEffect(query, env.nested(reportType));
        assert query.constraints == env.nested(reportType).added;
        types := Put(types, reportType, query.constraints);
        query.SetMetadataConstraints(oldConstraints);
      } else {
        types := Put(types, reportType, []);
      }
      i := i + 1;
    }
    assert reportTypes[..i] == reportTypes;
  }

  /** The foreach building one disjunct per entry of the types array. */
  method BuildAlternatives(types: TypeMap) returns (alternatives: seq<Constraint>)
    ensures alternatives == Alternatives(types)
  {
    alternatives := [];
    var j := 0;
    while j < |types|
      invariant 0 <= j <= |types|
      invariant alternatives == Alternatives(types[..j])
    {
      alternatives := alternatives + [Alternative(types[j])];
      j := j + 1;
    }
    assert types[..j] == types;
  }

  // ---------------------------------------------------------------- the whole compiler

  /** The repository helpers in the order the compiler calls them. */
  function Helpers(repo: Repo, input: FilterInput, url: UrlConstraints): HelperEffect
  {
    var e1 := repo.userConstraint(input, url, "c.report_user", "report_user");
    var e2 := repo.userConstraint(input, e1.url, "c.assigned", "assigned_user");
    var e3 := repo.userConstraint(input, e2.url, "c.assigner", "assigner_user");
    var e4 := repo.userConstraint(input, e3.url, "c.participants", "discussion_user");
    var e5 := repo.rangeConstraint(input, e4.url, "c.replies.lower", "c.replies.upper", "replies");
    Then(e1, Then(e2, Then(e3, Then(e4, e5))))
  }

  /** The array the helpers are handed: the filtered values, or, once several types were
      compiled, the list of disjuncts, which holds nothing under a filter key. */
  function HelperInput(f: CommentFilters, overwritten: bool): FilterInput
  {
    if overwritten then map[] else Filtered(f)
  }

  /** What applyTypeConstraintsFromInput adds to the query, the errors it records and the
      URL set it leaves. */
  function Compile(f: CommentFilters, env: CommentEnv, url: UrlConstraints): HelperEffect
  {
    var st := StateStep(f, env.knownStates, url);
    var ty := TypeStep(f, env, st.url);
    var hs := Helpers(env.repo, HelperInput(f, ty.overwritten), ty.effect.url);
    HelperEffect(IsReportStep(f) + st.added + ty.effect.added + hs.added,
                 st.errors + ty.effect.errors + hs.errors,
                 hs.url)
  }

  /** With several distinct types, every helper is handed an array without any filter
      value, so the user and replies filters are lost; otherwise it gets the filtered
      values, in which the report-user filter is missing. */
  lemma HelpersInputs(f: CommentFilters, env: CommentEnv, url: UrlConstraints)
    ensures env.elastic && |Dedup(f.reportTypes)| > 1 ==> TypeStep(f, env, url).overwritten
    ensures TypeStep(f, env, url).overwritten ==> HelperInput(f, true) == map[]
    ensures !TypeStep(f, env, url).overwritten ==> "c.report_user" !in HelperInput(f, false)
  {
    if env.elastic && |Dedup(f.reportTypes)| > 1 {
      SeveralTypes(f, env, url, map[]);
    }
  }

  method ApplyTypeConstraintsFromInput(query: Query, f: CommentFilters, env: CommentEnv, url0: UrlConstraints)
    returns (url: UrlConstraints)
    modifies query
    ensures query.constraints == old(query.constraints) + Compile(f, env, url0).added
    ensures query.errors == old(query.errors) + Compile(f, env, url0).errors
    ensures url == Compile(f, env, url0).url
  {
    ApplyIsReport(query, f);
    ghost var q0 := query.constraints;
    ghost var e0 := query.errors;
    url := ApplyReportStates(query, f, env.knownStates, url0);
    ghost var st := StateStep(f, env.knownStates, url0);
    ghost var q1 := query.constraints;
    ghost var e1 := query.errors;
    var overwritten;
    ghost var ty := TypeStep(f, env, st.url);
    url, overwritten := ApplyReportTypes(query, f, env, url);
    ghost var q2 := query.constraints;
    ghost var e2 := query.errors;
    ghost var hs := Helpers(env.repo, HelperInput(f, ty.overwritten), ty.effect.url);
    url := ApplyHelpers(query, env.repo, HelperInput(f, overwritten), url);
    Append4(old(query.constraints), IsReportStep(f), st.added, ty.effect.added, hs.added);
    Append3(old(query.errors), st.errors, ty.effect.errors, hs.errors);
  }

  lemma Append3<T>(a: seq<T>, b: seq<T>, c: seq<T>, d: seq<T>)
    ensures a + b + c + d == a + (b + c + d)
  {
  }

  lemma Append4<T>(a: seq<T>, b: seq<T>, c: seq<T>, d: seq<T>, e: seq<T>)
    ensures a + b + c + d + e == a + (b + c + d + e)
  {
  }

  /** The is_report part of the compiler. */
  method ApplyIsReport(query: Query, f: CommentFilters)
    modifies query
    ensures query.constraints == old(query.constraints) + IsReportStep(f)
    ensures query.errors == old(query.errors)
  {
    var isReport := CollectIsReportCodes(f);
    if |isReport| != 0 && |isReport| != |FlagCodes| {
      query.WithMetadata(Meta("is_report", Ints(isReport)));
    }
  }

  /** The report_state part of the compiler. */
  method ApplyReportStates(query: Query, f: CommentFilters, known: set<string>, url0: UrlConstraints)
    returns (url: UrlConstraints)
    modifies query
    ensures query.constraints == old(query.constraints) + StateStep(f, known, url0).added
    ensures query.errors == old(query.errors) + StateStep(f, known, url0).errors
    ensures url == StateStep(f, known, url0).url
  {
    url := url0;
    var reportStates := f.reportStates;
    if |reportStates| != 0 && "0" !in reportStates {
      reportStates := Dedup(reportStates);
      var badReportStates := BadStates(reportStates, known);
      if |badReportStates| != 0 {
        query.Error(QueryError("report.state", UnknownReportStates(badReportStates)));
      } else {
        query.WithMetadata(Meta("report_state", Strs(reportStates)));
        url := SetUrlConstraint(url, "c.report.state", reportStates);
      }
    } else {
      url := UnsetUrlConstraint(url, "c.report.state");
    }
  }

  /** The repository helper calls at the end of the compiler. */
  method ApplyHelpers(query: Query, repo: Repo, input: FilterInput, url0: UrlConstraints)
    returns (url: UrlConstraints)
    modifies query
    ensures query.constraints == old(query.constraints) + Helpers(repo, input, url0).added
    ensures query.errors == old(query.errors) + Helpers(repo, input, url0).errors
    ensures url == Helpers(repo, input, url0).url
  {
    url := ApplyEffect(query, repo.userConstraint(input, url0, "c.report_user", "report_user"));
    url := ApplyEffect(query, repo.userConstraint(input, url, "c.assigned", "assigned_user"));
    url := ApplyEffect(query, repo.userConstraint(input, url, "c.assigner", "assigner_user"));
    url := ApplyEffect(query, repo.userConstraint(input, url, "c.participants", "discussion_user"));
    url := ApplyEffect(query, repo.rangeConstraint(input, url, "c.replies.lower", "c.replies.upper", "replies"));
  }

  // ---------------------------------------------------------------- permissions, sorting

  /** getTypePermissionConstraints: with report search kept out of account postings every
      report record is excluded; otherwise a viewer who cannot see reporters loses the
      user reports; otherwise nothing is excluded. */
  function TypePermissionConstraints(reportInAccountPostings: bool, canViewReporter: bool): seq<Constraint>
  {
    if !reportInAccountPostings then [MetaNone("type", [Str("report")])]
    else if !canViewReporter then [MetaNone("is_report", [Int(ReportCommentData.REPORT_TYPE_USER_REPORT)])]
    else []
  }

  /** What the permission constraints let through, case by case. */
  lemma PermissionMeaning(reportInAccountPostings: bool, canViewReporter: bool, md: Metadata)
    ensures !reportInAccountPostings ==>
      (AllHold(TypePermissionConstraints(reportInAccountPostings, canViewReporter), md) <==>
       !("type" in md && md["type"] == Str("report")))
    ensures reportInAccountPostings && !canViewReporter ==>
      (AllHold(TypePermissionConstraints(reportInAccountPostings, canViewReporter), md) <==>
       !("is_report" in md && md["is_report"] == Int(ReportCommentData.REPORT_TYPE_USER_REPORT)))
    ensures reportInAccountPostings && canViewReporter ==>
      AllHold(TypePermissionConstraints(reportInAccountPostings, canViewReporter), md)
  {
    var cs := TypePermissionConstraints(reportInAccountPostings, canViewReporter);
    if cs != [] {
      assert cs[0] in cs;
    }
  }

  /** For a viewer who cannot see reporters, a comment's record passes iff the comment is
      not a user report, and every report record passes. */
  lemma ReporterGate(c: Entities.ReportCommentRow, r: Entities.ReportEntity, discussion: Metadata,
                     md: Metadata, report: Entities.ReportEntity)
    requires ReportCommentData.MetaData(c, r, discussion, md) && "is_report" !in discussion
    ensures AllHold(TypePermissionConstraints(true, false), md) <==> !c.isReport
    ensures AllHold(TypePermissionConstraints(true, false), ReportData.GetMetaData(report))
  {
    PermissionMeaning(true, false, md);
    PermissionMeaning(true, false, ReportData.GetMetaData(report));
  }

  /** The metadata a record is searched with: the search index keeps each record's
      content type under `type` beside the handler's own metadata. */
  function SearchedMetadata(rec: Entities.IndexRecord): (md: Metadata)
    ensures "type" in md && md["type"] == Str(rec.contentType)
    ensures forall k :: k in rec.metadata && k != "type" ==> k in md && md[k] == rec.metadata[k]
  {
    rec.metadata["type" := Str(rec.contentType)]
  }

  /** With report search kept out of account postings, a report's record never passes
      and a record of any other content type always does. */
  lemma PostingsGate(e: Entities.ReportEntity, rec: Entities.IndexRecord, canViewReporter: bool)
    ensures ReportData.GetIndexData(e).Indexed? && ReportData.GetIndexData(e).record == Some(rec) ==>
      !AllHold(TypePermissionConstraints(false, canViewReporter), SearchedMetadata(rec))
    ensures rec.contentType != "report" ==>
      AllHold(TypePermissionConstraints(false, canViewReporter), SearchedMetadata(rec))
  {
    PermissionMeaning(false, canViewReporter, SearchedMetadata(rec));
  }

  /** getSortOrders: only the Elasticsearch tier sorts by reply count. */
  function SortOrders(elastic: bool): set<string>
  {
    if elastic then {"replies"} else {}
  }

  /** getTypeOrder: a sort order of this handler sorts by that field and then by date;
      None is the parent's getTypeOrder, which is not part of this model. */
  function TypeOrder(order: string, elastic: bool): (r: Option<seq<string>>)
    ensures r.Some? <==> elastic && order == "replies"
    ensures r.Some? ==> r.value == [order, "date"] && r.value[0] in SortOrders(elastic)
  {
    if order in SortOrders(elastic) then Some([order, "date"]) else None
  }
}
