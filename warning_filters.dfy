/** The `warning_log` handler's filter compiler (applyTypeConstraintsFromInput) and its
    permission constraints. */
module WarningLogFilters {
  import opened Common
  import opened Constraints
  import opened SearchImprovements
  import ReportCommentFilters
  import WarningLogData
  import Entities
  import ReportCommentData

  /** The warning filters of the request, already coerced; `comment` holds the ones the
      report_comment compiler reads from the same request. */
  datatype WarningFilters = WarningFilters(
    comment: ReportCommentFilters.CommentFilters,
    latest: Option<bool>,
    types: seq<string>,
    moderator: string,
    pointsLower: nat,
    pointsUpper: Option<nat>,
    expiryType: string,
    expiryLower: int,
    expiryUpper: Option<int>)

  /** The filtered `$constraints` array. */
  function Filtered(w: WarningFilters): FilterInput
  {
    map[
      "c.warning.latest" := FOptBool(w.latest),
      "c.warning.type" := FStrs(w.types),
      "c.warning.mod" := FStr(w.moderator),
      "c.warning.points.lower" := FNat(w.pointsLower),
      "c.warning.points.upper" := FOptNat(w.pointsUpper),
      "c.warning.expiry_type" := FStr(w.expiryType),
      "c.warning.expiry.lower" := FDate(w.expiryLower),
      "c.warning.expiry.upper" := FOptDate(w.expiryUpper)]
  }

  /** The report_comment compiler's inputs, WarningType::get() and the request time. */
  datatype WarningEnv = WarningEnv(
    comment: ReportCommentFilters.CommentEnv,
    warningTypes: seq<string>,
    now: int)

  // ---------------------------------------------------------------- latest version

  function LatestStep(latest: Option<bool>, url: UrlConstraints): HelperEffect
  {
    match latest
    case Some(true) => HelperEffect([Exists("is_latest_version")], [], url)
    case Some(false) => HelperEffect([Not(Exists("is_latest_version"))], [], url)
    case None => HelperEffect([], [], UnsetUrlConstraint(url, "c.warning.latest"))
  }

  /** The latest filter is tri-state: a set value adds one constraint that a record
      passes iff whether it carries is_latest_version matches the value, and leaves the
      URL set alone; no value adds nothing and clears the URL entry. */
  lemma LatestTriState(latest: Option<bool>, url: UrlConstraints, md: Metadata)
    ensures latest.None? ==>
      LatestStep(latest, url).added == [] && LatestStep(latest, url).url == url - {"c.warning.latest"}
    ensures latest.Some? ==>
      |LatestStep(latest, url).added| == 1 && LatestStep(latest, url).url == url &&
      (Holds(LatestStep(latest, url).added[0], md) <==> ("is_latest_version" in md <==> latest.value))
    ensures LatestStep(latest, url).errors == []
  {
  }

  /** On a warning log's own record, `latest = true` keeps exactly the latest versions
      and `latest = false` exactly the others. */
  lemma LatestSelectsVersions(w: Entities.WarningLogRow, c: Entities.ReportCommentRow, reportMeta: Metadata,
                              latest: bool, url: UrlConstraints)
    requires "is_latest_version" !in reportMeta
    ensures Holds(LatestStep(Some(latest), url).added[0], WarningLogData.GetMetaData(w, c, reportMeta)) <==>
      (w.isLatestVersion <==> latest)
  {
    LatestTriState(Some(latest), url, WarningLogData.GetMetaData(w, c, reportMeta));
  }

  // ---------------------------------------------------------------- warning types

  /** The foreach keeping the selected values that are known warning types, duplicates
      included. */
  function KnownTypes(raw: seq<string>, known: seq<string>): seq<string>
  {
    if raw == [] then []
    else
      var n := |raw| - 1;
      KnownTypes(raw[..n], known) + (if raw[n] in known then [raw[n]] else [])
  }

  lemma {:induction false} KnownTypesMembers(raw: seq<string>, known: seq<string>)
    ensures forall x :: x in KnownTypes(raw, known) <==> x in raw && x in known
    ensures |KnownTypes(raw, known)| <= |raw|
  {
    if raw != [] {
      var n := |raw| - 1;
      KnownTypesMembers(raw[..n], known);
      assert forall x :: x in raw <==> x in raw[..n] || x == raw[n];
    }
  }

  method KeepKnownTypes(raw: seq<string>, known: seq<string>) returns (warningTypes: seq<string>)
    ensures warningTypes == KnownTypes(raw, known)
  {
    warningTypes := [];
    var i := 0;
    while i < |raw|
      invariant 0 <= i <= |raw|
      invariant warningTypes == KnownTypes(raw[..i], known)
    {
      assert raw[..i + 1][..i] == raw[..i];
      if raw[i] in known {
        warningTypes := warningTypes + [raw[i]];
      }
      i := i + 1;
    }
    assert raw[..i] == raw;
  }

  function WarningTypeStep(raw: seq<string>, known: seq<string>, url: UrlConstraints): HelperEffect
  {
    if |raw| != 0 then
      var kept := KnownTypes(raw, known);
      if |kept| != 0 && |kept| < |known| then
        HelperEffect([Meta("warning_type", Strs(kept))], [], SetUrlConstraint(url, "c.warning.type", kept))
      else HelperEffect([], [], UnsetUrlConstraint(url, "c.warning.type"))
    else HelperEffect([], [], UnsetUrlConstraint(url, "c.warning.type"))
  }

  /** Unknown types are dropped. A warning_type constraint is added, and the kept
      values put in the URL set, iff between one and fewer than all-known-many values
      are kept; a record passes it iff its warning type is a selected known type.
      Otherwise the URL entry is removed. */
  lemma WarningTypeLaw(raw: seq<string>, known: seq<string>, url: UrlConstraints, md: Metadata)
    ensures WarningTypeStep(raw, known, url).errors == []
    ensures var kept := KnownTypes(raw, known);
      (WarningTypeStep(raw, known, url).added != [] <==> 0 < |kept| < |known|) &&
      (0 < |kept| < |known| ==>
        |WarningTypeStep(raw, known, url).added| == 1 &&
        WarningTypeStep(raw, known, url).url == url["c.warning.type" := kept] &&
        (Holds(WarningTypeStep(raw, known, url).added[0], md) <==>
         "warning_type" in md && md["warning_type"].Str? && md["warning_type"].s in raw &&
         md["warning_type"].s in known)) &&
      (!(0 < |kept| < |known|) ==> WarningTypeStep(raw, known, url).url == url - {"c.warning.type"})
  {
    var kept := KnownTypes(raw, known);
    KnownTypesMembers(raw, known);
    if raw == [] {
      assert kept == [];
    }
    if "warning_type" in md && md["warning_type"] in Strs(kept) {
      var i :| 0 <= i < |Strs(kept)| && Strs(kept)[i] == md["warning_type"];
      assert kept[i] in kept;
    }
    if "warning_type" in md && md["warning_type"].Str? && md["warning_type"].s in kept {
      var i :| 0 <= i < |kept| && kept[i] == md["warning_type"].s;
      assert Strs(kept)[i] == md["warning_type"];
    }
  }

  /** Repeated values count towards the known-type total: with two known types,
      selecting the first one twice adds no warning_type constraint. */
  lemma RepeatedTypeCountsAsAll(url: UrlConstraints)
    ensures WarningTypeStep(["warning", "warning"], ["warning", "reply_ban"], url).added == []
  {
    assert KnownTypes(["warning", "warning"], ["warning", "reply_ban"]) == ["warning", "warning"] by {
      assert ["warning", "warning"][..1] == ["warning"];
      assert KnownTypes(["warning"], ["warning", "reply_ban"]) == ["warning"] by {
        assert ["warning"][..0] == [];
      }
    }
  }

  // ---------------------------------------------------------------- expiry

  /** What the expiry-type switch leaves: the constraints it adds, the bounds it hands
      to the date range helper, and whether it clears the URL entry of the type. */
  datatype ExpiryPlan = ExpiryPlan(added: seq<Constraint>, lower: FilterValue, upper: FilterValue, clearType: bool)

  function Expiry(w: WarningFilters, now: int): ExpiryPlan
  {
    if w.expiryType == "active" then ExpiryPlan([], FDate(now), FOptDate(None), false)
    else if w.expiryType == "active_never_expires" then
      ExpiryPlan([Not(Exists("expiry_date"))], FDate(0), FOptDate(None), false)
    else if w.expiryType == "expired" then ExpiryPlan([], FDate(0), FOptDate(Some(now)), false)
    else if w.expiryType == "date" then ExpiryPlan([], FDate(w.expiryLower), FOptDate(w.expiryUpper), false)
    else ExpiryPlan([], FDate(0), FOptDate(None), true)
  }

  /** The array the date range helper is handed, after the switch. */
  function ExpiryInput(w: WarningFilters, now: int): FilterInput
  {
    var plan := Expiry(w, now);
    Filtered(w)["c.warning.expiry.lower" := plan.lower]["c.warning.expiry.upper" := plan.upper]
  }

  /** The expiry type fixes the bounds before the range is applied: `date` keeps the
      user's bounds, any other type replaces them; `active_never_expires` alone adds a
      constraint and an unknown type alone clears its URL entry. Only the two bounds
      change. */
  lemma ExpiryBounds(w: WarningFilters, now: int)
    ensures w.expiryType == "date" ==> ExpiryInput(w, now) == Filtered(w)
    ensures w.expiryType == "active" ==>
      ExpiryInput(w, now)["c.warning.expiry.lower"] == FDate(now) &&
      ExpiryInput(w, now)["c.warning.expiry.upper"] == FOptDate(None)
    ensures w.expiryType == "expired" ==>
      ExpiryInput(w, now)["c.warning.expiry.lower"] == FDate(0) &&
      ExpiryInput(w, now)["c.warning.expiry.upper"] == FOptDate(Some(now))
    ensures w.expiryType !in {"active", "expired", "date"} ==>
      ExpiryInput(w, now)["c.warning.expiry.lower"] == FDate(0) &&
      ExpiryInput(w, now)["c.warning.expiry.upper"] == FOptDate(None)
    ensures Expiry(w, now).added != [] <==> w.expiryType == "active_never_expires"
    ensures Expiry(w, now).clearType <==> w.expiryType !in {"active", "active_never_expires", "expired", "date"}
    ensures forall k :: k in Filtered(w) && k != "c.warning.expiry.lower" && k != "c.warning.expiry.upper" ==>
      k in ExpiryInput(w, now) && ExpiryInput(w, now)[k] == Filtered(w)[k]
  {
  }

  /** `active_never_expires` keeps exactly the warning logs without an expiry date. */
  lemma NeverExpiresSelectsOpenEnded(w: WarningFilters, now: int, log: Entities.WarningLogRow,
                                     c: Entities.ReportCommentRow, reportMeta: Metadata)
    requires w.expiryType == "active_never_expires" && "expiry_date" !in reportMeta
    ensures AllHold(Expiry(w, now).added, WarningLogData.GetMetaData(log, c, reportMeta)) <==> log.expiryDate == 0
  {
    NeverExpiresPlan(w, now);
    var md := WarningLogData.GetMetaData(log, c, reportMeta);
    AbsentKeyHolds("expiry_date", md);
  }

  lemma NeverExpiresPlan(w: WarningFilters, now: int)
    requires w.expiryType == "active_never_expires"
    ensures Expiry(w, now).added == [Not(Exists("expiry_date"))]
  {
    ExpiryTypesDistinct();
  }

  lemma AbsentKeyHolds(key: string, md: Metadata)
    ensures AllHold([Not(Exists(key))], md) <==> key !in md
  {
    AllHoldOne(Not(Exists(key)), md);
  }

  lemma ExpiryTypesDistinct()
    ensures "active_never_expires" != "active" && "active_never_expires" != "expired"
    ensures "active_never_expires" != "date"
  {
    assert |"active_never_expires"| == 20;
  }

  lemma AllHoldOne(c: Constraint, md: Metadata)
    ensures AllHold([c], md) <==> Holds(c, md)
  {
    assert c in [c];
  }

  // ---------------------------------------------------------------- the whole compiler

  /** The latest, type, moderator and points filters. */
  function HeadSteps(w: WarningFilters, env: WarningEnv, url: UrlConstraints): HelperEffect
  {
    var repo := env.comment.repo;
    var l := LatestStep(w.latest, url);
    var t := WarningTypeStep(w.types, env.warningTypes, l.url);
    var u := repo.userConstraint(Filtered(w), t.url, "c.warning.mod", "issuer_user");
    var p := repo.rangeConstraint(Filtered(w), u.url, "c.warning.points.lower", "c.warning.points.upper", "points");
    HelperEffect(l.added + t.added + u.added + p.added, u.errors + p.errors, p.url)
  }

  /** The expiry switch, then the date range helper on the bounds it leaves. */
  function ExpirySteps(w: WarningFilters, env: WarningEnv, url: UrlConstraints): HelperEffect
  {
    var plan := Expiry(w, env.now);
    var urlX := if plan.clearType then UnsetUrlConstraint(url, "c.warning.expiry_type") else url;
    var d := env.comment.repo.dateRangeConstraint(ExpiryInput(w, env.now), urlX,
                                                  "c.warning.expiry.lower", "c.warning.expiry.upper", "expiry_date");
    HelperEffect(plan.added + d.added, d.errors, d.url)
  }

  /** What the warning part of the compiler does after the report_comment compiler ran. */
  function WarningSteps(w: WarningFilters, env: WarningEnv, url: UrlConstraints): HelperEffect
  {
    var h := HeadSteps(w, env, url);
    Then(h, ExpirySteps(w, env, h.url))
  }

  /** applyTypeConstraintsFromInput: the report_comment compiler first, then the
      warning filters on the URL set it leaves. */
  function Compile(w: WarningFilters, env: WarningEnv, url: UrlConstraints): HelperEffect
  {
    var c := ReportCommentFilters.Compile(w.comment, env.comment, url);
    Then(c, WarningSteps(w, env, c.url))
  }

  /** The report comment filters come first: what the report_comment compiler adds and
      records is a prefix of what the warning compiler adds and records, and the warning
      part starts from the URL set it leaves. */
  lemma CommentFiltersFirst(w: WarningFilters, env: WarningEnv, url: UrlConstraints)
    ensures var c := ReportCommentFilters.Compile(w.comment, env.comment, url);
      |c.added| <= |Compile(w, env, url).added| &&
      Compile(w, env, url).added[..|c.added|] == c.added &&
      |c.errors| <= |Compile(w, env, url).errors| &&
      Compile(w, env, url).errors[..|c.errors|] == c.errors &&
      Compile(w, env, url).url == WarningSteps(w, env, c.url).url
  {
    var c := ReportCommentFilters.Compile(w.comment, env.comment, url);
    var s := WarningSteps(w, env, c.url);
    assert (c.added + s.added)[..|c.added|] == c.added;
    assert (c.errors + s.errors)[..|c.errors|] == c.errors;
  }

  /** Applying two effects in turn appends what `Then` of them adds. */
  lemma ThenAppends(added0: seq<Constraint>, errors0: seq<QueryError>, a: HelperEffect, b: HelperEffect)
    ensures added0 + a.added + b.added == added0 + Then(a, b).added
    ensures errors0 + a.errors + b.errors == errors0 + Then(a, b).errors
  {
  }

  method ApplyTypeConstraintsFromInput(query: Query, w: WarningFilters, env: WarningEnv, url0: UrlConstraints)
    returns (url: UrlConstraints)
    modifies query
    ensures query.constraints == old(query.constraints) + Compile(w, env, url0).added
    ensures query.errors == old(query.errors) + Compile(w, env, url0).errors
    ensures url == Compile(w, env, url0).url
  {
    url := ReportCommentFilters.ApplyTypeConstraintsFromInput(query, w.comment, env.comment, url0);
    ghost var c := ReportCommentFilters.Compile(w.comment, env.comment, url0);
    url := ApplyWarningSteps(query, w, env, url);
    ThenAppends(old(query.constraints), old(query.errors), c, WarningSteps(w, env, c.url));
  }

  method ApplyWarningSteps(query: Query, w: WarningFilters, env: WarningEnv, url0: UrlConstraints)
    returns (url: UrlConstraints)
    modifies query
    ensures query.constraints == old(query.constraints) + WarningSteps(w, env, url0).added
    ensures query.errors == old(query.errors) + WarningSteps(w, env, url0).errors
    ensures url == WarningSteps(w, env, url0).url
  {
    url := ApplyHeadSteps(query, w, env, url0);
    ghost var h := HeadSteps(w, env, url0);
    url := ApplyExpirySteps(query, w, env, url);
    ThenAppends(old(query.constraints), old(query.errors), h, ExpirySteps(w, env, h.url));
  }

  method ApplyHeadSteps(query: Query, w: WarningFilters, env: WarningEnv, url0: UrlConstraints)
    returns (url: UrlConstraints)
    modifies query
    ensures query.constraints == old(query.constraints) + HeadSteps(w, env, url0).added
    ensures query.errors == old(query.errors) + HeadSteps(w, env, url0).errors
    ensures url == HeadSteps(w, env, url0).url
  {
    var constraints := Filtered(w);
    var repo := env.comment.repo;
    url := ApplyLatest(query, w.latest, url0);
    url := ApplyWarningTypes(query, w.types, env.warningTypes, url);
    var u := repo.userConstraint(constraints, url, "c.warning.mod", "issuer_user");
    url := ApplyEffect(query, u);
    var p := repo.rangeConstraint(constraints, url, "c.warning.points.lower", "c.warning.points.upper", "points");
    url := ApplyEffect(query, p);
    ghost var l := LatestStep(w.latest, url0);
    ghost var t := WarningTypeStep(w.types, env.warningTypes, l.url);
    ReportCommentFilters.Append4(old(query.constraints), l.added, t.added, u.added, p.added);
    assert old(query.errors) + u.errors + p.errors == old(query.errors) + (u.errors + p.errors);
  }

  method ApplyLatest(query: Query, latest: Option<bool>, url0: UrlConstraints) returns (url: UrlConstraints)
    modifies query
    ensures query.constraints == old(query.constraints) + LatestStep(latest, url0).added
    ensures query.errors == old(query.errors)
    ensures url == LatestStep(latest, url0).url
  {
    url := url0;
    match latest {
      case Some(true) => query.WithMetadata(Exists("is_latest_version"));
      case Some(false) => query.WithMetadata(Not(Exists("is_latest_version")));
      case None => url := UnsetUrlConstraint(url, "c.warning.latest");
    }
  }

  method ApplyWarningTypes(query: Query, raw: seq<string>, known: seq<string>, url0: UrlConstraints)
    returns (url: UrlConstraints)
    modifies query
    ensures query.constraints == old(query.constraints) + WarningTypeStep(raw, known, url0).added
    ensures query.errors == old(query.errors)
    ensures url == WarningTypeStep(raw, known, url0).url
  {
    url := url0;
    if |raw| != 0 {
      var warningTypes := KeepKnownTypes(raw, known);
      if |warningTypes| != 0 && |warningTypes| < |known| {
        query.WithMetadata(Meta("warning_type", Strs(warningTypes)));
        url := SetUrlConstraint(url, "c.warning.type", warningTypes);
      } else {
        url := UnsetUrlConstraint(url, "c.warning.type");
      }
    } else {
      url := UnsetUrlConstraint(url, "c.warning.type");
    }
  }

  method ApplyExpirySteps(query: Query, w: WarningFilters, env: WarningEnv, url0: UrlConstraints)
    returns (url: UrlConstraints)
    modifies query
    ensures query.constraints == old(query.constraints) + ExpirySteps(w, env, url0).added
    ensures query.errors == old(query.errors) + ExpirySteps(w, env, url0).errors
    ensures url == ExpirySteps(w, env, url0).url
  {
    var constraints := Filtered(w);
    url := url0;
    var plan := Expiry(w, env.now);
    if plan.clearType {
      url := UnsetUrlConstraint(url, "c.warning.expiry_type");
    }
    query.WithMetadataList(plan.added);
    constraints := constraints["c.warning.expiry.lower" := plan.lower]["c.warning.expiry.upper" := plan.upper];
    var d := env.comment.repo.dateRangeConstraint(constraints, url, "c.warning.expiry.lower", "c.warning.expiry.upper",
                                                  "expiry_date");
    url := ApplyEffect(query, d);
    assert old(query.constraints) + plan.added + d.added == old(query.constraints) + (plan.added + d.added);
  }

  // ---------------------------------------------------------------- permissions

  /** getTypePermissionConstraints: the report_comment handler's. */
  function TypePermissionConstraints(reportInAccountPostings: bool, canViewReporter: bool): seq<Constraint>
  {
    ReportCommentFilters.TypePermissionConstraints(reportInAccountPostings, canViewReporter)
  }

  /** A warning log search is gated like a report comment search: with report search
      kept out of account postings only report records are excluded, so every warning
      log record passes; a visitor who cannot see reporters loses the records of user
      reports; anyone else sees everything. */
  lemma PermissionsMatchComments(reportInAccountPostings: bool, canViewReporter: bool, md: Metadata,
                                 rec: Entities.IndexRecord)
    ensures !reportInAccountPostings ==>
      (AllHold(TypePermissionConstraints(reportInAccountPostings, canViewReporter), md) <==>
       !("type" in md && md["type"] == Str("report")))
    ensures !reportInAccountPostings && rec.contentType == "warning_log" ==>
      AllHold(TypePermissionConstraints(reportInAccountPostings, canViewReporter),
              ReportCommentFilters.SearchedMetadata(rec))
    ensures reportInAccountPostings && !canViewReporter ==>
      (AllHold(TypePermissionConstraints(reportInAccountPostings, canViewReporter), md) <==>
       !("is_report" in md && md["is_report"] == Int(ReportCommentData.REPORT_TYPE_USER_REPORT)))
    ensures reportInAccountPostings && canViewReporter ==>
      AllHold(TypePermissionConstraints(reportInAccountPostings, canViewReporter), md)
  {
    ReportCommentFilters.PermissionMeaning(reportInAccountPostings, canViewReporter, md);
    assert |"warning_log"| != |"report"|;
    ReportCommentFilters.PermissionMeaning(reportInAccountPostings, canViewReporter,
                                           ReportCommentFilters.SearchedMetadata(rec));
  }
}
