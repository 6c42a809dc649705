/** The add-on's extension of the report commenter service: the last-modified rule, the
    assignee restoration around a state change, the alert flag around final setup and
    the notification user list around sending notifications. The framework's own
    behaviour (each `parent::` call) is an arbitrary transition handed in as a function. */
module ReportCommenter {
  import opened Common

  datatype User = User(userId: int, username: string)

  /** The report columns the service reads and writes. */
  datatype ReportValues = ReportValues(
    reportState: string,
    assignedUserId: int,
    lastModifiedDate: int,
    lastModifiedUserId: int,
    lastModifiedUsername: string,
    lastModifiedId: Option<int>)

  /** The comment columns the service reads and writes; `deferredId` is getDeferredId(). */
  datatype CommentValues = CommentValues(
    stateChange: string,
    assignedUserId: Option<int>,
    assignedUsername: string,
    alertSent: bool,
    alertComment: string,
    deferredId: int)

  /** What the report and the comment are after a framework step. */
  datatype Step = Step(report: ReportValues, comment: CommentValues)

  class Commenter {
    /** The report as the service has changed it so far. */
    var report: ReportValues
    /** The report as loaded: what getExistingValue and getPreviousValue give. */
    var existing: ReportValues
    var comment: CommentValues
    var sendAlert: bool
    var alertComment: string
    /** Globals::$notifyReportUserIds */
    var notifyReportUserIds: Option<seq<int>>

    constructor (report: ReportValues, comment: CommentValues, sendAlert: bool, alertComment: string)
      ensures this.report == report && existing == report && this.comment == comment
      ensures this.sendAlert == sendAlert && this.alertComment == alertComment
      ensures notifyReportUserIds.None?
    {
      this.report := report;
      existing := report;
      this.comment := comment;
      this.sendAlert := sendAlert;
      this.alertComment := alertComment;
      notifyReportUserIds := None;
    }

    /** setCommentDefaults: after the framework's defaults the report is stamped with
        `now`, unless the stored stamp is later, in which case the stored date, user id
        and username are put back; otherwise the report points at the new comment. */
    method SetCommentDefaults(now: int, parent: (ReportValues, CommentValues) -> Step)
      modifies this
      ensures var p := parent(old(report), old(comment));
        && comment == p.comment
        && report.reportState == p.report.reportState && report.assignedUserId == p.report.assignedUserId
        && report.lastModifiedDate >= existing.lastModifiedDate
        && report.lastModifiedDate >= now
        && (report.lastModifiedDate == now || report.lastModifiedDate == existing.lastModifiedDate)
        && (now < existing.lastModifiedDate ==>
              && report.lastModifiedDate == existing.lastModifiedDate
              && report.lastModifiedUserId == existing.lastModifiedUserId
              && report.lastModifiedUsername == existing.lastModifiedUsername
              && report.lastModifiedId == p.report.lastModifiedId)
        && (now >= existing.lastModifiedDate ==>
              && report.lastModifiedDate == now
              && report.lastModifiedUserId == p.report.lastModifiedUserId
              && report.lastModifiedUsername == p.report.lastModifiedUsername
              && report.lastModifiedId == Some(p.comment.deferredId))
      ensures existing == old(existing) && sendAlert == old(sendAlert) && alertComment == old(alertComment)
      ensures notifyReportUserIds == old(notifyReportUserIds)
    {
      var p := parent(report, comment);
      report := p.report;
      comment := p.comment;
      report := report.(lastModifiedDate := now);
      if report.lastModifiedDate < existing.lastModifiedDate {
        report := report.(lastModifiedDate := existing.lastModifiedDate,
                          lastModifiedUserId := existing.lastModifiedUserId,
                          lastModifiedUsername := existing.lastModifiedUsername);
      } else {
        report := report.(lastModifiedId := Some(comment.deferredId));
      }
    }

    /** setReportState. With the suppress flag set nothing happens. Otherwise, for a
        new state other than 'open', an assignee the framework cleared to 0 is put back,
        and when the state did not change either the comment records no state change.
        A changed assignee is mirrored on the comment. */
    method SetReportState(newState: Option<string>, assignedUser: Option<User>, suppress: bool,
                          parent: (ReportValues, CommentValues, Option<string>, Option<User>) -> Step)
      modifies this
      ensures suppress ==> report == old(report) && comment == old(comment)
      ensures !suppress ==> var p := parent(old(report), old(comment), newState, assignedUser);
        var restored := newState != Some("open") && p.report.assignedUserId == 0;
        && report == p.report.(assignedUserId := if restored then old(report).assignedUserId else p.report.assignedUserId)
        && comment.alertSent == p.comment.alertSent && comment.alertComment == p.comment.alertComment
        && comment.deferredId == p.comment.deferredId
        && comment.stateChange ==
             (if restored && newState.Some? && TruthyString(newState.value) && newState.value == existing.reportState
              then "" else p.comment.stateChange)
        && (report.assignedUserId != existing.assignedUserId ==>
              && comment.assignedUserId == (if assignedUser.Some? then Some(assignedUser.value.userId) else None)
              && comment.assignedUsername == (if assignedUser.Some? then assignedUser.value.username else ""))
        && (report.assignedUserId == existing.assignedUserId ==>
              comment.assignedUserId == p.comment.assignedUserId &&
              comment.assignedUsername == p.comment.assignedUsername)
      ensures existing == old(existing) && sendAlert == old(sendAlert) && alertComment == old(alertComment)
      ensures notifyReportUserIds == old(notifyReportUserIds)
    {
      if suppress {
        return;
      }
      var oldAssignedUserId: Option<int> := None;
      if newState != Some("open") {
        oldAssignedUserId := Some(report.assignedUserId);
      }
      var p := parent(report, comment, newState, assignedUser);
      report := p.report;
      comment := p.comment;
      if oldAssignedUserId.Some? && report.assignedUserId == 0 {
        var oldState := existing.reportState;
        report := report.(assignedUserId := oldAssignedUserId.value);
        if newState.Some? && TruthyString(newState.value) && newState.value == oldState {
          comment := comment.(stateChange := "");
        }
      }
      if report.assignedUserId != existing.assignedUserId {
        comment := comment.(assignedUserId := if assignedUser.Some? then Some(assignedUser.value.userId) else None,
                            assignedUsername := if assignedUser.Some? then assignedUser.value.username else "");
      }
    }

    /** finalSetup: the framework runs with the alert flag cleared, the comment is marked
        as alerted (with the alert text) beforehand only when the flag was set, and the
        flag is put back afterwards. There is no `finally`: when the framework throws
        (`parentThrows`), the flag stays cleared. */
    method FinalSetup(parent: (ReportValues, CommentValues, bool) -> Step, parentThrows: bool)
      returns (threw: bool)
      modifies this
      ensures threw == parentThrows
      ensures var handed := if old(sendAlert) then old(comment).(alertSent := true, alertComment := old(alertComment))
                            else old(comment);
        var p := parent(old(report), handed, false);
        && (!threw ==> report == p.report && comment == p.comment && sendAlert == old(sendAlert))
        && (threw ==> report == old(report) && comment == handed && !sendAlert)
      ensures existing == old(existing) && alertComment == old(alertComment)
      ensures notifyReportUserIds == old(notifyReportUserIds)
    {
      var saved := sendAlert;
      sendAlert := false;
      if saved {
        comment := comment.(alertSent := true, alertComment := alertComment);
      }
      if parentThrows {
        return true;
      }
      var p := parent(report, comment, sendAlert);
      report := p.report;
      comment := p.comment;
      sendAlert := saved;
      threw := false;
    }

    /** sendNotifications: the users to alert are published for the framework's sender
        and withdrawn afterwards, whether or not the sender throws. Returns the list the
        sender saw and whether it threw. */
    method SendNotifications(userIdsToAlert: seq<int>, parentThrows: bool)
      returns (seen: Option<seq<int>>, threw: bool)
      modifies this
      ensures seen == Some(userIdsToAlert)
      ensures threw == parentThrows
      ensures notifyReportUserIds.None?
      ensures report == old(report) && comment == old(comment) && existing == old(existing)
      ensures sendAlert == old(sendAlert) && alertComment == old(alertComment)
    {
      notifyReportUserIds := Some(userIdsToAlert);
      seen := notifyReportUserIds;
      threw := parentThrows;
      notifyReportUserIds := None;
    }
  }
}
