/** The ticket-message report handler: the content attributes it caches on a report's
    content_info, the content date it reads back, and the ticket metadata it adds to a
    report's search metadata. */
module TicketMessage {
  import opened Common

  /** A ticket message as the handler reads it; `ticket` is its Ticket relation. */
  datatype Ticket = Ticket(statusId: int)
  datatype Message = Message(messageDate: int, ticket: Option<Ticket>)

  /** The report entity's content_info column. */
  class ReportRecord {
    var contentInfo: Metadata

    constructor (contentInfo: Metadata)
      ensures this.contentInfo == contentInfo
    {
      this.contentInfo := contentInfo;
    }
  }

  /** The content_info keys setupReportEntityContent writes. */
  const CachedKeys: set<string> := {"message_date", "ticket_status_id"}

  /** setupReportEntityContent. `parentContentInfo` is what the parent handler leaves
      in content_info. A missing Ticket reads as a null status, that is an absent key. */
  method SetupReportEntityContent(report: ReportRecord, content: Message, parentContentInfo: Metadata)
    modifies report
    ensures "message_date" in report.contentInfo
    ensures report.contentInfo["message_date"] == Int(content.messageDate)
    ensures content.ticket.Some? <==> "ticket_status_id" in report.contentInfo
    ensures content.ticket.Some? ==> report.contentInfo["ticket_status_id"] == Int(content.ticket.value.statusId)
    ensures forall k :: k !in CachedKeys ==>
      (k in report.contentInfo <==> k in parentContentInfo) &&
      (k in parentContentInfo ==> report.contentInfo[k] == parentContentInfo[k])
  {
    report.contentInfo := parentContentInfo;
    var contentInfo := report.contentInfo;
    contentInfo := contentInfo["message_date" := Int(content.messageDate)];
    match content.ticket {
      case Some(t) => contentInfo := contentInfo["ticket_status_id" := Int(t.statusId)];
      case None => contentInfo := contentInfo - {"ticket_status_id"};
    }
    report.contentInfo := contentInfo;
  }

  /** getContentDate as written: the cache variable it reads is never assigned, so the
      date is always read from the content (`content`, None when it is gone) and
      written back into content_info. */
  method GetContentDate(report: ReportRecord, content: Option<Message>) returns (date: Option<int>)
    modifies report
    ensures content.None? ==> date.None? && report.contentInfo == old(report.contentInfo)
    ensures content.Some? ==>
      date == Some(content.value.messageDate) &&
      report.contentInfo == old(report.contentInfo)["message_date" := Int(content.value.messageDate)]
  {
    var contentDate: Option<int> := None;
    if contentDate.None? {
      if content.None? {
        return None;
      }
      var contentInfo := report.contentInfo;
      contentDate := Some(content.value.messageDate);
      contentInfo := contentInfo["message_date" := Int(content.value.messageDate)];
      report.contentInfo := contentInfo;
    }
    date := contentDate;
  }

  /** getContentDate as evidently intended: a date cached in content_info is returned
      without touching the content; otherwise it behaves as GetContentDate. */
  method GetCachedContentDate(report: ReportRecord, content: Option<Message>) returns (date: Option<int>)
    modifies report
    ensures "message_date" in old(report.contentInfo) && old(report.contentInfo)["message_date"].Int? ==>
      date == Some(old(report.contentInfo)["message_date"].i) && report.contentInfo == old(report.contentInfo)
    ensures !("message_date" in old(report.contentInfo) && old(report.contentInfo)["message_date"].Int?) ==>
      (content.None? ==> date.None? && report.contentInfo == old(report.contentInfo)) &&
      (content.Some? ==>
        date == Some(content.value.messageDate) &&
        report.contentInfo == old(report.contentInfo)["message_date" := Int(content.value.messageDate)])
  {
    var contentDate: Option<int> := None;
    if "message_date" in report.contentInfo && report.contentInfo["message_date"].Int? {
      contentDate := Some(report.contentInfo["message_date"].i);
    }
    if contentDate.None? {
      if content.None? {
        return None;
      }
      var contentInfo := report.contentInfo;
      contentDate := Some(content.value.messageDate);
      contentInfo := contentInfo["message_date" := Int(content.value.messageDate)];
      report.contentInfo := contentInfo;
    }
    date := contentDate;
  }

  /** A report whose content is gone but whose content_info caches a date: the code as
      written finds no date, the intended reading returns the cached one. */
  method CachedDateIsIgnored() returns (asWritten: Option<int>, intended: Option<int>)
    ensures asWritten == None
    ensures intended == Some(1700000000)
  {
    var cached := map["message_date" := Int(1700000000)];
    var r1 := new ReportRecord(cached);
    asWritten := GetContentDate(r1, None);
    var r2 := new ReportRecord(cached);
    intended := GetCachedContentDate(r2, None);
  }

  /** The metadata keys populateMetaData writes. */
  const TicketKeys: set<string> := {"ticket", "ticketcat", "ticket_status"}

  /** populateMetaData: copies the cached ticket id, category id and status id into the
      metadata when they are present; every other key is left as it was. */
  method PopulateMetaData(contentInfo: Metadata, metaData: Metadata) returns (md: Metadata)
    ensures md.Keys >= metaData.Keys
    ensures forall k :: k in metaData && k !in TicketKeys ==> md[k] == metaData[k]
    ensures forall k :: k in md && k !in metaData ==> k in TicketKeys
    ensures "ticket_id" in contentInfo ==> "ticket" in md && md["ticket"] == contentInfo["ticket_id"]
    ensures "ticket_id" !in contentInfo ==> ("ticket" in md <==> "ticket" in metaData)
    ensures "ticket_id" !in contentInfo && "ticket" in metaData ==> md["ticket"] == metaData["ticket"]
    ensures "category_id" in contentInfo ==> "ticketcat" in md && md["ticketcat"] == contentInfo["category_id"]
    ensures "category_id" !in contentInfo ==> ("ticketcat" in md <==> "ticketcat" in metaData)
    ensures "category_id" !in contentInfo && "ticketcat" in metaData ==> md["ticketcat"] == metaData["ticketcat"]
    ensures "ticket_status_id" in contentInfo ==>
      "ticket_status" in md && md["ticket_status"] == contentInfo["ticket_status_id"]
    ensures "ticket_status_id" !in contentInfo ==> ("ticket_status" in md <==> "ticket_status" in metaData)
    ensures "ticket_status_id" !in contentInfo && "ticket_status" in metaData ==>
      md["ticket_status"] == metaData["ticket_status"]
  {
    md := metaData;
    if "ticket_id" in contentInfo {
      md := md["ticket" := contentInfo["ticket_id"]];
    }
    if "category_id" in contentInfo {
      md := md["ticketcat" := contentInfo["category_id"]];
    }
    if "ticket_status_id" in contentInfo {
      md := md["ticket_status" := contentInfo["ticket_status_id"]];
    }
  }
}
