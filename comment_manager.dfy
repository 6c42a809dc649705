/** The report comment editor service: its settings, the edit-history bookkeeping when
    the message changes, and what it does after saving. The message preparer, the edit
    history insert and the attachment preparer are outside this model: what they return
    is handed in. */
module ReportCommentManager {
  import opened Common

  /** The comment columns the service reads and writes. `existingMessage` is the message
      as loaded, against which isChanged('message') is decided; a new comment has none. */
  datatype CommentContent = CommentContent(
    reportCommentId: int,
    message: Option<string>,
    existingMessage: Option<string>,
    embedMetadata: seq<string>,
    editCount: int,
    lastEditUserId: int,
    lastEditDate: int,
    attachCount: int,
    errors: seq<string>)

  /** isChanged('message') */
  predicate MessageChanged(c: CommentContent)
  {
    c.message != c.existingMessage
  }

  /** What the message preparer returns for the raw text: the prepared message, its
      embed metadata and the errors it pushes onto the entity when the text is invalid. */
  datatype Prepared = Prepared(message: string, embedMetadata: seq<string>, errors: seq<string>)

  /** The editLogDisplay and editHistory options. */
  datatype EditOptions = EditOptions(editLogDisplayEnabled: bool, editHistoryEnabled: bool)

  /** The editor's decision: edit history is set up when the message had not been
      changed before, is changed now, and was not null. */
  predicate RecordsEdit(before: CommentContent, after: CommentContent)
  {
    !MessageChanged(before) && MessageChanged(after) && before.message.Some?
  }

  class CommentManager {
    var content: CommentContent
    /** The comment's report id: getReport() is the comment's Report relation. */
    var reportId: int
    var logEdit: bool
    var logHistory: bool
    var oldMessage: Option<string>
    var attachmentHash: Option<string>

    constructor (content: CommentContent, reportId: int)
      ensures this.content == content && this.reportId == reportId
      ensures logEdit && logHistory && oldMessage.None? && attachmentHash.None?
    {
      this.content := content;
      this.reportId := reportId;
      logEdit := true;
      logHistory := true;
      oldMessage := None;
      attachmentHash := None;
    }

    function GetContent(): CommentContent
      reads this
    {
      content
    }

    function GetReport(): int
      reads this
    {
      reportId
    }

    function GetOldMessage(): Option<string>
      reads this
    {
      oldMessage
    }

    function GetAttachmentHash(): Option<string>
      reads this
    {
      attachmentHash
    }

    function IsLoggingEdit(): bool
      reads this
    {
      logEdit
    }

    function IsLoggingHistory(): bool
      reads this
    {
      logHistory
    }

    method SetOldMessage(m: Option<string>)
      modifies this
      ensures GetOldMessage() == m
      ensures content == old(content) && logEdit == old(logEdit) && logHistory == old(logHistory)
      ensures attachmentHash == old(attachmentHash) && reportId == old(reportId)
    {
      oldMessage := m;
    }

    method SetLogEdit(b: bool)
      modifies this
      ensures IsLoggingEdit() == b
      ensures content == old(content) && oldMessage == old(oldMessage) && logHistory == old(logHistory)
      ensures attachmentHash == old(attachmentHash) && reportId == old(reportId)
    {
      logEdit := b;
    }

    method SetLogHistory(b: bool)
      modifies this
      ensures IsLoggingHistory() == b
      ensures content == old(content) && oldMessage == old(oldMessage) && logEdit == old(logEdit)
      ensures attachmentHash == old(attachmentHash) && reportId == old(reportId)
    {
      logHistory := b;
    }

    method SetAttachmentHash(hash: Option<string>)
      modifies this
      ensures GetAttachmentHash() == hash
      ensures content == old(content) && oldMessage == old(oldMessage) && logEdit == old(logEdit)
      ensures logHistory == old(logHistory) && reportId == old(reportId)
    {
      attachmentHash := hash;
    }

    /** setupEditHistory: one more edit; the editor and time are stamped only when the
        edit log is displayed and edits are logged; the old text is kept for the history
        only when edit history is enabled and history is logged. */
    method SetupEditHistory(previous: string, options: EditOptions, visitorId: int, now: int)
      modifies this
      ensures content.editCount == old(content.editCount) + 1
      ensures options.editLogDisplayEnabled && logEdit ==>
        content.lastEditUserId == visitorId && content.lastEditDate == now
      ensures !(options.editLogDisplayEnabled && logEdit) ==>
        content.lastEditUserId == old(content.lastEditUserId) && content.lastEditDate == old(content.lastEditDate)
      ensures oldMessage == if options.editHistoryEnabled && logHistory then Some(previous) else old(oldMessage)
      ensures content == old(content).(editCount := content.editCount, lastEditUserId := content.lastEditUserId,
                                       lastEditDate := content.lastEditDate)
      ensures logEdit == old(logEdit) && logHistory == old(logHistory)
      ensures attachmentHash == old(attachmentHash) && reportId == old(reportId)
    {
      content := content.(editCount := content.editCount + 1);
      if options.editLogDisplayEnabled && IsLoggingEdit() {
        content := content.(lastEditUserId := visitorId, lastEditDate := now);
      }
      if options.editHistoryEnabled && IsLoggingHistory() {
        SetOldMessage(Some(previous));
      }
    }

    /** setMessage: the prepared text replaces the message; edit history is set up
        exactly when RecordsEdit holds of the comment before and after, and then from
        the old text. */
    method SetMessage(prepared: Prepared, options: EditOptions, visitorId: int, now: int)
      modifies this
      ensures var updated := old(content).(message := Some(prepared.message), embedMetadata := prepared.embedMetadata,
                                       errors := old(content).errors + prepared.errors);
        && content.message == Some(prepared.message)
        && content.embedMetadata == prepared.embedMetadata
        && content.errors == old(content).errors + prepared.errors
        && (RecordsEdit(old(content), updated) ==>
              var stamped := options.editLogDisplayEnabled && logEdit;
              && content == updated.(editCount := updated.editCount + 1,
                                     lastEditUserId := if stamped then visitorId else updated.lastEditUserId,
                                     lastEditDate := if stamped then now else updated.lastEditDate)
              && oldMessage == if options.editHistoryEnabled && logHistory then old(content).message else old(oldMessage))
        && (!RecordsEdit(old(content), updated) ==> content == updated && oldMessage == old(oldMessage))
      ensures logEdit == old(logEdit) && logHistory == old(logHistory)
      ensures attachmentHash == old(attachmentHash) && reportId == old(reportId)
    {
      var setupHistory := !MessageChanged(content);
      var oldRawText := content.message;
      content := content.(message := Some(prepared.message), embedMetadata := prepared.embedMetadata);
      content := content.(errors := content.errors + prepared.errors);
      if setupHistory && MessageChanged(content) && oldRawText.Some? {
        SetupEditHistory(oldRawText.value, options, visitorId, now);
      }
    }

    /** postSave: returns the old text the edit history insert was given, if any, and
        the hash attachments were associated under, if any. `associated` is how many
        attachments the attachment preparer associates. */
    method PostSave(associated: nat) returns (historyInserted: Option<string>, associatedHash: Option<string>)
      modifies this
      ensures historyInserted == oldMessage
      ensures associatedHash.Some? <==> attachmentHash.Some? && TruthyString(attachmentHash.value)
      ensures associatedHash.Some? ==> associatedHash == attachmentHash
      ensures content.attachCount ==
        old(content.attachCount) + (if associatedHash.Some? then associated else 0)
      ensures content == old(content).(attachCount := content.attachCount)
      ensures oldMessage == old(oldMessage) && attachmentHash == old(attachmentHash)
      ensures logEdit == old(logEdit) && logHistory == old(logHistory) && reportId == old(reportId)
    {
      historyInserted := GetOldMessage();
      associatedHash := None;
      if attachmentHash.Some? && TruthyString(attachmentHash.value) {
        AssociateAttachments(attachmentHash.value, associated);
        associatedHash := attachmentHash;
      }
    }

    /** associateAttachments: the attachment count grows by what was associated. */
    method AssociateAttachments(hash: string, associated: nat)
      modifies this
      ensures content.attachCount == old(content.attachCount) + associated
      ensures associated == 0 ==> content == old(content)
      ensures content == old(content).(attachCount := content.attachCount)
      ensures oldMessage == old(oldMessage) && attachmentHash == old(attachmentHash)
      ensures logEdit == old(logEdit) && logHistory == old(logHistory) && reportId == old(reportId)
    {
      if associated != 0 {
        content := content.(attachCount := content.attachCount + associated);
      }
    }

    /** _validate: the comment's errors once the entity's preSave, handed in as
        `preSave`, has run (the service's own finalSetup is empty). */
    method Validate(preSave: CommentContent -> CommentContent) returns (errors: seq<string>)
      modifies this
      ensures content == preSave(old(content))
      ensures errors == content.errors
      ensures oldMessage == old(oldMessage) && attachmentHash == old(attachmentHash)
      ensures logEdit == old(logEdit) && logHistory == old(logHistory) && reportId == old(reportId)
    {
      content := preSave(content);
      errors := content.errors;
    }
  }
}
