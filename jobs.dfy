/**
 * outputs/jobs.py: the queued jobs. `mail_export` runs an exporter and
 * mails its output while saving the export's status; `mail_export_by_id`
 * looks the export up first; `execute_export` saves a new export and asks
 * for it to be mailed; `get_message` builds one message.
 */
module Jobs {
  import opened Common
  import opened OutputsModels
  import opened Effects
  import opened Exporters
  import opened Usecases

  /** `get_message` of the jobs: the same rule as the use case's, always attaching the exporter's own output. */
  method GetMessage(exporter: Exporter, side: ExporterSide, count: nat, recipients: seq<string>, subject: string,
                    filename: Option<string>, fileUrl: Option<string>)
    returns (r: Result<Message>)
    modifies exporter
    ensures r.Err? <==> NeedsFilename(count, filename, fileUrl) && !Truthy(old(exporter.filename))
    ensures r.Err? ==> r.error == ValueError
    ensures r.Ok? ==>
      && r.value.to == recipients
      && r.value.body == Body(count, fileUrl)
      && r.value.subject == (if Truthy(side.subject) then side.subject.value else subject)
      && (r.value.attachment.Some? <==> count > 0 && fileUrl.None?)
      && (r.value.attachment.Some? ==> r.value.attachment.value == Attachment(FileName(filename, old(exporter.filename)), side.output, side.contentType))
  {
    r := Usecases.GetMessage(exporter, side, count, recipients, subject, None, filename, fileUrl);
  }

  /** How `mail_export` records a failed export: FAILED, then users notified when whistle is installed and the export has a creator. */
  function JobFailureEvents(id: nat, e: Error, whistle: bool, hasCreator: bool): seq<Event>
  {
    [StatusSaved(id, Failed)] + if whistle && hasCreator then [FailureNotified(id, Detail(e))] else []
  }

  /** The effects of a mailing that gets through: the delivery, then FINISHED. */
  function MailedEvents(record: ExportRecordData, id: nat, filename: Option<string>, exporterFilename: Option<string>,
                        side: ExporterSide, saveAsFile: bool, storage: StorageAnswer): seq<Event>
  {
    Delivery(record, filename, None, exporterFilename, side, saveAsFile, storage) + [StatusSaved(id, Finished)]
  }

  /**
   * The `except` block of `mail_export` up to its `raise`: `raised` is
   * the exception it ends with when whistle is installed.
   */
  method MarkJobFailed(record: ExportRecord, e: Error, whistle: bool, log: Log) returns (raised: Error)
    modifies record, log
    ensures record.status == Failed
    ensures log.events == old(log.events) + JobFailureEvents(record.id, e, whistle, record.hasCreator)
    ensures raised == ReRaised(e, whistle, record.hasCreator)
  {
    record.status := Failed;
    log.Emit(StatusSaved(record.id, Failed));
    if whistle {
      if !record.hasCreator {
        return AttributeError;
      }
      log.Emit(FailureNotified(record.id, Detail(e)));
    }
    return e;
  }

  /**
   * The second half of `mail_export`: the delivery (the use case's, with
   * the exporter's own output), then FINISHED. A failing delivery raises
   * and leaves the status as it was.
   */
  method DeliverAndFinish(record: ExportRecord, filename: Option<string>, exporter: Exporter, side: ExporterSide,
                          saveAsFile: bool, storage: StorageAnswer, sendError: Option<Error>, log: Log)
    returns (r: Outcome)
    modifies record, exporter, log
    ensures old(log.events) <= log.events
    ensures r.Pass? ==> (record.status == Finished
      && log.events == old(log.events) + MailedEvents(DataOf(record), record.id, filename, old(exporter.filename), side, saveAsFile, storage))
    ensures r.Fail? ==> record.status == old(record.status) && (r.error == ValueError || sendError == Some(r.error))
    ensures sendError.None? && CanName(filename, old(exporter.filename)) ==> r.Pass?
  {
    r := Deliver(record, filename, None, exporter, side, saveAsFile, storage, sendError, log);
    if r.Pass? {
      record.status := Finished;
      log.Emit(StatusSaved(record.id, Finished));
    }
  }

  /**
   * `mail_export`, with the failure handling evidently intended: a failed
   * export is FAILED, users are notified when whistle is installed, and
   * the exception is raised again in every case (with whistle and no
   * creator, the creator lookup's AttributeError).
   */
  method MailExport(record: ExportRecord, language: string, filename: Option<string>, exporter: Exporter,
                    side: ExporterSide, saveAsFile: bool, storage: StorageAnswer, sendError: Option<Error>,
                    whistle: bool, log: Log)
    returns (r: Outcome)
    modifies record, exporter, log
    ensures old(log.events) <= log.events
    ensures r.Pass? <==> record.status == Finished
    ensures side.exportError.Some? ==> (r == Fail(ReRaised(side.exportError.value, whistle, record.hasCreator)) && record.status == Failed
      && log.events == old(log.events) + StartEvents(record.id, language)
                       + JobFailureEvents(record.id, side.exportError.value, whistle, record.hasCreator))
    ensures side.exportError.None? && r.Pass? ==>
      log.events == old(log.events) + StartEvents(record.id, language)
                    + MailedEvents(DataOf(record), record.id, filename, old(exporter.filename), side, saveAsFile, storage)
    ensures side.exportError.None? && r.Fail? ==> record.status == Processing && (r.error == ValueError || sendError == Some(r.error))
    ensures side.exportError.None? && sendError.None? && CanName(filename, old(exporter.filename)) ==> r.Pass?
  {
    Start(record, language, log);
    if side.exportError.Some? {
      var raised := MarkJobFailed(record, side.exportError.value, whistle, log);
      return Fail(raised);
    }
    r := DeliverAndFinish(record, filename, exporter, side, saveAsFile, storage, sendError, log);
  }

  /**
   * `mail_export` as written: the `raise` sits inside the whistle branch,
   * so without whistle a failed export is set FAILED and then mailed and
   * set FINISHED like a successful one. With whistle and no creator, the
   * creator lookup raises AttributeError before anyone is notified.
   */
  method MailExportAsWritten(record: ExportRecord, language: string, filename: Option<string>, exporter: Exporter,
                             side: ExporterSide, saveAsFile: bool, storage: StorageAnswer, sendError: Option<Error>,
                             whistle: bool, log: Log)
    returns (r: Outcome)
    modifies record, exporter, log
    ensures old(log.events) <= log.events
    ensures r.Pass? <==> record.status == Finished
    ensures side.exportError.Some? && whistle ==> (r == Fail(ReRaised(side.exportError.value, true, record.hasCreator)) && record.status == Failed
      && log.events == old(log.events) + StartEvents(record.id, language)
                       + JobFailureEvents(record.id, side.exportError.value, true, record.hasCreator))
    ensures side.exportError.Some? && !whistle && r.Pass? ==>
      log.events == old(log.events) + StartEvents(record.id, language)
                    + JobFailureEvents(record.id, side.exportError.value, false, record.hasCreator)
                    + MailedEvents(DataOf(record), record.id, filename, old(exporter.filename), side, saveAsFile, storage)
    ensures side.exportError.Some? && !whistle && sendError.None? && CanName(filename, old(exporter.filename)) ==> r.Pass?
    ensures side.exportError.None? && r.Pass? ==>
      log.events == old(log.events) + StartEvents(record.id, language)
                    + MailedEvents(DataOf(record), record.id, filename, old(exporter.filename), side, saveAsFile, storage)
    ensures !whistle && r.Fail? ==> r.error == ValueError || sendError == Some(r.error)
    ensures side.exportError.None? && sendError.None? && CanName(filename, old(exporter.filename)) ==> r.Pass?
  {
    Start(record, language, log);
    if side.exportError.Some? {
      var raised := MarkJobFailed(record, side.exportError.value, whistle, log);
      if whistle {
        return Fail(raised);
      }
    }
    r := DeliverAndFinish(record, filename, exporter, side, saveAsFile, storage, sendError, log);
  }

  /** A delivery's events are stored files and sent messages. */
  lemma DeliveryOnlyDelivers(record: ExportRecordData, filename: Option<string>, outputFile: Option<string>, exporterFilename: Option<string>,
                             side: ExporterSide, saveAsFile: bool, storage: StorageAnswer)
    ensures DeliveryEvents(Delivery(record, filename, outputFile, exporterFilename, side, saveAsFile, storage))
  {
  }

  /** Without whistle, the as-written job saves FAILED and then FINISHED for a failed export that gets mailed. */
  lemma FailedRunEndsFinished(e0: seq<Event>, id: nat, language: string, e: Error, hasCreator: bool, delivered: seq<Event>)
    requires DeliveryEvents(delivered)
    ensures StatusTrail(e0 + StartEvents(id, language) + JobFailureEvents(id, e, false, hasCreator) + (delivered + [StatusSaved(id, Finished)]), id)
            == StatusTrail(e0, id) + [Processing, Failed, Finished]
  {
    StartTrail(e0, id, language);
    var started := e0 + StartEvents(id, language);
    var failed := started + [StatusSaved(id, Failed)];
    TrailSnoc(started, StatusSaved(id, Failed), id);
    DeliveryStatusFree(delivered, id);
    ProjectionsAppend(failed, delivered, id);
    TrailSnoc(failed + delivered, StatusSaved(id, Finished), id);
    assert started + JobFailureEvents(id, e, false, hasCreator) + (delivered + [StatusSaved(id, Finished)]) == failed + delivered + [StatusSaved(id, Finished)];
  }

  /** The as-written job's successful mailing of a failed export: its trail ends FINISHED, not FAILED. */
  lemma AsWrittenFailureTrail(e0: seq<Event>, record: ExportRecordData, id: nat, language: string, e: Error, hasCreator: bool,
                              filename: Option<string>, exporterFilename: Option<string>, side: ExporterSide, saveAsFile: bool,
                              storage: StorageAnswer)
    ensures StatusTrail(e0 + StartEvents(id, language) + JobFailureEvents(id, e, false, hasCreator)
                        + MailedEvents(record, id, filename, exporterFilename, side, saveAsFile, storage), id)
            == StatusTrail(e0, id) + [Processing, Failed, Finished]
  {
    DeliveryOnlyDelivers(record, filename, None, exporterFilename, side, saveAsFile, storage);
    FailedRunEndsFinished(e0, id, language, e, hasCreator, Delivery(record, filename, None, exporterFilename, side, saveAsFile, storage));
  }

  /** The corrected job's failed export ends FAILED, with or without whistle or a creator. */
  lemma CorrectedFailureTrail(e0: seq<Event>, id: nat, language: string, e: Error, whistle: bool, hasCreator: bool)
    ensures StatusTrail(e0 + StartEvents(id, language) + JobFailureEvents(id, e, whistle, hasCreator), id)
            == StatusTrail(e0, id) + [Processing, Failed]
  {
    StartTrail(e0, id, language);
    var started := e0 + StartEvents(id, language);
    TrailSnoc(started, StatusSaved(id, Failed), id);
    if whistle && hasCreator {
      TrailSnoc(started + [StatusSaved(id, Failed)], FailureNotified(id, Detail(e)), id);
      assert started + JobFailureEvents(id, e, whistle, hasCreator) == started + [StatusSaved(id, Failed)] + [FailureNotified(id, Detail(e))];
    } else {
      assert started + JobFailureEvents(id, e, whistle, hasCreator) == started + [StatusSaved(id, Failed)];
    }
  }

  /**
   * `mail_export_by_id`: the export with this ID (DoesNotExist when there
   * is none) is set PROCESSING, its language activated, and `mail_export`
   * runs with the export's own exporter, which starts with the exporter
   * class's `exporterFilename`.
   */
  method MailExportById(records: map<nat, ExportRecord>, exportId: nat, language: string, filename: Option<string>,
                        exporterFilename: Option<string>, side: ExporterSide, saveAsFile: bool, storage: StorageAnswer,
                        sendError: Option<Error>, whistle: bool, log: Log)
    returns (r: Outcome)
    modifies records.Values, log
    ensures exportId !in records ==> r == Fail(DoesNotExist) && log.events == old(log.events)
    ensures exportId in records && side.exportError.Some? ==>
      (r == Fail(ReRaised(side.exportError.value, whistle, records[exportId].hasCreator)) && records[exportId].status == Failed
      && log.events == old(log.events) + StartEvents(records[exportId].id, language) + StartEvents(records[exportId].id, language)
                       + JobFailureEvents(records[exportId].id, side.exportError.value, whistle, records[exportId].hasCreator))
    ensures exportId in records && r.Pass? ==> (records[exportId].status == Finished
      && log.events == old(log.events) + StartEvents(records[exportId].id, language) + StartEvents(records[exportId].id, language)
                       + MailedEvents(DataOf(records[exportId]), records[exportId].id, filename, exporterFilename, side, saveAsFile, storage))
    ensures exportId in records && side.exportError.None? && r.Fail? ==> (records[exportId].status == Processing
      && (r.error == ValueError || sendError == Some(r.error)))
    ensures exportId in records && side.exportError.None? && sendError.None? && CanName(filename, exporterFilename) ==> r.Pass?
  {
    if exportId !in records {
      return Fail(DoesNotExist);
    }
    var record := records[exportId];
    Start(record, language, log);
    var exporter := new Exporter(exporterFilename, false);
    r := MailExport(record, language, filename, exporter, side, saveAsFile, storage, sendError, whistle, log);
  }

  /**
   * `execute_export` of the jobs: the exporter saves a new export (`saved`
   * is its ID, or the exception `save_export` raises), then mailing is
   * requested with the filename among the exporter's parameters. This
   * uses the corrected `send_mail`, which queues the mailing job.
   */
  method ExecuteExport(saved: Result<nat>, language: string, paramsFilename: Option<string>, log: Log) returns (r: Outcome)
    modifies log
    ensures saved.Err? ==> r == Fail(saved.error) && log.events == old(log.events)
    ensures saved.Ok? ==> (r == Pass
      && log.events == old(log.events) + [ExportSaved(saved.value), MailQueued(saved.value, EXPORT_CLASS_NAME, language, paramsFilename)])
  {
    if saved.Err? {
      return Fail(saved.error);
    }
    log.Emit(ExportSaved(saved.value));
    SendMail(saved.value, language, paramsFilename, log);
    return Pass;
  }
}
