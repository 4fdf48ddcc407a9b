/**
 * outputs/usecases.py: running an export (`execute_export`), generating
 * and mailing it with status bookkeeping (`export_items`,
 * `mail_successful_export`), and building each message (`get_message`).
 * The exporter's own answers, the storage backend and the mail backend are
 * parameters (see the Effects module); their effects go to a Log.
 */
module Usecases {
  import opened Common
  import opened OutputsModels
  import opened Effects
  import opened Exporters

  // ---------------------------------------------------------------------
  // get_message
  // ---------------------------------------------------------------------

  /** "Export: {verbose_name_plural}", the subject unless the exporter gives one. */
  function DefaultSubject(verboseNamePlural: string): string
  {
    "Export: " + verboseNamePlural
  }

  /** The name a file is stored or attached under: the requested name, else the exporter's without its non-ASCII characters. */
  function FileName(filename: Option<string>, exporterFilename: Option<string>): string
  {
    if Truthy(filename) then filename.value
    else if exporterFilename.Some? then AsciiOnly(exporterFilename.value)
    else ""
  }

  /** `output_file or exporter.get_output()`. */
  function Content(outputFile: Option<string>, side: ExporterSide): string
  {
    if Truthy(outputFile) then outputFile.value else side.output
  }

  /** What every message of one mailing shares. */
  datatype Mailing = Mailing(side: ExporterSide, count: nat, subject: string, outputFile: Option<string>, name: string, fileUrl: Option<string>)

  /** A file is attached exactly when something was exported and there is no URL to a stored copy. */
  predicate Attaches(count: nat, fileUrl: Option<string>)
  {
    count > 0 && fileUrl.None?
  }

  /** The message of a mailing addressed to `to`: the exporter's subject if it has one, the default otherwise. */
  function MessageTo(m: Mailing, to: seq<string>): Message
  {
    Message(if Truthy(m.side.subject) then m.side.subject.value else m.subject, to, Body(m.count, m.fileUrl),
            if Attaches(m.count, m.fileUrl) then Some(Attachment(m.name, Content(m.outputFile, m.side), m.side.contentType)) else None)
  }

  /** `get_message` asks the exporter for its filename when it attaches and was given no name. */
  predicate NeedsFilename(count: nat, filename: Option<string>, fileUrl: Option<string>)
  {
    Attaches(count, fileUrl) && !Truthy(filename)
  }

  /**
   * `get_message`: the message to `recipients`; it fails with ValueError
   * only when it needs the exporter's filename and the exporter has none.
   */
  method GetMessage(exporter: Exporter, side: ExporterSide, count: nat, recipients: seq<string>, subject: string,
                    outputFile: Option<string>, filename: Option<string>, fileUrl: Option<string>)
    returns (r: Result<Message>)
    modifies exporter
    ensures r.Err? <==> NeedsFilename(count, filename, fileUrl) && !Truthy(old(exporter.filename))
    ensures r.Err? ==> r.error == ValueError && exporter.filename == old(exporter.filename)
    ensures r.Ok? ==> r.value == MessageTo(Mailing(side, count, subject, outputFile, FileName(filename, old(exporter.filename)), fileUrl), recipients)
    ensures r.Ok? && NeedsFilename(count, filename, fileUrl) ==> exporter.filename == Some(AsciiOnly(old(exporter.filename).value))
    ensures !NeedsFilename(count, filename, fileUrl) ==> exporter.filename == old(exporter.filename)
    ensures exporter.sendSeparately == old(exporter.sendSeparately)
  {
    var body := Body(count, fileUrl);
    var messageSubject := if Truthy(side.subject) then side.subject.value else subject;
    var attachment: Option<Attachment> := None;
    if count > 0 && fileUrl.None? {
      var name: string;
      if Truthy(filename) {
        name := filename.value;
      } else {
        var f := exporter.GetFilename();
        if f.Err? {
          return Err(f.error);
        }
        name := f.value;
      }
      attachment := Some(Attachment(name, Content(outputFile, side), side.contentType));
    }
    return Ok(Message(messageSubject, recipients, body, attachment));
  }

  // ---------------------------------------------------------------------
  // mail_successful_export
  // ---------------------------------------------------------------------

  /** The recipient lists: one list per address when sending separately, otherwise a single list of all. */
  function Deliveries(emails: seq<string>, separately: bool): seq<seq<string>>
  {
    if separately then seq(|emails|, i requires 0 <= i < |emails| => [emails[i]]) else [emails]
  }

  /** Sending the mailing to each list in turn. */
  function Dispatch(m: Mailing, lists: seq<seq<string>>): seq<Event>
  {
    seq(|lists|, i requires 0 <= i < |lists| => MessageSent(MessageTo(m, lists[i])))
  }

  lemma DispatchSnoc(m: Mailing, lists: seq<seq<string>>, i: nat)
    requires i < |lists|
    ensures Dispatch(m, lists[..i + 1]) == Dispatch(m, lists[..i]) + [MessageSent(MessageTo(m, lists[i]))]
  {
  }

  /**
   * Exactly one message per address, addressed to that address alone, when
   * sending separately; otherwise exactly one message, to all addresses.
   */
  lemma DispatchAddressing(m: Mailing, emails: seq<string>, separately: bool)
    ensures var sent := Sent(Dispatch(m, Deliveries(emails, separately)));
      && (separately ==> |sent| == |emails| && forall i :: 0 <= i < |emails| ==> sent[i] == MessageTo(m, [emails[i]]))
      && (!separately ==> sent == [MessageTo(m, emails)])
  {
    SentDispatch(m, Deliveries(emails, separately));
  }

  lemma {:induction false} SentDispatch(m: Mailing, lists: seq<seq<string>>)
    ensures Sent(Dispatch(m, lists)) == seq(|lists|, i requires 0 <= i < |lists| => MessageTo(m, lists[i]))
    decreases |lists|
  {
    if |lists| > 0 {
      var n := |lists| - 1;
      SentDispatch(m, lists[..n]);
      assert lists[..n + 1] == lists;
      DispatchSnoc(m, lists, n);
      ProjectionsAppend(Dispatch(m, lists[..n]), [MessageSent(MessageTo(m, lists[n]))], 0);
      assert [MessageSent(MessageTo(m, lists[n]))][..0] == [];
    }
  }

  /** The URL a stored file is reachable at: the backend's, else the stored path. */
  function FileUrl(saveAsFile: bool, storage: StorageAnswer): Option<string>
  {
    if saveAsFile then Some(if storage.url.Some? then storage.url.value else storage.savedPath) else None
  }

  /** A mailing can always name its file: a name was given, or the exporter has one that keeps an ASCII character. */
  predicate CanName(filename: Option<string>, exporterFilename: Option<string>)
  {
    Truthy(filename) || (Truthy(exporterFilename) && AsciiOnly(exporterFilename.value) != "")
  }

  /** The effects of a successful delivery: the stored file, if files are saved, then the messages. */
  function Delivery(record: ExportRecordData, filename: Option<string>, outputFile: Option<string>, exporterFilename: Option<string>,
                    side: ExporterSide, saveAsFile: bool, storage: StorageAnswer): seq<Event>
  {
    var name := FileName(filename, exporterFilename);
    (if saveAsFile then [FileStored("exports/" + name, Content(outputFile, side))] else [])
    + Dispatch(Mailing(side, record.total, DefaultSubject(record.verboseNamePlural), outputFile, name, FileUrl(saveAsFile, storage)),
               Deliveries(record.recipientsEmails, record.sendSeparately))
  }

  /** The fields of an export a delivery reads. */
  datatype ExportRecordData = ExportRecordData(total: nat, sendSeparately: bool, recipientsEmails: seq<string>, verboseNamePlural: string)

  function DataOf(record: ExportRecord): ExportRecordData
  {
    ExportRecordData(record.total, record.sendSeparately, record.recipientsEmails, record.verboseNamePlural)
  }

  /**
   * How `get_filename` may have changed the exporter's filename: not at
   * all, or to its ASCII-only form.
   */
  predicate Renamed(before: Option<string>, after: Option<string>)
  {
    after == before || (before.Some? && after == Some(AsciiOnly(before.value)))
  }

  /** Renaming keeps the name a file gets and whether it can be named, and renaming twice is renaming once. */
  lemma RenamedKeeps(filename: Option<string>, before: Option<string>, after: Option<string>, later: Option<string>)
    requires Renamed(before, after)
    ensures FileName(filename, after) == FileName(filename, before)
    ensures CanName(filename, before) ==> CanName(filename, after)
    ensures Renamed(after, later) ==> Renamed(before, later)
  {
    if before.Some? {
      AsciiOnlyIdempotent(before.value);
    }
  }

  /** The events a delivery emits: stored files and sent messages. */
  predicate DeliveryEvents(events: seq<Event>)
  {
    forall i :: 0 <= i < |events| ==> events[i].FileStored? || events[i].MessageSent?
  }

  /** Storing the file under "exports/{name}"; the answer is the URL the messages link to. */
  method StoreFile(filename: Option<string>, outputFile: Option<string>, exporter: Exporter,
                   side: ExporterSide, storage: StorageAnswer, log: Log)
    returns (r: Result<string>)
    modifies exporter, log
    ensures r.Err? <==> !Truthy(filename) && !Truthy(old(exporter.filename))
    ensures r.Err? ==> r.error == ValueError && log.events == old(log.events)
    ensures r.Ok? ==> Some(r.value) == FileUrl(true, storage)
    ensures r.Ok? ==> log.events == old(log.events) + [FileStored("exports/" + FileName(filename, old(exporter.filename)), Content(outputFile, side))]
    ensures Renamed(old(exporter.filename), exporter.filename)
  {
    var outputFilename: string;
    if Truthy(filename) {
      outputFilename := filename.value;
    } else {
      var f := exporter.GetFilename();
      if f.Err? {
        return Err(f.error);
      }
      outputFilename := f.value;
    }
    log.Emit(FileStored("exports/" + outputFilename, Content(outputFile, side)));
    return Ok(if storage.url.Some? then storage.url.value else storage.savedPath);
  }

  /** Building one message and sending it; a failing send raises `sendError`. */
  method SendTo(exporter: Exporter, side: ExporterSide, count: nat, subject: string, outputFile: Option<string>,
                filename: Option<string>, fileUrl: Option<string>, to: seq<string>, sendError: Option<Error>, log: Log)
    returns (r: Outcome)
    modifies exporter, log
    ensures Renamed(old(exporter.filename), exporter.filename)
    ensures r.Fail? ==> (r.error == ValueError || sendError == Some(r.error)) && log.events == old(log.events)
    ensures sendError.None? && CanName(filename, old(exporter.filename)) ==> r.Pass?
    ensures r.Pass? ==> log.events == old(log.events) + [MessageSent(MessageTo(Mailing(side, count, subject, outputFile, FileName(filename, old(exporter.filename)), fileUrl), to))]
  {
    var message := GetMessage(exporter, side, count, to, subject, outputFile, filename, fileUrl);
    if message.Err? {
      return Fail(message.error);
    }
    if sendError.Some? {
      return Fail(sendError.value);
    }
    log.Emit(MessageSent(message.value));
    return Pass;
  }

  /** Sending one message per address, each to that address alone (`send_separately`). */
  method SendEach(exporter: Exporter, side: ExporterSide, count: nat, subject: string, outputFile: Option<string>,
                  filename: Option<string>, fileUrl: Option<string>, emails: seq<string>, sendError: Option<Error>, log: Log)
    returns (r: Outcome)
    modifies exporter, log
    ensures Renamed(old(exporter.filename), exporter.filename)
    ensures old(log.events) <= log.events
    ensures DeliveryEvents(log.events[|old(log.events)|..])
    ensures r.Fail? ==> r.error == ValueError || sendError == Some(r.error)
    ensures sendError.None? && CanName(filename, old(exporter.filename)) ==> r.Pass?
    ensures r.Pass? ==> log.events == old(log.events) + Dispatch(Mailing(side, count, subject, outputFile, FileName(filename, old(exporter.filename)), fileUrl), Deliveries(emails, true))
  {
    ghost var original := exporter.filename;
    ghost var m := Mailing(side, count, subject, outputFile, FileName(filename, original), fileUrl);
    ghost var lists := Deliveries(emails, true);
    for i := 0 to |emails|
      invariant log.events == old(log.events) + Dispatch(m, lists[..i])
      invariant Renamed(original, exporter.filename)
    {
      ghost var current := exporter.filename;
      RenamedKeeps(filename, original, current, current);
      var sent := SendTo(exporter, side, count, subject, outputFile, filename, fileUrl, [emails[i]], sendError, log);
      RenamedKeeps(filename, original, current, exporter.filename);
      if sent.Fail? {
        return sent;
      }
      DispatchSnoc(m, lists, i);
    }
    assert lists[..|emails|] == lists;
    return Pass;
  }

  /** The sending part of a delivery: one message per address when sending separately, otherwise one to all. */
  method SendAll(exporter: Exporter, side: ExporterSide, count: nat, subject: string, outputFile: Option<string>,
                 filename: Option<string>, fileUrl: Option<string>, emails: seq<string>, separately: bool,
                 sendError: Option<Error>, log: Log)
    returns (r: Outcome)
    modifies exporter, log
    ensures old(log.events) <= log.events
    ensures DeliveryEvents(log.events[|old(log.events)|..])
    ensures r.Fail? ==> r.error == ValueError || sendError == Some(r.error)
    ensures sendError.None? && CanName(filename, old(exporter.filename)) ==> r.Pass?
    ensures r.Pass? ==> log.events == old(log.events) + Dispatch(Mailing(side, count, subject, outputFile, FileName(filename, old(exporter.filename)), fileUrl), Deliveries(emails, separately))
  {
    if separately {
      r := SendEach(exporter, side, count, subject, outputFile, filename, fileUrl, emails, sendError, log);
    } else {
      ghost var m := Mailing(side, count, subject, outputFile, FileName(filename, exporter.filename), fileUrl);
      r := SendTo(exporter, side, count, subject, outputFile, filename, fileUrl, emails, sendError, log);
      assert Dispatch(m, Deliveries(emails, false)) == [MessageSent(MessageTo(m, emails))];
    }
  }

  /**
   * The delivery part of `mail_successful_export` (and of jobs.mail_export):
   * store the file under "exports/{name}" when files are saved, then send
   * the messages. A step that raises stops the delivery: ValueError for a
   * missing filename, or the mail backend's error (`sendError`, raised by
   * the first send).
   */
  method Deliver(record: ExportRecord, filename: Option<string>, outputFile: Option<string>, exporter: Exporter,
                 side: ExporterSide, saveAsFile: bool, storage: StorageAnswer, sendError: Option<Error>, log: Log)
    returns (r: Outcome)
    modifies exporter, log
    ensures old(log.events) <= log.events
    ensures DeliveryEvents(log.events[|old(log.events)|..])
    ensures r.Fail? ==> r.error == ValueError || sendError == Some(r.error)
    ensures sendError.None? && CanName(filename, old(exporter.filename)) ==> r.Pass?
    ensures r.Pass? ==> log.events == old(log.events) + Delivery(DataOf(record), filename, outputFile, old(exporter.filename), side, saveAsFile, storage)
  {
    ghost var original := exporter.filename;
    var fileUrl: Option<string> := None;
    if saveAsFile {
      var url := StoreFile(filename, outputFile, exporter, side, storage, log);
      if url.Err? {
        return Fail(url.error);
      }
      fileUrl := Some(url.value);
    }
    RenamedKeeps(filename, original, exporter.filename, exporter.filename);
    ghost var stored := log.events;
    r := SendAll(exporter, side, record.total, DefaultSubject(record.verboseNamePlural), outputFile, filename, fileUrl,
                 record.recipientsEmails, record.sendSeparately, sendError, log);
    assert log.events[|old(log.events)|..] == stored[|old(log.events)|..] + log.events[|stored|..];
  }

  /**
   * `mail_successful_export`: builds a fresh exporter for the export (whose
   * filename starts as `exporterFilename`) and delivers with it.
   */
  method MailSuccessfulExport(record: ExportRecord, filename: Option<string>, outputFile: Option<string>,
                              exporterFilename: Option<string>, side: ExporterSide, saveAsFile: bool,
                              storage: StorageAnswer, sendError: Option<Error>, log: Log)
    returns (r: Outcome)
    modifies log
    ensures old(log.events) <= log.events
    ensures r.Fail? ==> r.error == ValueError || sendError == Some(r.error)
    ensures sendError.None? && CanName(filename, exporterFilename) ==> r.Pass?
    ensures r.Pass? ==> log.events == old(log.events) + Delivery(DataOf(record), filename, outputFile, exporterFilename, side, saveAsFile, storage)
    ensures DeliveryEvents(log.events[|old(log.events)|..])
  {
    var exporter := new Exporter(exporterFilename, false);
    r := Deliver(record, filename, outputFile, exporter, side, saveAsFile, storage, sendError, log);
  }

  // ---------------------------------------------------------------------
  // export_items
  // ---------------------------------------------------------------------

  /**
   * With whistle, the users to notify are looked up by the export's
   * creator; a None creator raises AttributeError at that lookup, before
   * anyone is notified and before the exporter's error is raised again.
   */
  predicate CreatorLookupFails(whistle: bool, hasCreator: bool)
  {
    whistle && !hasCreator
  }

  /** The exception a failure handler ends with: the original error, or the lookup's AttributeError. */
  function ReRaised(e: Error, whistle: bool, hasCreator: bool): Error
  {
    if CreatorLookupFails(whistle, hasCreator) then AttributeError else e
  }

  /** The effects of the `except` block: the export FAILED, its items marked FAILURE, users notified with whistle and a creator. */
  function FailureEvents(id: nat, e: Error, whistle: bool, hasCreator: bool): seq<Event>
  {
    [StatusSaved(id, Failed), ItemsMarked(id, Failure, Detail(e))]
    + if whistle && hasCreator then [FailureNotified(id, Detail(e))] else []
  }

  /** The effects before the exporter runs: the export PROCESSING, then its language activated. */
  function StartEvents(id: nat, language: string): seq<Event>
  {
    [StatusSaved(id, Processing), LanguageActivated(language)]
  }

  /** The effects of a successful export before mailing: FINISHED, then its items marked SUCCESS. */
  function FinishEvents(id: nat): seq<Event>
  {
    [StatusSaved(id, Finished), ItemsMarked(id, Success, "")]
  }

  /** The start effects save PROCESSING and no other status. */
  lemma StartTrail(e0: seq<Event>, id: nat, language: string)
    ensures StatusTrail(e0 + StartEvents(id, language), id) == StatusTrail(e0, id) + [Processing]
  {
    TrailOfTwo(e0, StatusSaved(id, Processing), LanguageActivated(language), id);
    assert e0 + StartEvents(id, language) == e0 + [StatusSaved(id, Processing)] + [LanguageActivated(language)];
  }

  /** The finish effects save FINISHED and no other status. */
  lemma FinishTrail(e0: seq<Event>, id: nat)
    ensures StatusTrail(e0 + FinishEvents(id), id) == StatusTrail(e0, id) + [Finished]
  {
    TrailOfTwo(e0, StatusSaved(id, Finished), ItemsMarked(id, Success, ""), id);
    assert e0 + FinishEvents(id) == e0 + [StatusSaved(id, Finished)] + [ItemsMarked(id, Success, "")];
  }

  /** The failure effects save FAILED and no other status, with or without whistle or a creator. */
  lemma FailureTrail(e0: seq<Event>, id: nat, e: Error, whistle: bool, hasCreator: bool)
    ensures StatusTrail(e0 + FailureEvents(id, e, whistle, hasCreator), id) == StatusTrail(e0, id) + [Failed]
  {
    var failed := e0 + [StatusSaved(id, Failed)] + [ItemsMarked(id, Failure, Detail(e))];
    TrailOfTwo(e0, StatusSaved(id, Failed), ItemsMarked(id, Failure, Detail(e)), id);
    if whistle && hasCreator {
      TrailSnoc(failed, FailureNotified(id, Detail(e)), id);
      assert e0 + FailureEvents(id, e, whistle, hasCreator) == failed + [FailureNotified(id, Detail(e))];
    } else {
      assert e0 + FailureEvents(id, e, whistle, hasCreator) == failed;
    }
  }

  /** Two events of which the second saves no status extend the trail by the first's status. */
  lemma TrailOfTwo(e0: seq<Event>, a: Event, b: Event, id: nat)
    requires a.StatusSaved? && a.exportId == id && !b.StatusSaved?
    ensures StatusTrail(e0 + [a] + [b], id) == StatusTrail(e0, id) + [a.status]
  {
    TrailSnoc(e0, a, id);
    TrailSnoc(e0 + [a], b, id);
  }

  method Start(record: ExportRecord, language: string, log: Log)
    modifies record, log
    ensures record.status == Processing
    ensures log.events == old(log.events) + StartEvents(record.id, language)
  {
    record.status := Processing;
    log.Emit(StatusSaved(record.id, Processing));
    log.Emit(LanguageActivated(language));
  }

  /**
   * The `except` block of `export_items` up to its `raise`: `raised` is
   * the exception it ends with.
   */
  method MarkFailed(record: ExportRecord, e: Error, whistle: bool, log: Log) returns (raised: Error)
    modifies record, log
    ensures record.status == Failed
    ensures log.events == old(log.events) + FailureEvents(record.id, e, whistle, record.hasCreator)
    ensures raised == ReRaised(e, whistle, record.hasCreator)
  {
    record.status := Failed;
    log.Emit(StatusSaved(record.id, Failed));
    log.Emit(ItemsMarked(record.id, Failure, Detail(e)));
    if whistle {
      if !record.hasCreator {
        return AttributeError;
      }
      log.Emit(FailureNotified(record.id, Detail(e)));
    }
    return e;
  }

  /** The success path of `export_items`: FINISHED, items marked SUCCESS, then the mailing. */
  method FinishAndMail(record: ExportRecord, filename: Option<string>, exporterFilename: Option<string>,
                       side: ExporterSide, saveAsFile: bool, storage: StorageAnswer, sendError: Option<Error>, log: Log)
    returns (r: Outcome)
    modifies record, log
    ensures old(log.events) <= log.events
    ensures record.status == Finished
    ensures StatusTrail(log.events, record.id) == StatusTrail(old(log.events), record.id) + [Finished]
    ensures r.Pass? ==> log.events == old(log.events) + FinishEvents(record.id)
                                       + Delivery(DataOf(record), filename, Some(side.output), exporterFilename, side, saveAsFile, storage)
    ensures r.Fail? ==> r.error == ValueError || sendError == Some(r.error)
    ensures sendError.None? && CanName(filename, exporterFilename) ==> r.Pass?
  {
    ghost var e0 := log.events;
    record.status := Finished;
    log.Emit(StatusSaved(record.id, Finished));
    log.Emit(ItemsMarked(record.id, Success, ""));
    ghost var marked := log.events;
    assert marked == e0 + FinishEvents(record.id);
    r := MailSuccessfulExport(record, filename, Some(side.output), exporterFilename, side, saveAsFile, storage, sendError, log);
    ghost var mid := log.events[|marked|..];
    assert log.events == marked + mid;
    FinishTrail(e0, record.id);
    DeliveryStatusFree(mid, record.id);
    ProjectionsAppend(marked, mid, record.id);
  }

  /** Whether `events` ends with `tail`. */
  predicate EndsWith(events: seq<Event>, tail: seq<Event>)
  {
    |tail| <= |events| && events[|events| - |tail|..] == tail
  }

  /**
   * `export_items`: the export is PROCESSING while the exporter runs; on
   * success it is FINISHED, its items are marked SUCCESS and the result is
   * mailed; if anything raises (the exporter or the mailing), the export
   * is FAILED, its items are marked FAILURE with the error's message,
   * users are notified when whistle is installed, and the error is
   * raised again; with whistle and no creator, the creator lookup raises
   * AttributeError instead and nobody is notified. The exporter used to export starts with filename
   * `exporterFilename`; its output is what the mail attaches.
   */
  method ExportItems(record: ExportRecord, language: string, filename: Option<string>, exporterFilename: Option<string>,
                     side: ExporterSide, saveAsFile: bool, storage: StorageAnswer, sendError: Option<Error>,
                     whistle: bool, log: Log)
    returns (r: Outcome)
    modifies record, log
    ensures old(log.events) <= log.events
    ensures r.Pass? <==> record.status == Finished
    ensures r.Fail? <==> record.status == Failed
    ensures side.exportError.Some? ==>
      (r == Fail(ReRaised(side.exportError.value, whistle, record.hasCreator)) &&
       log.events == old(log.events) + StartEvents(record.id, language)
                     + FailureEvents(record.id, side.exportError.value, whistle, record.hasCreator))
    ensures r.Pass? ==> log.events == old(log.events) + StartEvents(record.id, language) + FinishEvents(record.id)
                                       + Delivery(DataOf(record), filename, Some(side.output), exporterFilename, side, saveAsFile, storage)
    ensures side.exportError.None? && r.Fail? ==>
      StatusTrail(log.events, record.id) == StatusTrail(old(log.events), record.id) + [Processing, Finished, Failed]
    ensures side.exportError.None? && r.Fail? && !CreatorLookupFails(whistle, record.hasCreator) ==>
      ((r.error == ValueError || sendError == Some(r.error)) &&
       EndsWith(log.events, FailureEvents(record.id, r.error, whistle, record.hasCreator)))
    ensures side.exportError.None? && r.Fail? && CreatorLookupFails(whistle, record.hasCreator) ==>
      (r.error == AttributeError &&
       (EndsWith(log.events, FailureEvents(record.id, ValueError, whistle, record.hasCreator)) ||
        (sendError.Some? && EndsWith(log.events, FailureEvents(record.id, sendError.value, whistle, record.hasCreator)))))
    ensures side.exportError.None? && sendError.None? && CanName(filename, exporterFilename) ==> r.Pass?
  {
    ghost var e0 := log.events;
    Start(record, language, log);
    if side.exportError.Some? {
      var raised := MarkFailed(record, side.exportError.value, whistle, log);
      return Fail(raised);
    }
    StartTrail(e0, record.id, language);
    var mailed := FinishAndMail(record, filename, exporterFilename, side, saveAsFile, storage, sendError, log);
    if mailed.Pass? {
      return Pass;
    }
    ghost var e2 := log.events;
    var raised := MarkFailed(record, mailed.error, whistle, log);
    FailureTrail(e2, record.id, mailed.error, whistle, record.hasCreator);
    assert log.events[|e2|..] == FailureEvents(record.id, mailed.error, whistle, record.hasCreator);
    return Fail(raised);
  }

  /** A delivery saves no status: its events are stored files and sent messages. */
  lemma {:induction false} DeliveryStatusFree(events: seq<Event>, id: nat)
    requires DeliveryEvents(events)
    ensures StatusTrail(events, id) == []
    decreases |events|
  {
    if |events| > 0 {
      DeliveryStatusFree(events[..|events| - 1], id);
    }
  }

  // ---------------------------------------------------------------------
  // execute_export and Export.send_mail
  // ---------------------------------------------------------------------

  /** The dotted name `send_mail` passes for the export's class. */
  const EXPORT_CLASS_NAME := "outputs.models.Export"

  /** `Export.send_mail` as intended: queue the mailing job for this record. */
  method SendMail(exportId: nat, language: string, filename: Option<string>, log: Log)
    modifies log
    ensures log.events == old(log.events) + [MailQueued(exportId, EXPORT_CLASS_NAME, language, filename)]
  {
    log.Emit(MailQueued(exportId, EXPORT_CLASS_NAME, language, filename));
  }

  /**
   * `execute_export`: the exporter saves a new export (`saved` is the new
   * export's ID, or the exception `save_export` raises), then mailing is
   * requested with the exporter's filename; any exception is raised again.
   * This is the corrected version, whose `send_mail` queues the job.
   */
  method ExecuteExport(exporter: Exporter, saved: Result<nat>, language: string, log: Log) returns (r: Outcome)
    modifies exporter, log
    ensures saved.Err? ==> r == Fail(saved.error) && log.events == old(log.events)
    ensures saved.Ok? && !Truthy(old(exporter.filename)) ==> r == Fail(ValueError) && log.events == old(log.events) + [ExportSaved(saved.value)]
    ensures saved.Ok? && Truthy(old(exporter.filename)) ==>
      && r == Pass
      && log.events == old(log.events) + [ExportSaved(saved.value),
                                          MailQueued(saved.value, EXPORT_CLASS_NAME, language, Some(AsciiOnly(old(exporter.filename).value)))]
  {
    if saved.Err? {
      return Fail(saved.error);
    }
    log.Emit(ExportSaved(saved.value));
    var name := exporter.GetFilename();
    if name.Err? {
      return Fail(name.error);
    }
    SendMail(saved.value, language, Some(name.value), log);
    return Pass;
  }

  /**
   * `execute_export` as written: `send_mail` calls `.delay` on
   * `jobs.mail_export`, a plain function without that attribute, so every
   * run that gets that far raises AttributeError and no mail is queued.
   */
  method ExecuteExportAsWritten(exporter: Exporter, saved: Result<nat>, language: string, log: Log) returns (r: Outcome)
    modifies exporter, log
    ensures r.Fail?
    ensures saved.Ok? && Truthy(old(exporter.filename)) ==> r == Fail(AttributeError)
    ensures forall i :: |old(log.events)| <= i < |log.events| ==> !log.events[i].MailQueued?
  {
    if saved.Err? {
      return Fail(saved.error);
    }
    log.Emit(ExportSaved(saved.value));
    var name := exporter.GetFilename();
    if name.Err? {
      return Fail(name.error);
    }
    return Fail(AttributeError);
  }
}
