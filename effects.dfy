/**
 * The effects of an export run on the world outside the model: saving the
 * export's status, activating a language, marking the exported items,
 * storing the file, sending mail, notifying users of a failure, saving a
 * new export and queueing a mail job. They are recorded in a log, in the
 * order they happen; the answers of the exporter, the storage backend and
 * the mail backend are parameters.
 */
module Effects {
  import opened Common
  import opened OutputsModels

  /** A file attached to a message: its name, content and MIME type. */
  datatype Attachment = Attachment(filename: string, content: string, mimetype: string)

  /** The body an exporter renders, from the item count and the file's URL. */
  datatype Body = Body(count: nat, fileUrl: Option<string>)

  /** An `EmailMultiAlternatives` message. */
  datatype Message = Message(subject: string, to: seq<string>, body: Body, attachment: Option<Attachment>)

  /** The result recorded for each exported item. */
  datatype ItemResult = Success | Failure

  datatype Event =
    | StatusSaved(exportId: nat, status: Status)
    | LanguageActivated(language: string)
    | ItemsMarked(exportId: nat, result: ItemResult, detail: string)
    | FileStored(path: string, content: string)
    | MessageSent(message: Message)
    | FailureNotified(exportId: nat, details: string)
    | ExportSaved(exportId: nat)
    | MailQueued(exportId: nat, exportClass: string, language: string, filename: Option<string>)

  /** The effects so far. */
  class Log {
    var events: seq<Event>

    constructor()
      ensures events == []
    {
      events := [];
    }

    method Emit(e: Event)
      modifies this
      ensures events == old(events) + [e]
    {
      events := events + [e];
    }
  }

  /** What an exporter's own methods answer. */
  datatype ExporterSide = ExporterSide(
    subject: Option<string>,     // get_message_subject(), None by default
    output: string,              // get_output()
    contentType: string,         // the exporter's MIME type
    exportError: Option<Error>)  // the exception export() raises, if any

  /** What the storage backend answers for a stored file. */
  datatype StorageAnswer = StorageAnswer(
    savedPath: string,           // the name default_storage.save gives the file
    url: Option<string>)         // default_storage.url(saved), None when the backend has no URLs

  /** `str(e)`: the message of an exception; the built-in exceptions of the model carry none. */
  function Detail(e: Error): string
  {
    match e
      case Raised(d) => d
      case ValidationError(code) => code
      case _ => ""
  }

  /** The statuses saved for one export, in order. */
  function StatusTrail(events: seq<Event>, id: nat): seq<Status>
  {
    if |events| == 0 then []
    else
      var last := events[|events| - 1];
      StatusTrail(events[..|events| - 1], id) + if last.StatusSaved? && last.exportId == id then [last.status] else []
  }

  /** The messages sent, in order. */
  function Sent(events: seq<Event>): seq<Message>
  {
    if |events| == 0 then []
    else
      var last := events[|events| - 1];
      Sent(events[..|events| - 1]) + if last.MessageSent? then [last.message] else []
  }

  /** Saving one more event extends the trail only by a status saved for that export. */
  lemma TrailSnoc(a: seq<Event>, e: Event, id: nat)
    ensures StatusTrail(a + [e], id) == StatusTrail(a, id) + if e.StatusSaved? && e.exportId == id then [e.status] else []
    ensures Sent(a + [e]) == Sent(a) + if e.MessageSent? then [e.message] else []
  {
    assert (a + [e])[..|a|] == a;
  }

  /** Both projections work event by event. */
  lemma {:induction false} ProjectionsAppend(a: seq<Event>, b: seq<Event>, id: nat)
    ensures StatusTrail(a + b, id) == StatusTrail(a, id) + StatusTrail(b, id)
    ensures Sent(a + b) == Sent(a) + Sent(b)
    decreases |b|
  {
    if |b| == 0 {
      assert a + b == a;
    } else {
      var b' := b[..|b| - 1];
      assert (a + b)[..|a + b| - 1] == a + b';
      ProjectionsAppend(a, b', id);
    }
  }
}
