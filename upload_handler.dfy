/**
  The upload handler (uploadHandler.js). A request without a file is answered
  with 400 before any storage object is made. Otherwise the object key is the
  upload time followed by "-" and the original file name, and four callbacks
  race to answer: the write stream's `error` and `finish` events, a 5-second
  timer, and the `catch` block. Each of them answers only while
  `res.headersSent` is false.

  The clock is the parameter `now` (the value of `Date.now()`), and the order in
  which the callbacks fire is an arbitrary sequence of events.
*/
module UploadHandler {
  import opened Wrappers
  import opened Js

  // ---------------------------------------------------------------------------
  // The object key `${Date.now()}-${file.originalname}`
  // ---------------------------------------------------------------------------

  /** The length of the run of digits at the start of `s`. */
  function LeadingDigits(s: string): (k: nat)
    ensures k <= |s| && AllDigits(s[..k])
    ensures k < |s| ==> !IsDigit(s[k])
    decreases |s|
  {
    if s != [] && IsDigit(s[0]) then
      var k := 1 + LeadingDigits(s[1..]);
      assert s[..k] == [s[0]] + s[1..][..k - 1];
      k
    else 0
  }

  /** The object key: the decimal timestamp, "-", and the original name, unchanged and unsanitised. */
  function ObjectKey(now: nat, originalname: string): (key: string)
    ensures |key| == |Decimal(now)| + 1 + |originalname|
    ensures key[..|Decimal(now)|] == Decimal(now) && key[|Decimal(now)|] == '-'
    ensures key[|Decimal(now)| + 1..] == originalname
  {
    Decimal(now) + "-" + originalname
  }

  /** Splits a key at the end of its leading timestamp, or None when it has none. */
  function SplitKey(key: string): Option<(nat, string)>
  {
    var k := LeadingDigits(key);
    if 0 < k < |key| && key[k] == '-' then Some((DigitsValue(key[..k]), key[k + 1..])) else None
  }

  lemma {:induction false} LeadingDigitsOfDigitsThen(d: string, t: string)
    requires AllDigits(d) && t != [] && !IsDigit(t[0])
    ensures LeadingDigits(d + t) == |d|
    decreases |d|
  {
    if d == [] {
      assert d + t == t;
    } else {
      assert (d + t)[1..] == d[1..] + t;
      LeadingDigitsOfDigitsThen(d[1..], t);
    }
  }

  /** The key determines the timestamp and the original name it was built from. */
  lemma KeyRoundTrip(now: nat, originalname: string)
    ensures SplitKey(ObjectKey(now, originalname)) == Some((now, originalname))
  {
    var d := Decimal(now);
    var key := ObjectKey(now, originalname);
    assert key == d + ("-" + originalname);
    LeadingDigitsOfDigitsThen(d, "-" + originalname);
    assert key[..|d|] == d;
    assert key[|d| + 1..] == originalname;
    DecimalRoundTrip(now);
  }

  /** The `gs://` path reported once the upload has finished. */
  function FilePath(bucket: string, key: string): (path: string)
    ensures |path| == 6 + |bucket| + |key|
    ensures path[..5] == "gs://" && path[5..5 + |bucket|] == bucket && path[5 + |bucket|] == '/'
    ensures path[6 + |bucket|..] == key
  {
    "gs://" + bucket + "/" + key
  }

  // ---------------------------------------------------------------------------
  // Responses and the events that race to send one
  // ---------------------------------------------------------------------------

  const NoFileMessage: string := "No file uploaded"
  const UploadFailedMessage: string := "Upload failed"
  const InternalErrorMessage: string := "Internal server error"
  const TimeoutMessage: string := "Upload may have completed, but no response was returned in time."

  /** The JSON bodies the handler sends; `Status` is their `status` field. */
  datatype Body =
    | ErrorBody(message: string, error: Option<string>)
    | Uploaded(filePath: string)
    | TimedOut(message: string)
  {
    function Status(): string
    {
      match this
      case ErrorBody(_, _) => "error"
      case Uploaded(_) => "uploaded"
      case TimedOut(_) => "timeout"
    }
  }

  /** `res.status(code).json(body)`. */
  datatype Reply = Reply(code: int, body: Body)

  /** The callbacks that may fire once the write stream is open. */
  datatype Event =
    | StreamError(message: string)  // blobStream 'error', with err.message
    | Finish                        // blobStream 'finish'
    | Timeout                       // the 5-second setTimeout
    | Thrown(message: string)       // the catch block, with err.message

  /** The reply the callback for `e` writes when no reply has been sent yet. */
  function Answer(e: Event, filePath: string): (r: Reply)
    ensures r.code == 500 <==> e.StreamError? || e.Thrown?
    ensures r.code == 200 <==> e.Finish? || e.Timeout?
    ensures r.body.Status() == "error" <==> r.code == 500
    ensures e.StreamError? ==> r.body == ErrorBody(UploadFailedMessage, Some(e.message))
    ensures e.Thrown? ==> r.body == ErrorBody(InternalErrorMessage, Some(e.message))
    ensures e.Finish? ==> r.body == Uploaded(filePath)
    ensures e.Timeout? ==> r.body == TimedOut(TimeoutMessage)
  {
    match e
    case StreamError(m) => Reply(500, ErrorBody(UploadFailedMessage, Some(m)))
    case Finish => Reply(200, Uploaded(filePath))
    case Timeout => Reply(200, TimedOut(TimeoutMessage))
    case Thrown(m) => Reply(500, ErrorBody(InternalErrorMessage, Some(m)))
  }

  /** `if (!res.headersSent) res.status(..).json(..)` applied to the replies sent so far. */
  function Guarded(sent: seq<Reply>, r: Reply): (now: seq<Reply>)
    ensures sent != [] ==> now == sent
    ensures sent == [] ==> now == [r]
  {
    if sent == [] then [r] else sent
  }

  /** The replies sent after the callbacks have fired in the order `events`. */
  function Replay(events: seq<Event>, filePath: string): (sent: seq<Reply>)
    ensures sent == [] <==> events == []
    decreases |events|
  {
    if events == [] then []
    else Guarded(Replay(events[..|events| - 1], filePath), Answer(events[|events| - 1], filePath))
  }

  /** Whatever the order of the callbacks, at most one reply is sent, and one is sent once any has fired. */
  lemma {:induction false} AtMostOneReply(events: seq<Event>, filePath: string)
    ensures |Replay(events, filePath)| <= 1
    ensures |Replay(events, filePath)| == 1 <==> events != []
    decreases |events|
  {
    if events != [] {
      AtMostOneReply(events[..|events| - 1], filePath);
    }
  }

  /** The first callback to fire decides the reply. */
  lemma {:induction false} FirstEventDecides(events: seq<Event>, filePath: string)
    requires events != []
    ensures Replay(events, filePath) == [Answer(events[0], filePath)]
    decreases |events|
  {
    if |events| > 1 {
      var front := events[..|events| - 1];
      assert front[0] == events[0];
      FirstEventDecides(front, filePath);
    }
  }

  /** Callbacks that fire after the first leave the reply unchanged. */
  lemma LaterEventsIgnored(first: seq<Event>, later: seq<Event>, filePath: string)
    requires first != []
    ensures Replay(first + later, filePath) == Replay(first, filePath)
  {
    FirstEventDecides(first, filePath);
    FirstEventDecides(first + later, filePath);
    assert (first + later)[0] == first[0];
  }

  /** A storage error that fires first is answered with 500 "Upload failed". */
  lemma StorageErrorFirst(message: string, later: seq<Event>, filePath: string)
    ensures Replay([StreamError(message)] + later, filePath)
         == [Reply(500, ErrorBody(UploadFailedMessage, Some(message)))]
  {
    FirstEventDecides([StreamError(message)] + later, filePath);
  }

  /**
    A timer that fires first is answered with 200 "timeout", even when `finish`
    arrives later. The second ensures is a corollary of the first, spelled out
    for the status field.
  */
  lemma TimeoutFirst(later: seq<Event>, filePath: string)
    ensures Replay([Timeout] + later, filePath) == [Reply(200, TimedOut(TimeoutMessage))]
    ensures Replay([Timeout] + later, filePath)[0].body.Status() == "timeout"
  {
    FirstEventDecides([Timeout] + later, filePath);
  }

  /** A `finish` that fires first is answered with 200 "uploaded" and the object's gs:// path. */
  lemma FinishFirst(later: seq<Event>, bucket: string, now: nat, originalname: string)
    ensures Replay([Finish] + later, FilePath(bucket, ObjectKey(now, originalname)))
         == [Reply(200, Uploaded("gs://" + bucket + "/" + Decimal(now) + "-" + originalname))]
  {
    var filePath := FilePath(bucket, ObjectKey(now, originalname));
    FirstEventDecides([Finish] + later, filePath);
    assert filePath == "gs://" + bucket + "/" + Decimal(now) + "-" + originalname;
  }

  // ---------------------------------------------------------------------------
  // The response object and the callbacks
  // ---------------------------------------------------------------------------

  /** Express's `res`: whether headers went out, and the replies written to the client. */
  class Response {
    var headersSent: bool
    var sent: seq<Reply>

    ghost predicate Valid()
      reads this
    {
      |sent| <= 1 && (headersSent <==> sent != [])
    }

    constructor ()
      ensures Valid() && !headersSent && sent == []
    {
      headersSent := false;
      sent := [];
    }

    /** `res.status(r.code).json(r.body)`; a second reply would fail, so it needs headers unsent. */
    method Send(r: Reply)
      requires Valid() && !headersSent
      modifies this
      ensures Valid() && headersSent && sent == [r]
    {
      headersSent := true;
      sent := sent + [r];
    }
  }

  /** The callbacks of one `handleUpload` call, sharing its `res` and the object's path. */
  class PendingUpload {
    const res: Response
    const filePath: string

    constructor (res: Response, filePath: string)
      ensures this.res == res && this.filePath == filePath
    {
      this.res := res;
      this.filePath := filePath;
    }

    /** blobStream.on('error'). */
    method OnError(message: string)
      requires res.Valid()
      modifies res
      ensures res.Valid() && res.sent == Guarded(old(res.sent), Answer(StreamError(message), filePath))
    {
      if !res.headersSent {
        res.Send(Reply(500, ErrorBody(UploadFailedMessage, Some(message))));
      }
    }

    /** blobStream.on('finish'). */
    method OnFinish()
      requires res.Valid()
      modifies res
      ensures res.Valid() && res.sent == Guarded(old(res.sent), Answer(Finish, filePath))
    {
      if !res.headersSent {
        res.Send(Reply(200, Uploaded(filePath)));
      }
    }

    /** The 5-second safety-net timer. */
    method OnTimeout()
      requires res.Valid()
      modifies res
      ensures res.Valid() && res.sent == Guarded(old(res.sent), Answer(Timeout, filePath))
    {
      if !res.headersSent {
        res.Send(Reply(200, TimedOut(TimeoutMessage)));
      }
    }

    /** The catch block of handleUpload. */
    method OnCatch(message: string)
      requires res.Valid()
      modifies res
      ensures res.Valid() && res.sent == Guarded(old(res.sent), Answer(Thrown(message), filePath))
    {
      if !res.headersSent {
        res.Send(Reply(500, ErrorBody(InternalErrorMessage, Some(message))));
      }
    }

    method Fire(e: Event)
      requires res.Valid()
      modifies res
      ensures res.Valid() && res.sent == Guarded(old(res.sent), Answer(e, filePath))
    {
      match e
      case StreamError(m) => OnError(m);
      case Finish => OnFinish();
      case Timeout => OnTimeout();
      case Thrown(m) => OnCatch(m);
    }
  }

  /** The file multer parsed from the multipart body; its bytes go to the write stream. */
  datatype UploadedFile = UploadedFile(originalname: string)

  /**
    `handleUpload`: `objects` holds the key the upload is started under (none
    without a file; whether the object comes to exist is up to the storage
    events), and `res.sent` the replies written once the callbacks have fired
    in the order `events`.
  */
  method HandleUpload(file: Option<UploadedFile>, now: nat, bucket: string, events: seq<Event>)
    returns (res: Response, objects: seq<string>)
    ensures res.Valid()
    ensures file.None? ==> objects == [] && res.sent == [Reply(400, ErrorBody(NoFileMessage, None))]
    ensures file.Some? ==>
              && objects == [ObjectKey(now, file.value.originalname)]
              && res.sent == Replay(events, FilePath(bucket, objects[0]))
  {
    res := new Response();
    if file.None? {
      res.Send(Reply(400, ErrorBody(NoFileMessage, None)));
      objects := [];
      return;
    }
    var fileName := ObjectKey(now, file.value.originalname);
    objects := [fileName];
    var upload := new PendingUpload(res, FilePath(bucket, fileName));
    var i := 0;
    while i < |events|
      invariant 0 <= i <= |events|
      invariant res.Valid()
      invariant res.sent == Replay(events[..i], upload.filePath)
    {
      upload.Fire(events[i]);
      assert events[..i + 1][..i] == events[..i];
      i := i + 1;
    }
    assert events[..i] == events;
  }
}
