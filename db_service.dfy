/**
  The report store (dbService.js). `saveReport` writes one document to the
  `reports` collection: the user id, falling back to 'anonymous', a server
  timestamp, and then every field of the report, which may override both. It
  returns the new document's id, or null when the write fails.

  The collection is an in-memory sequence of documents; whether the write
  succeeds, and the id the store assigns, are the parameter `write`.
*/
module DbService {
  import opened Wrappers
  import opened Js

  const Anonymous: string := "anonymous"

  /**
    The object literal `{ userId: userId || 'anonymous', timestamp: serverTimestamp(), ...reportData }`.
    The spread comes last, so a key of `reportData` wins over both defaults.
  */
  function ReportRecord(userId: Value, reportData: map<string, Value>): (r: map<string, Value>)
    ensures r.Keys == reportData.Keys + {"userId", "timestamp"}
    ensures forall k :: k in reportData ==> r[k] == reportData[k]
    ensures "userId" !in reportData ==> r["userId"] == (if Truthy(userId) then userId else Str(Anonymous))
    ensures "timestamp" !in reportData ==> r["timestamp"] == ServerTimestamp
  {
    map["userId" := Or(userId, Str(Anonymous)), "timestamp" := ServerTimestamp] + reportData
  }

  /** A missing user id (undefined, null or the empty string) is stored as 'anonymous'. */
  lemma FalsyUserIdIsAnonymous(userId: Value, reportData: map<string, Value>)
    requires userId == Undefined || userId == Null || userId == Str("")
    requires "userId" !in reportData
    ensures ReportRecord(userId, reportData)["userId"] == Str(Anonymous)
  {
  }

  /** A stored document: the id the store assigned and its fields. */
  datatype Doc = Doc(id: string, fields: map<string, Value>)

  /** What the store's `add` call did: the id of the new document, or the error it raised. */
  datatype WriteResult = Added(id: string) | WriteFailed(reason: string)

  /** The `reports` collection. */
  class ReportStore {
    var docs: seq<Doc>

    constructor ()
      ensures docs == []
    {
      docs := [];
    }

    /**
      `saveReport`: on success exactly one document is appended and its id is
      returned; a failed write is swallowed, returns null (None) and stores nothing.
    */
    method SaveReport(userId: Value, reportData: map<string, Value>, write: WriteResult) returns (id: Option<string>)
      modifies this
      ensures |docs| == |old(docs)| + (if write.Added? then 1 else 0)
      ensures docs[..|old(docs)|] == old(docs)
      ensures write.Added? ==> id == Some(write.id) && docs[|docs| - 1] == Doc(write.id, ReportRecord(userId, reportData))
      ensures write.WriteFailed? ==> id == None && docs == old(docs)
    {
      var record := ReportRecord(userId, reportData);
      match write
      case Added(newId) =>
        docs := docs + [Doc(newId, record)];
        id := Some(newId);
      case WriteFailed(_) =>
        id := None;
    }
  }
}
