/** `VectorJob` of the vector service: an upload of file contents with
    metadata, or a query, against a named collection, with an optional result. */
module VectorJobs {
  import opened Wrappers
  import opened JobStatus

  /** The payload stored with a point and returned with a search hit. */
  datatype Payload = Payload(source: Option<string>, author: Option<string>, content: string)

  /** One `{"score": ..., "metadata": ...}` entry of a query result. */
  datatype ScoredPayload = ScoredPayload(score: real, metadata: Payload)

  /** The two result shapes the worker stores: the upload confirmation
      `{"message": ..., "points_count": n}` and the list of query hits. */
  datatype VectorResult =
    | UploadReport(message: string, pointsCount: nat)
    | QueryHits(hits: seq<ScoredPayload>)

  datatype VectorJob = VectorJob(
    files: Option<seq<string>>,
    metadata: Option<map<string, string>>,
    query: Option<string>,
    collection: string,
    taskType: string,
    uuid: string,
    status: Status,
    result: Option<VectorResult>)

  /** The constructor, with its keyword defaults; `uuid` stands for the fresh
      `uuid4().hex`. */
  function NewVectorJob(
    uuid: string,
    files: Option<seq<string>> := None,
    metadata: Option<map<string, string>> := None,
    query: Option<string> := None,
    collection: string := "",
    taskType: string := "upload"): (j: VectorJob)
    ensures j.files == files && j.metadata == metadata && j.query == query
    ensures j.collection == collection && j.taskType == taskType && j.uuid == uuid
    ensures j.status == Created && j.result == None
  {
    VectorJob(files, metadata, query, collection, taskType, uuid, Created, None)
  }

  /** With no keyword arguments the job is an upload to collection "" with no
      files, metadata or query. */
  lemma ConstructorDefaults(uuid: string)
    ensures NewVectorJob(uuid) == VectorJob(None, None, None, "", "upload", uuid, Created, None)
  {
  }

  /** `set_result(r)`: the result only. */
  function SetResult(j: VectorJob, r: VectorResult): (out: VectorJob)
    ensures out.result == Some(r)
    ensures out.status == j.status && Inputs(out) == Inputs(j)
  {
    j.(result := Some(r))
  }

  /** `set_status(s)`: the status only. */
  function SetStatus(j: VectorJob, s: Status): (out: VectorJob)
    ensures out.status == s
    ensures out.result == j.result && Inputs(out) == Inputs(j)
  {
    j.(status := s)
  }

  /** `get_uuid()`, the key the register stores the job under. */
  function GetUuid(j: VectorJob): string {
    j.uuid
  }

  /** What the getters `get_files` .. `get_uuid` return. */
  function Inputs(j: VectorJob): (Option<seq<string>>, Option<map<string, string>>, Option<string>, string, string, string) {
    (j.files, j.metadata, j.query, j.collection, j.taskType, j.uuid)
  }

  /** The getters return the constructor arguments, and no setter changes
      them afterwards; `get_result` returns what was last set. */
  lemma GettersKeepConstructorArguments(
    uuid: string, files: Option<seq<string>>, metadata: Option<map<string, string>>,
    query: Option<string>, collection: string, taskType: string,
    r: VectorResult, s: Status)
    ensures Inputs(SetStatus(SetResult(NewVectorJob(uuid, files, metadata, query, collection, taskType), r), s))
            == (files, metadata, query, collection, taskType, uuid)
    ensures SetStatus(SetResult(NewVectorJob(uuid, files, metadata, query, collection, taskType), r), s).result
            == Some(r)
  {
  }
}
