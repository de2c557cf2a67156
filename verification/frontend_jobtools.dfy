/** The frontend's jobtools: `ChatJob` with its dictionary form, and a
    register whose `delete_job` raises `KeyError` for an absent id. A job
    read back by `from_dict` may have no id, so the id type is `Option`. */
module FrontendJobs {
  import opened Wrappers
  import opened JobStatus
  import opened ChatJobs
  import Register

  type FrontendChatJob = ChatJob<Option<string>>

  /** The JSON values a job dictionary holds. */
  datatype DictValue = Str(s: string) | StrList(items: seq<string>) | Null

  /** Why `from_dict` gave up: a required key missing (`KeyError`), or a
      value of a shape a chat job cannot hold. */
  datatype DictError = MissingKey(key: string) | WrongShape(key: string)

  /** `to_dict()`: the five fields under their attribute names. */
  function ToDict(j: FrontendChatJob): (d: map<string, DictValue>)
    ensures d.Keys == {"sys_prompt", "messages", "uuid", "status", "completion"}
    ensures d["sys_prompt"] == Str(j.sysPrompt) && d["messages"] == StrList(j.messages)
    ensures d["status"] == Str(j.status) && d["completion"] == Str(j.completion)
    ensures d["uuid"] == (if j.uuid.Some? then Str(j.uuid.value) else Null)
  {
    map[
      "sys_prompt" := Str(j.sysPrompt),
      "messages" := StrList(j.messages),
      "uuid" := (match j.uuid case Some(u) => Str(u) case None => Null),
      "status" := Str(j.status),
      "completion" := Str(j.completion)]
  }

  /** `data.get(key, default)` for a string-valued key. */
  function GetString(d: map<string, DictValue>, key: string, default: string): Result<string, DictError> {
    if key !in d then Success(default)
    else match d[key]
      case Str(s) => Success(s)
      case _ => Failure(WrongShape(key))
  }

  /** A dictionary every value of which has the shape its field takes: the
      two required keys present with a string and a string list, and each
      optional key, when present, a string (`uuid` may also be `None`). */
  predicate WellShaped(d: map<string, DictValue>) {
    && "sys_prompt" in d && d["sys_prompt"].Str?
    && "messages" in d && d["messages"].StrList?
    && ("uuid" in d ==> !d["uuid"].StrList?)
    && ("status" in d ==> d["status"].Str?)
    && ("completion" in d ==> d["completion"].Str?)
  }

  /** `from_dict(data)`: `sys_prompt` and `messages` are required (read in
      that order); a missing `uuid` or a `None` one gives no id, a missing
      `status` gives "created", a missing `completion` gives "". It
      succeeds exactly on a well-shaped dictionary. */
  function FromDict(d: map<string, DictValue>): (r: Result<FrontendChatJob, DictError>)
    ensures "sys_prompt" !in d ==> r == Failure(MissingKey("sys_prompt"))
    ensures "sys_prompt" in d && "messages" !in d ==> r == Failure(MissingKey("messages"))
    ensures r.Success? ==> d["sys_prompt"] == Str(r.value.sysPrompt) && d["messages"] == StrList(r.value.messages)
    ensures r.Success? && "status" in d ==> d["status"] == Str(r.value.status)
    ensures r.Success? && "completion" in d ==> d["completion"] == Str(r.value.completion)
    ensures r.Success? && "status" !in d ==> r.value.status == Created
    ensures r.Success? && "completion" !in d ==> r.value.completion == ""
    ensures r.Success? && ("uuid" !in d || d["uuid"] == Null) ==> r.value.uuid == None
    ensures r.Success? && "uuid" in d && d["uuid"].Str? ==> r.value.uuid == Some(d["uuid"].s)
    ensures r.Success? <==> WellShaped(d)
  {
    if "sys_prompt" !in d then Failure(MissingKey("sys_prompt"))
    else if "messages" !in d then Failure(MissingKey("messages"))
    else if !d["sys_prompt"].Str? then Failure(WrongShape("sys_prompt"))
    else if !d["messages"].StrList? then Failure(WrongShape("messages"))
    else
      var uuid: Result<Option<string>, DictError> :=
        if "uuid" !in d then Success(None)
        else match d["uuid"]
          case Str(u) => Success(Some(u))
          case Null => Success(None)
          case StrList(_) => Failure(WrongShape("uuid"));
      var status := GetString(d, "status", Created);
      var completion := GetString(d, "completion", "");
      if uuid.Failure? then Failure(uuid.error)
      else if status.Failure? then Failure(status.error)
      else if completion.Failure? then Failure(completion.error)
      else
        var job := NewChatJob(d["sys_prompt"].s, d["messages"].items, uuid.value);
        Success(job.(status := status.value, completion := completion.value))
  }

  /** `from_dict(to_dict(j))` reproduces every field of `j`. */
  lemma DictRoundTrip(j: FrontendChatJob)
    ensures FromDict(ToDict(j)) == Success(j)
  {
  }

  /** A dictionary with only the two required keys reads as a fresh job:
      status "created", empty completion, no id. */
  lemma FromDictDefaults(sysPrompt: string, messages: seq<string>)
    ensures FromDict(map["sys_prompt" := Str(sysPrompt), "messages" := StrList(messages)])
            == Success(ChatJob(sysPrompt, messages, None, Created, ""))
  {
  }

  /** `delete_job(id)`: removes only `id`; an absent id raises `KeyError` and
      the register is left as it was. */
  function DeleteJob(reg: map<Option<string>, FrontendChatJob>, id: Option<string>)
    : (r: Result<map<Option<string>, FrontendChatJob>, Register.KeyError<Option<string>>>)
    ensures r.Failure? <==> id !in reg
    ensures r.Success? ==> Register.Get(r.value, id) == None
    ensures r.Success? ==> forall other :: other != id ==> Register.Get(r.value, other) == Register.Get(reg, other)
  {
    Register.DeleteOrRaise(reg, id)
  }
}
