/** The `JobRegister` of every service: a dictionary from job id to job, each
    operation taken under the register's lock. With one step at a time the
    lock becomes atomicity of each function. The frontend's `delete_job`
    re-raises `KeyError` for an absent id; the llm, embedder and vector
    service print and swallow it. */
module Register {
  import opened Wrappers

  /** Raised by the frontend's `delete_job` for an absent id. */
  datatype KeyError<K> = KeyError(key: K)

  /** `add_job`: store `job` under `key`, overwriting any previous entry. */
  function Add<K, V>(reg: map<K, V>, key: K, job: V): (r: map<K, V>)
    ensures r.Keys == reg.Keys + {key}
    ensures key in r && r[key] == job
    ensures forall k :: k in reg && k != key ==> r[k] == reg[k]
  {
    reg[key := job]
  }

  /** Every entry is stored under its own job's id, as `idOf` reads it. */
  predicate KeyedBy<K(!new), V>(reg: map<K, V>, idOf: V -> K) {
    forall id :: id in reg ==> idOf(reg[id]) == id
  }

  /** `add_job(job)` of every service: store `job` under its own id
      (`job.get_uuid()`), which keeps every entry under its own id. */
  function AddJob<K(!new), V>(reg: map<K, V>, job: V, idOf: V -> K): (r: map<K, V>)
    ensures Get(r, idOf(job)) == Some(job)
    ensures forall id :: id != idOf(job) ==> Get(r, id) == Get(reg, id)
    ensures KeyedBy(reg, idOf) ==> KeyedBy(r, idOf)
  {
    Add(reg, idOf(job), job)
  }

  /** `get_job`: the job stored under `key`, or `None`. */
  function Get<K, V>(reg: map<K, V>, key: K): (o: Option<V>)
    ensures o.Some? <==> key in reg
    ensures o.Some? ==> o.value == reg[key]
  {
    if key in reg then Some(reg[key]) else None
  }

  /** The llm, embedder and vector `delete_job`: remove `key` if present; an
      absent key is printed and otherwise ignored. */
  function DeleteQuietly<K, V>(reg: map<K, V>, key: K): (r: map<K, V>)
    ensures r.Keys == reg.Keys - {key}
    ensures forall k :: k in r ==> r[k] == reg[k]
    ensures key !in reg ==> r == reg
  {
    reg - {key}
  }

  /** The frontend `delete_job`: remove `key`, raising `KeyError` when it is
      absent (the register is then left as it was). */
  function DeleteOrRaise<K, V>(reg: map<K, V>, key: K): (r: Result<map<K, V>, KeyError<K>>)
    ensures r.Failure? <==> key !in reg
    ensures r.Failure? ==> r.error == KeyError(key)
    ensures r.Success? ==> r.value.Keys == reg.Keys - {key}
    ensures r.Success? ==> forall k :: k in r.value ==> r.value[k] == reg[k]
  {
    if key in reg then Success(reg - {key}) else Failure(KeyError(key))
  }

  /** Adding then getting the same id returns the job just added, whatever
      was stored under that id before. */
  lemma AddThenGet<K, V>(reg: map<K, V>, key: K, job: V)
    ensures Get(Add(reg, key, job), key) == Some(job)
  {
  }

  /** Adding under one id leaves every other id's lookup unchanged. */
  lemma AddKeepsOthers<K, V>(reg: map<K, V>, key: K, job: V, other: K)
    requires other != key
    ensures Get(Add(reg, key, job), other) == Get(reg, other)
  {
  }

  /** Re-adding an id overwrites: the second job wins and the first is gone. */
  lemma AddOverwrites<K, V>(reg: map<K, V>, key: K, first: V, second: V)
    ensures Add(Add(reg, key, first), key, second) == Add(reg, key, second)
  {
  }

  /** After either delete, the id is absent and every other id keeps its job. */
  lemma DeleteThenGet<K, V>(reg: map<K, V>, key: K, other: K)
    requires other != key
    ensures Get(DeleteQuietly(reg, key), key) == None
    ensures Get(DeleteQuietly(reg, key), other) == Get(reg, other)
    ensures DeleteOrRaise(reg, key).Success? ==>
              Get(DeleteOrRaise(reg, key).value, key) == None &&
              Get(DeleteOrRaise(reg, key).value, other) == Get(reg, other)
  {
  }

  /** The two deletes agree whenever the id is present; they differ only in
      what an absent id does (raise versus no-op). */
  lemma DeletesAgreeOnPresentKey<K, V>(reg: map<K, V>, key: K)
    ensures key in reg <==> DeleteOrRaise(reg, key) == Success(DeleteQuietly(reg, key))
  {
  }

  /** Deleting quietly twice is the same as deleting once. */
  lemma DeleteQuietlyIdempotent<K, V>(reg: map<K, V>, key: K)
    ensures DeleteQuietly(DeleteQuietly(reg, key), key) == DeleteQuietly(reg, key)
  {
  }

  /** Deleting a freshly added id restores the register, when that id was
      not present before. */
  lemma AddThenDelete<K, V>(reg: map<K, V>, key: K, job: V)
    requires key !in reg
    ensures DeleteQuietly(Add(reg, key, job), key) == reg
    ensures DeleteOrRaise(Add(reg, key, job), key) == Success(reg)
  {
  }
}
