/** `RoleToggle`, shared verbatim by the frontend, llm and embedder
    jobtools: it hands out the speaking role of successive chat turns, starting
    with the user. Only the frontend copy has `to_dict` / `from_dict`. */
module Roles {
  import opened Wrappers

  datatype RoleToggle = RoleToggle(user: string, assistant: string, acting: string)

  /** The constructor: the user acts first. */
  function NewToggle(user: string, assistant: string): (t: RoleToggle)
    ensures t.user == user && t.assistant == assistant
    ensures t.acting == user
  {
    RoleToggle(user, assistant, user)
  }

  /** The role `toggle` would move to from `acting`: the assistant after the
      user, the user after anything else. */
  function NextRole(t: RoleToggle): string {
    if t.acting == t.user then t.assistant else t.user
  }

  /** `toggle()`: returns the role acting before the call and flips it; the
      two role names are kept. */
  function Toggle(t: RoleToggle): (r: (string, RoleToggle))
    ensures r.0 == t.acting
    ensures r.1.user == t.user && r.1.assistant == t.assistant
    ensures t.acting == t.user ==> r.1.acting == t.assistant
    ensures t.acting != t.user ==> r.1.acting == t.user
  {
    (t.acting, t.(acting := NextRole(t)))
  }

  /** The roles returned by `n` successive `toggle()` calls, and the toggle
      after them. */
  function ToggleTimes(t: RoleToggle, n: nat): (r: (seq<string>, RoleToggle))
    ensures |r.0| == n
    decreases n
  {
    if n == 0 then ([], t)
    else
      var (role, t1) := Toggle(t);
      var (rest, t2) := ToggleTimes(t1, n - 1);
      ([role] + rest, t2)
  }

  /** A toggle whose acting role is one of its two names. */
  predicate WellFormed(t: RoleToggle) {
    t.acting == t.user || t.acting == t.assistant
  }

  /** From a well-formed toggle, successive calls alternate between the acting
      role and the other one, and end in the acting role after an even number
      of calls. */
  lemma {:induction false} ToggleTimesAlternates(t: RoleToggle, n: nat)
    requires WellFormed(t)
    ensures forall i :: 0 <= i < n ==>
              ToggleTimes(t, n).0[i] == (if i % 2 == 0 then t.acting else NextRole(t))
    ensures ToggleTimes(t, n).1.acting == (if n % 2 == 0 then t.acting else NextRole(t))
    ensures ToggleTimes(t, n).1.user == t.user && ToggleTimes(t, n).1.assistant == t.assistant
    decreases n
  {
    if n > 0 {
      var t1 := Toggle(t).1;
      assert WellFormed(t1);
      assert NextRole(t1) == t.acting;
      ToggleTimesAlternates(t1, n - 1);
      var roles := ToggleTimes(t, n).0;
      assert roles == [t.acting] + ToggleTimes(t1, n - 1).0;
      forall i | 0 <= i < n
        ensures roles[i] == (if i % 2 == 0 then t.acting else NextRole(t))
      {
        if i > 0 {
          assert roles[i] == ToggleTimes(t1, n - 1).0[i - 1];
        }
      }
    }
  }

  /** A fresh toggle yields user, assistant, user, ... — role `i` is the user
      exactly at even `i` (when the two names differ). */
  lemma FreshToggleAlternates(user: string, assistant: string, n: nat)
    ensures forall i :: 0 <= i < n ==>
              ToggleTimes(NewToggle(user, assistant), n).0[i] == (if i % 2 == 0 then user else assistant)
  {
    ToggleTimesAlternates(NewToggle(user, assistant), n);
  }

  /** Two calls return the acting role and then the other one, and restore
      the toggle. */
  lemma TwoTogglesRestore(t: RoleToggle)
    requires WellFormed(t)
    ensures Toggle(t).0 == t.acting
    ensures Toggle(Toggle(t).1).0 == NextRole(t)
    ensures Toggle(Toggle(t).1).1 == t
  {
  }

  /** `from_dict` reads a missing key as `KeyError`. */
  datatype MissingKey = MissingKey(key: string)

  /** `to_dict()`. */
  function ToDict(t: RoleToggle): (d: map<string, string>)
    ensures d.Keys == {"user", "assistant", "_acting"}
  {
    map["user" := t.user, "assistant" := t.assistant, "_acting" := t.acting]
  }

  /** `from_dict(data)`: the three keys are read in the order user, assistant,
      _acting; the first one missing raises `KeyError`. */
  function FromDict(d: map<string, string>): (r: Result<RoleToggle, MissingKey>)
    ensures r.Success? <==> "user" in d && "assistant" in d && "_acting" in d
    ensures r.Success? ==> r.value.user == d["user"] && r.value.assistant == d["assistant"]
                           && r.value.acting == d["_acting"]
  {
    if "user" !in d then Failure(MissingKey("user"))
    else if "assistant" !in d then Failure(MissingKey("assistant"))
    else if "_acting" !in d then Failure(MissingKey("_acting"))
    else Success(NewToggle(d["user"], d["assistant"]).(acting := d["_acting"]))
  }

  /** `from_dict(to_dict(t))` restores every field, `_acting` included. */
  lemma DictRoundTrip(t: RoleToggle)
    ensures FromDict(ToDict(t)) == Success(t)
  {
  }

  /** `to_dict(from_dict(d))` gives back the three keys `d` was read from. */
  lemma DictRoundTripBack(d: map<string, string>)
    requires FromDict(d).Success?
    ensures ToDict(FromDict(d).value) == map k | k in d && k in {"user", "assistant", "_acting"} :: d[k]
  {
  }
}
