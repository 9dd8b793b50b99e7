/** The milestone refresher (server/milestoneService.ts): when every
    milestone on the dashboard is completed, new ones are requested from the
    language model, checked for shape and written back.

    The dashboard read, the model call with its JSON parse, and the storage
    write are outcomes given as parameters. The payload the check reads is
    untyped in the source, so it is modelled loosely: a category may be
    missing or may lack a milestones array, and a milestone carries only the
    truthiness of its `completed` field. */
module MilestoneService {
  import opened Common
  import opened Schema
  import Storage

  /** What the completion check reads of one category object: its
      milestones array, if it has one, as the truthiness of each entry's
      `completed`. */
  datatype LooseCategory = LooseCategory(milestones: Option<seq<bool>>)

  /** The keys the check inspects, in order. */
  const CategoryKeys: seq<string> := ["defense", "manufacturing", "energy", "workforce", "techPolicy", "supplyChain"]

  /** The inspected keys are exactly the category keys. */
  lemma CategoryKeysAreTheSix()
    ensures |CategoryKeys| == |AllCategories|
    ensures forall i :: 0 <= i < |CategoryKeys| ==> CategoryKeys[i] == AllCategories[i].Key()
  {
  }

  /** The truthiness of each milestone's `completed`. */
  function Flags(ms: seq<Milestone>): (r: seq<bool>)
    ensures |r| == |ms| && forall j :: 0 <= j < |ms| ==> r[j] == ms[j].completed
  {
    seq(|ms|, j requires 0 <= j < |ms| => ms[j].completed)
  }

  /** The typed dashboard entries seen loosely: every category has its array. */
  function Loosen(entries: seq<(string, CategoryDetails)>): (r: map<string, LooseCategory>)
    ensures forall k :: k in r <==> exists i :: 0 <= i < |entries| && entries[i].0 == k
    decreases |entries|
  {
    if entries == [] then map[]
    else
      var (k, d) := entries[|entries| - 1];
      var r := Loosen(entries[..|entries| - 1]);
      if k in r then r else r[k := LooseCategory(Some(Flags(d.milestones)))]
  }

  /** Some inspected category has a milestone that is not completed. */
  predicate SomeIncomplete(details: map<string, LooseCategory>) {
    exists k, i :: k in CategoryKeys && k in details && details[k].milestones.Some?
      && 0 <= i < |details[k].milestones.value| && !details[k].milestones.value[i]
  }

  /** The reference reading of areAllMilestonesCompleted: the payload has
      category details and no inspected milestone is incomplete. */
  predicate AllCompleted(details: Option<map<string, LooseCategory>>) {
    details.Some? && !SomeIncomplete(details.value)
  }

  /** areAllMilestonesCompleted: the six keys in turn, skipping a missing
      category or one without an array, returning false at the first
      incomplete milestone. */
  method AreAllMilestonesCompleted(details: Option<map<string, LooseCategory>>) returns (r: bool)
    ensures r == AllCompleted(details)
  {
    if details.None? {
      return false;
    }
    var m := details.value;
    for c := 0 to |CategoryKeys|
      invariant forall k, i ::
        (k in CategoryKeys[..c] && k in m && m[k].milestones.Some? && 0 <= i < |m[k].milestones.value|)
        ==> m[k].milestones.value[i]
    {
      var key := CategoryKeys[c];
      if key !in m || m[key].milestones.None? {
        continue;
      }
      var flags := m[key].milestones.value;
      for i := 0 to |flags|
        invariant forall j :: 0 <= j < i ==> flags[j]
      {
        if !flags[i] {
          assert key in CategoryKeys;
          return false;
        }
      }
    }
    assert CategoryKeys[..|CategoryKeys|] == CategoryKeys;
    return true;
  }

  /** With no milestones anywhere the check holds vacuously. */
  lemma NoMilestonesMeansCompleted(details: map<string, LooseCategory>)
    requires forall k :: k in details ==> details[k].milestones.None? || details[k].milestones.value == []
    ensures AllCompleted(Some(details))
  {
  }

  /** Only the six keys matter: entries under any other key never change the outcome. */
  lemma OnlySixKeysInspected(a: map<string, LooseCategory>, b: map<string, LooseCategory>)
    requires forall k :: k in CategoryKeys ==> (k in a <==> k in b) && (k in a ==> a[k] == b[k])
    ensures AllCompleted(Some(a)) == AllCompleted(Some(b))
  {
    if SomeIncomplete(a) {
      var k, i :| k in CategoryKeys && k in a && a[k].milestones.Some?
        && 0 <= i < |a[k].milestones.value| && !a[k].milestones.value[i];
      assert k in b && b[k] == a[k];
    }
    if SomeIncomplete(b) {
      var k, i :| k in CategoryKeys && k in b && b[k].milestones.Some?
        && 0 <= i < |b[k].milestones.value| && !b[k].milestones.value[i];
      assert k in a && a[k] == b[k];
    }
  }

  /** With distinct keys, each listed key reads back its own milestones' flags. */
  lemma {:induction false} LoosenAt(entries: seq<(string, CategoryDetails)>)
    requires forall i, j :: 0 <= i < j < |entries| ==> entries[i].0 != entries[j].0
    ensures forall i :: 0 <= i < |entries| ==>
      Loosen(entries)[entries[i].0] == LooseCategory(Some(Flags(entries[i].1.milestones)))
    decreases |entries|
  {
    if entries != [] {
      var init, last := entries[..|entries| - 1], entries[|entries| - 1];
      LoosenAt(init);
      var r := Loosen(init);
      assert last.0 !in r by {
        forall i | 0 <= i < |init| ensures init[i].0 != last.0 {
          assert init[i] == entries[i];
        }
      }
      forall i | 0 <= i < |init| ensures init[i] == entries[i] && init[i].0 != last.0 {
        assert init[i] == entries[i];
      }
    }
  }

  /** For the typed dashboard payload the check means: every milestone of
      every category listed under one of the six keys is completed. */
  lemma TypedPayloadCompleted(entries: seq<(string, CategoryDetails)>)
    requires forall i, j :: 0 <= i < j < |entries| ==> entries[i].0 != entries[j].0
    ensures AllCompleted(Some(Loosen(entries))) <==>
      forall i, j :: 0 <= i < |entries| && entries[i].0 in CategoryKeys && 0 <= j < |entries[i].1.milestones|
        ==> entries[i].1.milestones[j].completed
  {
    var m := Loosen(entries);
    LoosenAt(entries);
    if SomeIncomplete(m) {
      var k, j :| k in CategoryKeys && k in m && m[k].milestones.Some?
        && 0 <= j < |m[k].milestones.value| && !m[k].milestones.value[j];
      var i :| 0 <= i < |entries| && entries[i].0 == k;
      assert !entries[i].1.milestones[j].completed;
    } else {
      forall i, j | 0 <= i < |entries| && entries[i].0 in CategoryKeys && 0 <= j < |entries[i].1.milestones|
        ensures entries[i].1.milestones[j].completed
      {
        var k := entries[i].0;
        assert m[k].milestones.value[j] == entries[i].1.milestones[j].completed;
      }
    }
  }

  // ---------------------------------------------------------------------
  // generateNewMilestones: the shape check of the model's reply

  /** The JSON values a reply can parse to. */
  datatype Json =
    | JNull
    | JBool(b: bool)
    | JNumber(n: int)
    | JString(s: string)
    | JArray(items: seq<Json>)
    | JObject(fields: map<string, Json>)

  /** The accepted shape: an object whose six keys each hold an array. */
  predicate WellShaped(v: Json) {
    v.JObject? && forall k :: k in CategoryKeys ==> k in v.fields && v.fields[k].JArray?
  }

  /** The validation loop: the first of the six keys that is missing or not
      an array rejects the reply (the source throws, and its handler returns
      null); a value that is not an object has no such keys. */
  method ValidateReply(v: Json) returns (r: Option<Json>)
    ensures r.Some? <==> WellShaped(v)
    ensures r.Some? ==> r.value == v
  {
    for c := 0 to |CategoryKeys|
      invariant v.JObject? || c == 0
      invariant v.JObject? ==> forall k :: k in CategoryKeys[..c] ==> k in v.fields && v.fields[k].JArray?
    {
      var key := CategoryKeys[c];
      if !v.JObject? || key !in v.fields || !v.fields[key].JArray? {
        return None;
      }
    }
    if !v.JObject? {
      return None;
    }
    assert CategoryKeys[..|CategoryKeys|] == CategoryKeys;
    return Some(v);
  }

  /** The outcome of the chat call: it failed, it came back without content,
      or it came back with content that parsed to a value (or did not parse). */
  datatype ChatOutcome = CallFailed | NoContent | Content(parsed: Option<Json>)

  /** generateNewMilestones: the validated reply, or null on any failure. */
  method GenerateNewMilestones(reply: ChatOutcome) returns (r: Option<Json>)
    ensures r.Some? <==> reply.Content? && reply.parsed.Some? && WellShaped(reply.parsed.value)
    ensures r.Some? ==> r.value == reply.parsed.value
  {
    if !reply.Content? || reply.parsed.None? {
      return None;
    }
    r := ValidateReply(reply.parsed.value);
  }

  // ---------------------------------------------------------------------
  // checkAndUpdateMilestones and forceUpdateMilestones

  /** The storage write of the new milestones: done, or thrown. */
  datatype WriteOutcome = Written | WriteFailed(message: string)

  /** What a refresh did: whether it asked the model, the value it handed
      to storage, and its answer. */
  datatype Refresh = Refresh(asked: bool, written: Option<Json>, updated: bool)

  /** The reply is usable: it parsed to a well-shaped value. */
  predicate Accepted(reply: ChatOutcome) {
    reply.Content? && reply.parsed.Some? && WellShaped(reply.parsed.value)
  }

  /** checkAndUpdateMilestones. `dashboard` is the payload read, or the
      error reading it threw; a thrown error anywhere answers false. */
  method CheckAndUpdateMilestones(hasClient: bool,
                                  dashboard: Result<Option<map<string, LooseCategory>>, string>,
                                  reply: ChatOutcome, write: WriteOutcome)
    returns (r: Refresh)
    ensures !hasClient ==> r == Refresh(false, None, false)
    ensures r.asked <==> hasClient && dashboard.Ok? && AllCompleted(dashboard.value)
    ensures r.written.Some? <==> r.asked && Accepted(reply)
    ensures r.written.Some? ==> r.written.value == reply.parsed.value && WellShaped(r.written.value)
    ensures r.updated <==> r.written.Some? && write.Written?
  {
    if !hasClient {
      return Refresh(false, None, false);
    }
    if dashboard.Err? {
      return Refresh(false, None, false);
    }
    var allCompleted := AreAllMilestonesCompleted(dashboard.value);
    if !allCompleted {
      return Refresh(false, None, false);
    }
    var generated := GenerateNewMilestones(reply);
    if generated.None? {
      return Refresh(true, None, false);
    }
    if write.WriteFailed? {
      return Refresh(true, generated, false);
    }
    return Refresh(true, generated, true);
  }

  /** forceUpdateMilestones: like the check but without the completion test;
      a missing client, a failed read and a failed write are thrown. */
  method ForceUpdateMilestones(hasClient: bool,
                               dashboard: Result<Option<map<string, LooseCategory>>, string>,
                               reply: ChatOutcome, write: WriteOutcome)
    returns (r: Result<Refresh, string>)
    ensures !hasClient ==> r == Err("OpenAI API key not available")
    ensures hasClient && dashboard.Err? ==> r == Err(dashboard.error)
    ensures hasClient && dashboard.Ok? && !Accepted(reply) ==> r == Ok(Refresh(true, None, false))
    ensures hasClient && dashboard.Ok? && Accepted(reply) ==>
      r == (if write.Written? then Ok(Refresh(true, Some(reply.parsed.value), true)) else Err(write.message))
  {
    if !hasClient {
      return Err("OpenAI API key not available");
    }
    if dashboard.Err? {
      return Err(dashboard.error);
    }
    var generated := GenerateNewMilestones(reply);
    if generated.None? {
      return Ok(Refresh(true, None, false));
    }
    if write.WriteFailed? {
      return Err(write.message);
    }
    return Ok(Refresh(true, generated, true));
  }

  /** What getADIndexData hands out has one entry per key, so the typed
      reading applies to it: the check holds exactly when every milestone of
      every category row under one of the six keys is completed. */
  lemma DashboardPayloadCompleted(cats: seq<Storage.CategoryRow>, ms: seq<Storage.MilestoneRow>)
    ensures var entries := Storage.CategoryObject(cats, ms);
      AllCompleted(Some(Loosen(entries))) <==>
        forall i, j :: 0 <= i < |entries| && entries[i].0 in CategoryKeys && 0 <= j < |entries[i].1.milestones|
          ==> entries[i].1.milestones[j].completed
  {
    Storage.CategoryObjectKeysDistinct(cats, ms);
    Storage.KeysUniquePairwise(Storage.CategoryObject(cats, ms));
    TypedPayloadCompleted(Storage.CategoryObject(cats, ms));
  }
}
