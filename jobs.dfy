/** The job lists the controller extracts from control-plane replies: the ids
    returned by a label query (post-start) and the non-local job ids running
    on a node (`get_jobs_by_sdcId`).

    Python raises when an entry does not have the shape the code indexes
    (`job['id']`, `job['localPipeline']`, `job['jobId']`) or when the reply
    cannot be iterated; the model reports that as None. */
module Jobs {
  import opened Outcomes
  import opened JsonModel

  /** What one entry of a label query contributes: its 'id'. */
  function IdEntry(job: Json): Option<seq<Json>>
  {
    if job.Obj? && "id" in job.fields then Some([job.fields["id"]]) else None
  }

  /** An entry of the node's pipeline list whose 'localPipeline' is the JSON
      value false (Python's `is False`). */
  predicate IsNonLocal(job: Json)
  {
    job.Obj? && "localPipeline" in job.fields && job.fields["localPipeline"] == Bool(false)
  }

  /** What one entry of the node's pipeline list contributes: its 'jobId' when
      it is non-local, nothing when it is local. */
  function NonLocalEntry(job: Json): Option<seq<Json>>
  {
    if !job.Obj? || "localPipeline" !in job.fields then None
    else if job.fields["localPipeline"] != Bool(false) then Some([])
    else if "jobId" in job.fields then Some([job.fields["jobId"]])
    else None
  }

  /** Visiting the entries in order and appending what each contributes, as
      the code's `for` loops do; None as soon as one entry would raise. */
  function Gather(items: seq<Json>, f: Json -> Option<seq<Json>>): Option<seq<Json>>
  {
    if items == [] then Some([])
    else
      match Gather(items[..|items| - 1], f)
      case None => None
      case Some(acc) =>
        match f(items[|items| - 1])
        case None => None
        case Some(c) => Some(acc + c)
  }

  /** The ids a label query's reply yields in post-start (`for job in response:
      jobIds.append(job['id'])`). Iterating an empty string or an empty object
      does nothing; any other value that is not an array raises. */
  function LabelJobIds(response: Json): Option<seq<Json>>
  {
    match response
    case Arr(items) => Gather(items, IdEntry)
    case Str(s) => if s == "" then Some([]) else None
    case Obj(m) => if |m| == 0 then Some([]) else None
    case _ => None
  }

  /** The non-local job ids of a node's pipeline list (`get_jobs_by_sdcId`):
      none for a falsy reply; for a truthy one only an array can be iterated
      without raising. */
  function NonLocalIds(response: Json): Option<seq<Json>>
  {
    if !Truthy(response) then Some([])
    else if response.Arr? then Gather(response.items, NonLocalEntry)
    else None
  }

  // An independent, front-to-back reading of Gather.

  predicate AllDefined(items: seq<Json>, f: Json -> Option<seq<Json>>)
  {
    forall i :: 0 <= i < |items| ==> f(items[i]).Some?
  }

  function Flatten(items: seq<Json>, f: Json -> Option<seq<Json>>): seq<Json>
    requires AllDefined(items, f)
  {
    if items == [] then [] else f(items[0]).value + Flatten(items[1..], f)
  }

  function Both(a: Option<seq<Json>>, b: Option<seq<Json>>): Option<seq<Json>>
  {
    if a.Some? && b.Some? then Some(a.value + b.value) else None
  }

  /** Gathering a concatenation gathers each part and concatenates, and fails
      when either part fails: each entry is handled on its own, in order. */
  lemma {:induction false} GatherAppend(a: seq<Json>, b: seq<Json>, f: Json -> Option<seq<Json>>)
    ensures Gather(a + b, f) == Both(Gather(a, f), Gather(b, f))
  {
    if b == [] {
      assert a + b == a;
      if Gather(a, f).Some? {
        assert Gather(a, f).value + [] == Gather(a, f).value;
      }
    } else {
      var b' := b[..|b| - 1];
      var last := b[|b| - 1];
      GatherAppend(a, b', f);
      assert (a + b)[..|a + b| - 1] == a + b';
      assert (a + b)[|a + b| - 1] == last;
      if Gather(a, f).Some? && Gather(b', f).Some? && f(last).Some? {
        var x, y, z := Gather(a, f).value, Gather(b', f).value, f(last).value;
        assert (x + y) + z == x + (y + z);
      }
    }
  }

  /** Gather succeeds exactly when every entry can be handled, and then yields
      the contributions of the entries in order. */
  lemma {:induction false} GatherIsFlatten(items: seq<Json>, f: Json -> Option<seq<Json>>)
    ensures Gather(items, f).Some? <==> AllDefined(items, f)
    ensures AllDefined(items, f) ==> Gather(items, f) == Some(Flatten(items, f))
  {
    if items != [] {
      GatherIsFlatten(items[1..], f);
      GatherAppend([items[0]], items[1..], f);
      assert [items[0]] + items[1..] == items;
      assert Gather([items[0]], f) == f(items[0]) by {
        assert [items[0]][..0] == [];
        if f(items[0]).Some? {
          assert [] + f(items[0]).value == f(items[0]).value;
        }
      }
      if AllDefined(items[1..], f) && f(items[0]).Some? {
        forall i | 0 <= i < |items| ensures f(items[i]).Some? {
          if i > 0 { assert items[i] == items[1..][i - 1]; }
        }
      }
      if AllDefined(items, f) {
        forall i | 0 <= i < |items[1..]| ensures f(items[1..][i]).Some? {
          assert items[1..][i] == items[i + 1];
        }
        assert f(items[0]).Some?;
      }
    }
  }

  /** Once a prefix would raise, the whole list raises. */
  lemma GatherFailsFromPrefix(items: seq<Json>, i: nat, f: Json -> Option<seq<Json>>)
    requires i <= |items|
    requires Gather(items[..i], f) == None
    ensures Gather(items, f) == None
  {
    GatherAppend(items[..i], items[i..], f);
    assert items[..i] + items[i..] == items;
  }

  /** Extending a prefix by one entry appends that entry's contribution. */
  lemma GatherStep(items: seq<Json>, i: nat, f: Json -> Option<seq<Json>>)
    requires i < |items|
    ensures Gather(items[..i + 1], f) == Both(Gather(items[..i], f), f(items[i]))
  {
    assert items[..i + 1][..i] == items[..i];
  }

  /** The non-local ids are exactly the 'jobId's of the entries whose
      'localPipeline' is false, each local entry contributing nothing. */
  lemma {:induction false} NonLocalMembers(items: seq<Json>)
    requires AllDefined(items, NonLocalEntry)
    ensures forall x :: x in Flatten(items, NonLocalEntry) <==>
              exists i :: 0 <= i < |items| && IsNonLocal(items[i]) && items[i].fields["jobId"] == x
  {
    if items != [] {
      assert AllDefined(items[1..], NonLocalEntry) by {
        forall i | 0 <= i < |items[1..]| ensures NonLocalEntry(items[1..][i]).Some? {
          assert items[1..][i] == items[i + 1];
        }
      }
      NonLocalMembers(items[1..]);
      forall x
        ensures x in Flatten(items, NonLocalEntry) <==>
                exists i :: 0 <= i < |items| && IsNonLocal(items[i]) && items[i].fields["jobId"] == x
      {
        if x in Flatten(items[1..], NonLocalEntry) {
          var i :| 0 <= i < |items[1..]| && IsNonLocal(items[1..][i]) && items[1..][i].fields["jobId"] == x;
          assert items[i + 1] == items[1..][i];
        }
        if exists i :: 0 <= i < |items| && IsNonLocal(items[i]) && items[i].fields["jobId"] == x {
          var i :| 0 <= i < |items| && IsNonLocal(items[i]) && items[i].fields["jobId"] == x;
          if i > 0 {
            assert items[1..][i - 1] == items[i];
          }
        }
      }
    }
  }

  /** A falsy reply (None, [], {}, "", 0, false) means no jobs; a pipeline
      list of local entries only means no jobs either. */
  lemma NoNonLocalJobs(response: Json)
    requires !Truthy(response) || (response.Arr? && AllLocal(response.items))
    ensures NonLocalIds(response) == Some([])
  {
    if Truthy(response) {
      GatherIsFlatten(response.items, NonLocalEntry);
      FlattenAllLocal(response.items);
    }
  }

  /** Every entry is a well-formed local pipeline. */
  predicate AllLocal(items: seq<Json>)
  {
    forall i :: 0 <= i < |items| ==>
      items[i].Obj? && "localPipeline" in items[i].fields && !IsNonLocal(items[i])
  }

  lemma {:induction false} FlattenAllLocal(items: seq<Json>)
    requires AllLocal(items)
    ensures AllDefined(items, NonLocalEntry) && Flatten(items, NonLocalEntry) == []
  {
    if items != [] {
      assert AllLocal(items[1..]) by {
        forall i | 0 <= i < |items[1..]|
          ensures items[1..][i].Obj? && "localPipeline" in items[1..][i].fields && !IsNonLocal(items[1..][i])
        {
          assert items[1..][i] == items[i + 1];
        }
      }
      FlattenAllLocal(items[1..]);
      forall i | 0 <= i < |items| ensures NonLocalEntry(items[i]).Some? {
        if i > 0 { assert items[i] == items[1..][i - 1]; }
      }
    }
  }

  /** `for job in response: jobIds.append(job['id'])` of post-start, applied to
      the ids collected so far. */
  method AppendLabelJobs(jobIds: seq<Json>, response: Json) returns (r: Option<seq<Json>>)
    ensures r == Both(Some(jobIds), LabelJobIds(response))
  {
    match response
    case Arr(items) =>
      var acc := jobIds;
      var i := 0;
      assert items[..0] == [];
      assert acc[|jobIds|..] == [];
      while i < |items|
        invariant 0 <= i <= |items|
        invariant |jobIds| <= |acc| && acc[..|jobIds|] == jobIds
        invariant Gather(items[..i], IdEntry) == Some(acc[|jobIds|..])
      {
        var job := items[i];
        GatherStep(items, i, IdEntry);
        if !job.Obj? || "id" !in job.fields {
          GatherFailsFromPrefix(items, i + 1, IdEntry);
          return None;
        }
        assert (acc + [job.fields["id"]])[|jobIds|..] == acc[|jobIds|..] + [job.fields["id"]];
        acc := acc + [job.fields["id"]];
        i := i + 1;
      }
      assert items[..i] == items;
      assert acc == jobIds + acc[|jobIds|..];
      r := Some(acc);
    case Str(s) =>
      assert jobIds + [] == jobIds;
      r := if s == "" then Some(jobIds) else None;
    case Obj(m) =>
      assert jobIds + [] == jobIds;
      r := if |m| == 0 then Some(jobIds) else None;
    case _ =>
      r := None;
  }

  /** The filtering loop of `get_jobs_by_sdcId`. */
  method CollectNonLocal(response: Json) returns (r: Option<seq<Json>>)
    ensures r == NonLocalIds(response)
  {
    var jobIds: seq<Json> := [];
    if Truthy(response) {
      if !response.Arr? {
        return None;
      }
      var items := response.items;
      var i := 0;
      assert items[..0] == [];
      while i < |items|
        invariant 0 <= i <= |items|
        invariant Gather(items[..i], NonLocalEntry) == Some(jobIds)
      {
        var job := items[i];
        GatherStep(items, i, NonLocalEntry);
        if !job.Obj? || "localPipeline" !in job.fields {
          GatherFailsFromPrefix(items, i + 1, NonLocalEntry);
          return None;
        }
        if job.fields["localPipeline"] == Bool(false) {
          if "jobId" !in job.fields {
            GatherFailsFromPrefix(items, i + 1, NonLocalEntry);
            return None;
          }
          jobIds := jobIds + [job.fields["jobId"]];
        } else {
          assert jobIds + [] == jobIds;
        }
        i := i + 1;
      }
      assert items[..i] == items;
    }
    r := Some(jobIds);
  }
}
