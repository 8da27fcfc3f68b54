/**
  The `generator` command's update of params.json: before new job orders are
  generated, the parameters are overwritten with the requested workflow's bundle,
  containers and devices.
 */
module Generator {
  import opened Wrappers
  import opened WorkflowLister

  /** The keys the merge may write; every other key is left as it was. */
  const MergeKeys: set<string> := {
    "http_workflows", "s3_workflows", "containers", "s3_containers",
    "http_containers", "lvm_device_whitelist", "workflow_name"}

  /** The single entry for the workflow: its record, with 'name' set to the full name. */
  function WorkflowEntry(workflowName: string, fullName: string, record: map<string, Json>): Json {
    JObject(map[workflowName := JObject(record["name" := JString(fullName)])])
  }

  function EntryFor(workflowName: string, fullName: string, record: Option<map<string, Json>>): Option<Json> {
    match record
    case None => None
    case Some(r) => Some(WorkflowEntry(workflowName, fullName, r))
  }

  /** The one-key map `{key: v}` when there is a value, the empty map otherwise. */
  function IfPresent(key: string, v: Option<Json>): map<string, Json> {
    if v.Some? then map[key := v.value] else map[]
  }

  /** Everything the merge writes, key by key. */
  function MergeUpdates(workflowName: string, w: Workflow): map<string, Json> {
    IfPresent("http_workflows", EntryFor(workflowName, w.fullName, w.httpWorkflow))
    + IfPresent("s3_workflows", EntryFor(workflowName, w.fullName, w.s3Workflows))
    + IfPresent("containers", w.containers)
    + IfPresent("s3_containers", w.s3Containers)
    + IfPresent("http_containers", w.httpContainers)
    + map["lvm_device_whitelist" := JString(w.lvmDevices)]
    + map["workflow_name" := JString(workflowName)]
  }

  lemma UnionAssoc(a: map<string, Json>, b: map<string, Json>, c: map<string, Json>)
    ensures (a + b) + c == a + (b + c)
  {
  }

  /** `if key in workflow_details: paramsData[key] = ...`: set `key` when the workflow
      supplies a value. */
  method CopyIfPresent(m: map<string, Json>, key: string, v: Option<Json>) returns (r: map<string, Json>)
    ensures r == m + IfPresent(key, v)
    ensures v.Some? ==> key in r && r[key] == v.value
    ensures v.None? ==> r == m
  {
    r := m;
    if v.Some? {
      r := r[key := v.value];
    }
  }

  /** Update `params` in place, key by key, from the workflow record. */
  method MergeWorkflowParams(params: map<string, Json>, workflowName: string, w: Workflow)
    returns (paramsData: map<string, Json>)
    ensures paramsData == params + MergeUpdates(workflowName, w)
  {
    var u1 := IfPresent("http_workflows", EntryFor(workflowName, w.fullName, w.httpWorkflow));
    var u2 := IfPresent("s3_workflows", EntryFor(workflowName, w.fullName, w.s3Workflows));
    var u3 := IfPresent("containers", w.containers);
    var u4 := IfPresent("s3_containers", w.s3Containers);
    var u5 := IfPresent("http_containers", w.httpContainers);
    var u6 := map["lvm_device_whitelist" := JString(w.lvmDevices)];
    var u7 := map["workflow_name" := JString(workflowName)];
    paramsData := CopyIfPresent(params, "http_workflows", EntryFor(workflowName, w.fullName, w.httpWorkflow));
    paramsData := CopyIfPresent(paramsData, "s3_workflows", EntryFor(workflowName, w.fullName, w.s3Workflows));
    UnionAssoc(params, u1, u2);
    paramsData := CopyIfPresent(paramsData, "containers", w.containers);
    UnionAssoc(params, u1 + u2, u3);
    paramsData := CopyIfPresent(paramsData, "s3_containers", w.s3Containers);
    UnionAssoc(params, u1 + u2 + u3, u4);
    paramsData := CopyIfPresent(paramsData, "http_containers", w.httpContainers);
    UnionAssoc(params, u1 + u2 + u3 + u4, u5);
    assert paramsData["lvm_device_whitelist" := JString(w.lvmDevices)] == paramsData + u6;
    paramsData := paramsData["lvm_device_whitelist" := JString(w.lvmDevices)];
    UnionAssoc(params, u1 + u2 + u3 + u4 + u5, u6);
    assert paramsData["workflow_name" := JString(workflowName)] == paramsData + u7;
    paramsData := paramsData["workflow_name" := JString(workflowName)];
    UnionAssoc(params, u1 + u2 + u3 + u4 + u5 + u6, u7);
  }

  /** The merge writes only the keys it names. */
  lemma MergeUpdatesKeys(workflowName: string, w: Workflow)
    ensures MergeUpdates(workflowName, w).Keys <= MergeKeys
    ensures "lvm_device_whitelist" in MergeUpdates(workflowName, w) && "workflow_name" in MergeUpdates(workflowName, w)
  {
  }

  /** After the merge, 'workflow_name' is the requested name, 'lvm_device_whitelist' the
      workflow's devices, and every key outside the merge's own is as it was. */
  lemma MergeSetsNameAndDevices(params: map<string, Json>, workflowName: string, w: Workflow)
    ensures var merged := params + MergeUpdates(workflowName, w);
            && "workflow_name" in merged && merged["workflow_name"] == JString(workflowName)
            && "lvm_device_whitelist" in merged && merged["lvm_device_whitelist"] == JString(w.lvmDevices)
            && (forall k :: k !in MergeKeys ==> (k in merged <==> k in params))
            && (forall k :: k in params && k !in MergeKeys ==> merged[k] == params[k])
  {
    MergeUpdatesKeys(workflowName, w);
    assert "lvm_device_whitelist" != "workflow_name";
  }

  /** What the merge writes under 'http_workflows': the workflow's entry, if it has a bundle. */
  lemma MergeUpdatesHttp(workflowName: string, w: Workflow)
    ensures var u := MergeUpdates(workflowName, w);
            && ("http_workflows" in u <==> w.httpWorkflow.Some?)
            && (w.httpWorkflow.Some? ==> u["http_workflows"] == WorkflowEntry(workflowName, w.fullName, w.httpWorkflow.value))
  {
    var u1 := IfPresent("http_workflows", EntryFor(workflowName, w.fullName, w.httpWorkflow));
    var u2 := IfPresent("s3_workflows", EntryFor(workflowName, w.fullName, w.s3Workflows));
    var u3 := IfPresent("containers", w.containers);
    var u4 := IfPresent("s3_containers", w.s3Containers);
    var u5 := IfPresent("http_containers", w.httpContainers);
    var u6 := map["lvm_device_whitelist" := JString(w.lvmDevices)];
    var u7 := map["workflow_name" := JString(workflowName)];
    assert "http_workflows" !in u2 && "http_workflows" !in u3 && "http_workflows" !in u4;
    assert "http_workflows" !in u5 && "http_workflows" !in u6 && "http_workflows" !in u7;
  }

  /** The entry has one key, the workflow's name, and its record is named by the full name. */
  lemma WorkflowEntryShape(workflowName: string, fullName: string, record: map<string, Json>)
    ensures var e := WorkflowEntry(workflowName, fullName, record);
            && e.fields.Keys == {workflowName}
            && e.fields[workflowName].JObject?
            && "name" in e.fields[workflowName].fields
            && e.fields[workflowName].fields["name"] == JString(fullName)
            && forall k :: k in record && k != "name" ==> e.fields[workflowName].fields[k] == record[k]
  {
  }

  /** With an http bundle, 'http_workflows' holds exactly one entry, under the workflow's
      name, whose 'name' is the full name; without one, the key is left as it was. */
  lemma MergeHttpWorkflows(params: map<string, Json>, workflowName: string, w: Workflow)
    ensures var merged := params + MergeUpdates(workflowName, w);
            if w.httpWorkflow.Some? then
              && "http_workflows" in merged
              && merged["http_workflows"].JObject?
              && merged["http_workflows"].fields.Keys == {workflowName}
              && merged["http_workflows"].fields[workflowName].JObject?
              && "name" in merged["http_workflows"].fields[workflowName].fields
              && merged["http_workflows"].fields[workflowName].fields["name"] == JString(w.fullName)
            else
              && ("http_workflows" in merged <==> "http_workflows" in params)
              && ("http_workflows" in params ==> merged["http_workflows"] == params["http_workflows"])
  {
    MergeUpdatesHttp(workflowName, w);
    if w.httpWorkflow.Some? {
      WorkflowEntryShape(workflowName, w.fullName, w.httpWorkflow.value);
    }
  }

  /** 'containers' and 's3_containers' are copied when the workflow has them, and left as
      they were when it has not. */
  lemma MergeContainers(params: map<string, Json>, workflowName: string, w: Workflow)
    ensures var merged := params + MergeUpdates(workflowName, w);
            && (w.containers.Some? ==> "containers" in merged && merged["containers"] == w.containers.value)
            && (w.containers.None? ==>
                  ("containers" in merged <==> "containers" in params)
                  && ("containers" in params ==> merged["containers"] == params["containers"]))
            && (w.s3Containers.Some? ==> "s3_containers" in merged && merged["s3_containers"] == w.s3Containers.value)
            && (w.s3Containers.None? ==>
                  ("s3_containers" in merged <==> "s3_containers" in params)
                  && ("s3_containers" in params ==> merged["s3_containers"] == params["s3_containers"]))
  {
    var after3 := IfPresent("s3_containers", w.s3Containers)
      + IfPresent("http_containers", w.httpContainers)
      + map["lvm_device_whitelist" := JString(w.lvmDevices)]
      + map["workflow_name" := JString(workflowName)];
    var after4 := IfPresent("http_containers", w.httpContainers)
      + map["lvm_device_whitelist" := JString(w.lvmDevices)]
      + map["workflow_name" := JString(workflowName)];
    assert "containers" !in after3;
    assert "s3_containers" !in after4;
  }

  /** Merging the same workflow a second time changes nothing. */
  lemma MergeIdempotent(params: map<string, Json>, workflowName: string, w: Workflow)
    ensures (params + MergeUpdates(workflowName, w)) + MergeUpdates(workflowName, w)
         == params + MergeUpdates(workflowName, w)
  {
    var u := MergeUpdates(workflowName, w);
    UnionAssoc(params, u, u);
    assert u + u == u;
  }

  datatype Outcome =
    | NotAWorkflow                            // the name failed the check: nothing is written
    | LookupFailed                            // the name passed the check but has no record: KeyError
    | Prepared(params: map<string, Json>)     // params.json as it is rewritten

  /** `Generator.take_action` up to the params.json rewrite, with the check as written:
      a name that passes the substring test but is not a key reaches the lookup and fails there. */
  method PrepareParamsAsWritten(workflowName: string, params: map<string, Json>) returns (outcome: Outcome)
    ensures outcome == NotAWorkflow <==> !NameListed(workflowName)
    ensures outcome == LookupFailed <==> NameListed(workflowName) && GetWorkflowDetails(workflowName).None?
    ensures outcome.Prepared? ==> outcome.params == params + MergeUpdates(workflowName, Registry[workflowName])
  {
    if !NameListed(workflowName) {
      outcome := NotAWorkflow;
    } else {
      var details := GetWorkflowDetails(workflowName);
      if details.None? {
        outcome := LookupFailed;
      } else {
        var merged := MergeWorkflowParams(params, workflowName, details.value);
        outcome := Prepared(merged);
      }
    }
  }

  /** The same with the intended check: a name is either refused or found, never both passed
      and missing. */
  method PrepareParams(workflowName: string, params: map<string, Json>) returns (outcome: Outcome)
    ensures outcome != LookupFailed
    ensures outcome == NotAWorkflow <==> workflowName !in Registry
    ensures outcome.Prepared? ==>
              && workflowName in Registry
              && outcome.params == params + MergeUpdates(workflowName, Registry[workflowName])
  {
    IsWorkflowNameIffKey(workflowName);
    if !IsWorkflowName(workflowName) {
      outcome := NotAWorkflow;
    } else {
      var details := GetWorkflowDetails(workflowName);
      var merged := MergeWorkflowParams(params, workflowName, details.value);
      outcome := Prepared(merged);
    }
  }
}
