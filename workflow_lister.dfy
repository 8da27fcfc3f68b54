/**
  The built-in registry of workflows, the newline-separated listing of their names,
  and the `in` test the `workflows config` and `generator` commands use to decide
  whether a name they were given is a workflow.
 */
module WorkflowLister {
  import opened Wrappers
  import opened Text

  /** A JSON value, as `json.load` returns it. */
  datatype Json =
    | JNull
    | JBool(b: bool)
    | JInt(i: int)
    | JString(s: string)
    | JArray(items: seq<Json>)
    | JObject(fields: map<string, Json>)

  /** One registry record. Keys every record has are plain fields; keys only some
      records have are options. */
  datatype Workflow = Workflow(
    fullName: string,                               // 'full_name'
    httpWorkflow: Option<map<string, Json>>,        // 'http_workflow'
    s3Workflows: Option<map<string, Json>>,         // 's3_workflows'
    containers: Option<Json>,                       // 'containers'
    s3Containers: Option<Json>,                     // 's3_containers'
    httpContainers: Option<Json>,                   // 'http_containers'
    amiId: string,                                  // 'ami_id'
    defaultIni: string,                             // 'default-ini'
    instanceType: string,                           // 'instance-type'
    lvmDevices: string)                             // 'lvm_devices'

  const BundleUrlPrefix := "https://s3.amazonaws.com/oicr.workflow.bundles/released-bundles/"
  const Lvm := "/dev/xvdb,/dev/xvdc,/dev/xvdd,/dev/xvde"
  const Ami := "ami-270cc34c"

  function Container(name: string, image: string): Json {
    JObject(map["name" := JString(name), "image_name" := JString(image)])
  }

  function HttpWorkflow(fullName: string, version: string): map<string, Json> {
    map["url" := JString(BundleUrlPrefix + fullName + ".zip"), "version" := JString(version)]
  }

  const Whitestar := Container("seqware_whitestar_pancancer", "pancancer/seqware_whitestar_pancancer:1.1.1")

  const HelloWorldFull := "Workflow_Bundle_HelloWorld_1.0-SNAPSHOT_SeqWare_1.1.1"
  const SangerFull := "Workflow_Bundle_SangerPancancerCgpCnIndelSnvStr_1.0.8_SeqWare_1.1.0"
  const BwaFull := "Workflow_Bundle_BWA_2.6.5_SeqWare_1.1.1"
  const DkfzEmblFull := "Workflow_Bundle_DEWrapperWorkflow_1.0.5_SeqWare_1.1.1"

  /** The registry's keys, in the order the dictionary iterates them. */
  const WorkflowOrder: seq<string> := ["HelloWorld", "Sanger", "BWA", "DKFZ_EMBL"]

  /** The registry: workflow name to record. */
  const Registry: map<string, Workflow> := map[
    "HelloWorld" := Workflow(
      HelloWorldFull, Some(HttpWorkflow(HelloWorldFull, "1.0-SNAPSHOT")), None,
      Some(JObject(map["seqware_whitestar_pancancer" := Whitestar])), None, None,
      Ami, "http://something.ini", "m1.xlarge", Lvm),
    "Sanger" := Workflow(
      SangerFull, Some(HttpWorkflow(SangerFull, "1.0.8")), None,
      Some(JObject(map["seqware_whitestar_pancancer" := Whitestar])), None, None,
      Ami,
      "https://raw.githubusercontent.com/ICGC-TCGA-PanCancer/SeqWare-CGP-SomaticCore/1.0.8/workflow/config/CgpCnIndelSnvStrWorkflow.ini",
      "m1.xlarge", Lvm),
    "BWA" := Workflow(
      BwaFull, Some(HttpWorkflow(BwaFull, "2.6.5")), None,
      Some(JObject(map["seqware_whitestar_pancancer" := Whitestar])), None, None,
      Ami,
      "https://raw.githubusercontent.com/ICGC-TCGA-PanCancer/Seqware-BWA-Workflow/2.6.5/workflow/config/workflow.ini",
      "m1.xlarge", Lvm),
    "DKFZ_EMBL" := Workflow(
      DkfzEmblFull, Some(HttpWorkflow(DkfzEmblFull, "1.0.5")), None,
      Some(JObject(map[
        "pcawg-delly-workflow" := Container("pcawg-delly-workflow", "pancancer/pcawg-delly-workflow:1.0"),
        "seqware_whitestar_pancancer" := Whitestar,
        "pancancer_upload_download" := Container("pancancer_upload_download", "pancancer/pancancer_upload_download:1.2")])),
      Some(JObject(map["dkfz_dockered_workflows" := JObject(map[
        "name" := JString("dkfz_dockered_workflows"),
        "url" := JString("s3://oicr.docker.private.images/dkfz_dockered_workflows_1.3.tar")])])),
      None,
      Ami,
      "https://raw.githubusercontent.com/ICGC-TCGA-PanCancer/DEWrapperWorkflow/1.0.6/workflow/config/DEWrapperWorkflow.ini",
      "m1.xlarge", Lvm)
  ]

  /** The iteration order lists every key of the registry exactly once. */
  lemma WorkflowOrderIsRegistryKeys()
    ensures forall i, j :: 0 <= i < j < |WorkflowOrder| ==> WorkflowOrder[i] != WorkflowOrder[j]
    ensures forall name :: name in Registry <==> name in WorkflowOrder
  {
  }

  /** `get_workflow_details`: the record of a name, None where the dictionary raises KeyError. */
  function GetWorkflowDetails(name: string): (r: Option<Workflow>)
    ensures r.Some? <==> name in WorkflowOrder
    ensures r.Some? ==> r.value == Registry[name]
  {
    WorkflowOrderIsRegistryKeys();
    if name in Registry then Some(Registry[name]) else None
  }

  // ----- The listing -----

  /** Each name followed by a newline, in order. */
  function NamesText(names: seq<string>): string {
    if names == [] then "" else names[0] + "\n" + NamesText(names[1..])
  }

  lemma {:induction false} NamesTextSnoc(names: seq<string>, name: string)
    ensures NamesText(names + [name]) == NamesText(names) + name + "\n"
  {
    if names != [] {
      assert (names + [name])[1..] == names[1..] + [name];
      NamesTextSnoc(names[1..], name);
    } else {
      assert [name][1..] == [];
    }
  }

  /** `get_workflow_names`: build the listing one key at a time. */
  method GetWorkflowNames() returns (keys: string)
    ensures keys == NamesText(WorkflowOrder)
    ensures Split(keys, '\n') == WorkflowOrder + [""]
  {
    keys := "";
    for i := 0 to |WorkflowOrder|
      invariant keys == NamesText(WorkflowOrder[..i])
    {
      NamesTextSnoc(WorkflowOrder[..i], WorkflowOrder[i]);
      assert WorkflowOrder[..i + 1] == WorkflowOrder[..i] + [WorkflowOrder[i]];
      keys := keys + WorkflowOrder[i] + "\n";
    }
    assert WorkflowOrder[..|WorkflowOrder|] == WorkflowOrder;
    NamesTextLines(WorkflowOrder);
  }

  /** Splitting the listing at its newlines gives the names back, then the empty field
      after the final newline, when no name holds a newline. */
  lemma {:induction false} NamesTextLines(names: seq<string>)
    requires forall i :: 0 <= i < |names| ==> '\n' !in names[i]
    ensures Split(NamesText(names), '\n') == names + [""]
  {
    if names != [] {
      var rest := NamesText(names[1..]);
      NamesTextLines(names[1..]);
      SplitAfterWord(names[0], "\n" + rest, '\n');
      assert names[0] + "\n" + rest == names[0] + ("\n" + rest);
      assert ("\n" + rest)[1..] == rest;
      assert Split("\n" + rest, '\n') == [""] + Split(rest, '\n');
      assert names[0] + "" == names[0];
      assert names == [names[0]] + names[1..];
    }
  }

  /** Every name, and with it every piece of a name, occurs in the listing. */
  lemma {:induction false} NamesTextContains(names: seq<string>, k: nat)
    requires k < |names|
    ensures IsSubstring(names[k], NamesText(names))
  {
    var rest := NamesText(names[1..]);
    assert NamesText(names) == names[0] + ("\n" + rest);
    if k == 0 {
      assert IsPrefix(names[0], NamesText(names));
    } else {
      NamesTextContains(names[1..], k - 1);
      SubstringOfSuffix(names[k], "\n", rest);
      SubstringOfSuffix(names[k], names[0], "\n" + rest);
    }
  }

  // ----- Membership -----

  /** The check as the commands write it, `name in get_workflow_names()`: a substring test
      on the listing. */
  predicate NameListed(name: string) {
    IsSubstring(name, NamesText(WorkflowOrder))
  }

  /** Every workflow name passes the check. */
  lemma WorkflowNamesListed(name: string)
    requires name in Registry
    ensures NameListed(name)
  {
    WorkflowOrderIsRegistryKeys();
    var k :| 0 <= k < |WorkflowOrder| && WorkflowOrder[k] == name;
    NamesTextContains(WorkflowOrder, k);
  }

  /** The check also passes names that are not workflows: a part of a name ("Hello"), the
      empty name, and two names joined by the newline. For each of them the lookup that
      follows finds no record. */
  lemma ListedButNotAWorkflow()
    ensures NameListed("Hello") && GetWorkflowDetails("Hello") == None
    ensures NameListed("") && GetWorkflowDetails("") == None
    ensures NameListed("BWA\nDKFZ") && GetWorkflowDetails("BWA\nDKFZ") == None
  {
    var listing := NamesText(WorkflowOrder);
    assert listing == "HelloWorld\nSanger\nBWA\nDKFZ_EMBL\n";
    assert IsPrefix("Hello", listing);
    assert IsPrefix("", listing);
    assert listing == "HelloWorld\nSanger\n" + "BWA\nDKFZ_EMBL\n";
    assert IsPrefix("BWA\nDKFZ", "BWA\nDKFZ_EMBL\n");
    SubstringOfSuffix("BWA\nDKFZ", "HelloWorld\nSanger\n", "BWA\nDKFZ_EMBL\n");
  }

  /** The check that is meant: the name is one of the listed lines, i.e. a key. */
  predicate IsWorkflowName(name: string) {
    name in Split(NamesText(WorkflowOrder), '\n') && name != ""
  }

  /** The intended check accepts exactly the registry's keys, and each of them also passes
      the check as written. */
  lemma IsWorkflowNameIffKey(name: string)
    ensures IsWorkflowName(name) <==> GetWorkflowDetails(name).Some?
    ensures IsWorkflowName(name) ==> NameListed(name)
  {
    assert forall i :: 0 <= i < |WorkflowOrder| ==> '\n' !in WorkflowOrder[i];
    NamesTextLines(WorkflowOrder);
    assert name in WorkflowOrder + [""] <==> name in WorkflowOrder || name == "";
    if IsWorkflowName(name) {
      WorkflowOrderIsRegistryKeys();
      WorkflowNamesListed(name);
    }
  }
}
