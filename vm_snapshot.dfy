/** Creating a snapshot of a managed VM and registering it as a custom image.

    The workflow looks the VM up in the key-value store, resolves the snapshot name,
    asks the provider layer to create an image of the VM, maps the provider's answer
    into a catalog record and hands that record to the image registrar. Every
    collaborator is an input here: the store's contents, the random name suffix, the
    provider's reply to a request and the registrar's reply to a record. The result
    also lists the calls made to the provider and the registrar, in order, so that
    which stages ran can be stated. */
module VmSnapshot {
  import opened Wrappers
  import opened McirTypes

  /** The provider layer's view of a VM, as far as the workflow reads it. */
  datatype SpiderVMInfo = SpiderVMInfo(iid: IID)

  /** A managed VM record, as far as the workflow reads it. */
  datatype TbVmInfo = TbVmInfo(name: string, connectionName: string, cspViewVmDetail: SpiderVMInfo)

  /** The store key of a VM: namespace, MCIS and VM identifiers. */
  datatype VmKey = VmKey(nsId: string, mcisId: string, vmId: string)

  /** The random part of a generated snapshot name: always five characters. */
  type RandomSuffix = s: string | |s| == 5 witness "aaaaa"

  /** What the HTTP call returns: its status code (0 when the call never got an
      answer), its raw body, and the image description decoded from it. */
  datatype HttpResponse = HttpResponse(statusCode: int, body: string, result: SpiderMyImageInfo)

  /** Everything the workflow gets from outside: the decoded VM records in the store,
      whether the store read itself fails, the suffix the name generator would
      produce, the provider's reply to each request and the registrar's reply to
      each (namespace, record) pair. */
  datatype Collaborators = Collaborators(
    store: map<VmKey, TbVmInfo>,
    storeFails: bool,
    suffix: RandomSuffix,
    postMyImage: SpiderMyImageReq -> HttpResponse,
    registerCustomImage: (string, TbCustomImageInfo) -> Result<TbCustomImageInfo>)

  /** A call the workflow makes to a collaborator that acts outside it. */
  datatype Call =
    | PostMyImage(req: SpiderMyImageReq)
    | RegisterCustomImage(nsId: string, info: TbCustomImageInfo)

  /** Why the workflow failed. */
  datatype SnapshotError =
    | VmNotFound(nsId: string, mcisId: string, vmId: string)
    | ProviderError(body: string)
    | RegistrationFailed(nsId: string, mcisId: string, vmId: string)

  /** The record and error the workflow returns, and the calls it made. */
  datatype Outcome = Outcome(info: TbCustomImageInfo, err: Option<SnapshotError>, calls: seq<Call>)

  /** The status codes the workflow treats as success: [200, 400). The source tests
      the complement, `>= 400 || < 200`, as failure; a transport failure leaves the
      code at 0, which never counts as success. */
  function IsSuccessStatus(code: int): (ok: bool)
    ensures ok <==> !(code >= 400 || code < 200)
    ensures code == 0 || code == 500 ==> !ok
  {
    200 <= code < 400
  }

  /** Whether the store yields no usable record for the key: either no record, or a
      read that reports an error even though a record came back. */
  function LookupFails(env: Collaborators, key: VmKey): (fails: bool)
    ensures !fails ==> key in env.store
    ensures env.storeFails ==> fails
  {
    env.storeFails || key !in env.store
  }

  /** A name given by the caller is used as is; an empty one becomes the VM's name,
      a dash and the random suffix. */
  function ResolveSnapshotName(snapshotName: string, vm: TbVmInfo, suffix: RandomSuffix): (name: string)
    ensures name != ""
    ensures snapshotName != "" ==> name == snapshotName
    ensures snapshotName == "" ==> |name| == |vm.name| + 6 && name[..|vm.name| + 1] == vm.name + "-"
    ensures snapshotName == "" ==> name[|vm.name| + 1..] == suffix
  {
    if snapshotName == "" then vm.name + "-" + suffix else snapshotName
  }

  /** The image-creation request for a VM: the VM's connection, the resolved name,
      and the VM's provider-side name as the machine to capture. */
  function SnapshotRequest(vm: TbVmInfo, name: string): (req: SpiderMyImageReq)
    ensures req.connectionName == vm.connectionName
    ensures req.reqInfo.name == name
    ensures req.reqInfo.sourceVM == vm.cspViewVmDetail.iid.nameId
  {
    SpiderMyImageReq(vm.connectionName, SpiderMyImageReqInfo(name, vm.cspViewVmDetail.iid.nameId))
  }

  /** The record handed to the registrar, before it assigns an id. */
  function CandidateImage(nsId: string, vmId: string, name: string, vm: TbVmInfo, image: SpiderMyImageInfo): (c: TbCustomImageInfo)
    ensures c.id == ""
    ensures c.namespace == nsId && c.name == name && c.sourceVmId == vmId
    ensures c.connectionName == vm.connectionName
    ensures c.cspCustomImageId == image.iid.systemId && c.cspCustomImageName == image.iid.nameId
    ensures c.creationDate == image.createdTime && c.status == image.status
    ensures c.keyValueList == image.keyValueList
    ensures c.associatedObjectList == [] && !c.isAutoGenerated
    ensures c.description == "" && c.guestOS == "" && c.systemLabel == ""
  {
    TbCustomImageInfo(
      namespace := nsId,
      id := "",
      name := name,
      connectionName := vm.connectionName,
      sourceVmId := vmId,
      cspCustomImageId := image.iid.systemId,
      cspCustomImageName := image.iid.nameId,
      description := "",
      creationDate := image.createdTime,
      guestOS := "",
      status := image.status,
      keyValueList := image.keyValueList,
      associatedObjectList := [],
      isAutoGenerated := false,
      systemLabel := "")
  }

  /** The workflow: lookup, name, request, provider call, record, registration. Each
      failure ends it at once with the zero record. */
  function CreateVmSnapshot(env: Collaborators, nsId: string, mcisId: string, vmId: string, snapshotName: string): (o: Outcome)
    ensures o.err.Some? ==> o.info == ZeroCustomImage
    ensures o.err.None? ==> |o.calls| == 2 && o.calls[1].RegisterCustomImage?
                            && env.registerCustomImage(o.calls[1].nsId, o.calls[1].info) == Success(o.info)
  {
    var key := VmKey(nsId, mcisId, vmId);
    if LookupFails(env, key) then
      Outcome(ZeroCustomImage, Some(VmNotFound(nsId, mcisId, vmId)), [])
    else
      var vm := env.store[key];
      var name := ResolveSnapshotName(snapshotName, vm, env.suffix);
      var req := SnapshotRequest(vm, name);
      var resp := env.postMyImage(req);
      if !IsSuccessStatus(resp.statusCode) then
        Outcome(ZeroCustomImage, Some(ProviderError(resp.body)), [PostMyImage(req)])
      else
        var candidate := CandidateImage(nsId, vmId, name, vm, resp.result);
        var calls := [PostMyImage(req), RegisterCustomImage(nsId, candidate)];
        match env.registerCustomImage(nsId, candidate)
        case Failure(_) => Outcome(ZeroCustomImage, Some(RegistrationFailed(nsId, mcisId, vmId)), calls)
        case Success(registered) => Outcome(registered, None, calls)
  }

  /** Two generated names for the same VM coincide exactly when their suffixes do. */
  lemma GeneratedNamesDistinct(vm: TbVmInfo, s1: RandomSuffix, s2: RandomSuffix)
    ensures ResolveSnapshotName("", vm, s1) == ResolveSnapshotName("", vm, s2) <==> s1 == s2
  {
  }

  /** A failed lookup, and only a failed lookup, ends the workflow before any call:
      no provider request, no registration, the zero record and a not-found error. */
  lemma LookupFailureMakesNoCall(env: Collaborators, nsId: string, mcisId: string, vmId: string, snapshotName: string)
    ensures var o := CreateVmSnapshot(env, nsId, mcisId, vmId, snapshotName);
            LookupFails(env, VmKey(nsId, mcisId, vmId))
            <==> (o.calls == [] && o.info == ZeroCustomImage && o.err == Some(VmNotFound(nsId, mcisId, vmId)))
  {
  }

  /** After a successful lookup the first call is the image request, built from the
      VM record: its connection, the resolved name (the caller's when non-empty),
      and the VM's provider-side name rather than its internal id. */
  lemma ProviderRequestFields(env: Collaborators, nsId: string, mcisId: string, vmId: string, snapshotName: string)
    requires !LookupFails(env, VmKey(nsId, mcisId, vmId))
    ensures var o := CreateVmSnapshot(env, nsId, mcisId, vmId, snapshotName);
            var vm := env.store[VmKey(nsId, mcisId, vmId)];
            && |o.calls| >= 1 && o.calls[0].PostMyImage?
            && o.calls[0].req.connectionName == vm.connectionName
            && o.calls[0].req.reqInfo.name == ResolveSnapshotName(snapshotName, vm, env.suffix)
            && (snapshotName != "" ==> o.calls[0].req.reqInfo.name == snapshotName)
            && o.calls[0].req.reqInfo.sourceVM == vm.cspViewVmDetail.iid.nameId
  {
  }

  /** A status outside [200, 400), including 0 from a transport failure, ends the
      workflow after the one provider call, with the zero record and the response
      body as the error; the registrar is not called. */
  lemma ProviderFailureSkipsRegistration(env: Collaborators, nsId: string, mcisId: string, vmId: string, snapshotName: string)
    requires !LookupFails(env, VmKey(nsId, mcisId, vmId))
    ensures var o := CreateVmSnapshot(env, nsId, mcisId, vmId, snapshotName);
            var resp := env.postMyImage(o.calls[0].req);
            && |o.calls| >= 1 && o.calls[0].PostMyImage?
            && (!IsSuccessStatus(resp.statusCode)
                <==> (o.calls == [o.calls[0]] && o.info == ZeroCustomImage && o.err == Some(ProviderError(resp.body))))
  {
  }

  /** On a status in [200, 400) the second call registers, under the namespace, a
      record built field by field from the request's name, the VM record, the
      internal VM id and the provider's image description, with no id yet. */
  lemma CandidateImageFields(env: Collaborators, nsId: string, mcisId: string, vmId: string, snapshotName: string)
    requires !LookupFails(env, VmKey(nsId, mcisId, vmId))
    requires IsSuccessStatus(env.postMyImage(CreateVmSnapshot(env, nsId, mcisId, vmId, snapshotName).calls[0].req).statusCode)
    ensures var o := CreateVmSnapshot(env, nsId, mcisId, vmId, snapshotName);
            var vm := env.store[VmKey(nsId, mcisId, vmId)];
            var image := env.postMyImage(o.calls[0].req).result;
            && |o.calls| == 2 && o.calls[1].RegisterCustomImage?
            && var c := o.calls[1].info;
            && o.calls[1].nsId == nsId
            && c.namespace == nsId && c.id == "" && c.name == o.calls[0].req.reqInfo.name
            && c.connectionName == vm.connectionName && c.sourceVmId == vmId
            && c.cspCustomImageId == image.iid.systemId && c.cspCustomImageName == image.iid.nameId
            && c.creationDate == image.createdTime && c.status == image.status
            && c.keyValueList == image.keyValueList
            && c.associatedObjectList == [] && !c.isAutoGenerated
            && c.description == "" && c.guestOS == "" && c.systemLabel == ""
  {
  }

  /** After the provider succeeded, a registrar failure yields the zero record and an
      error, and a registrar success yields exactly the registrar's record and no
      error. */
  lemma RegistrationDecidesResult(env: Collaborators, nsId: string, mcisId: string, vmId: string, snapshotName: string)
    requires !LookupFails(env, VmKey(nsId, mcisId, vmId))
    requires IsSuccessStatus(env.postMyImage(CreateVmSnapshot(env, nsId, mcisId, vmId, snapshotName).calls[0].req).statusCode)
    ensures var o := CreateVmSnapshot(env, nsId, mcisId, vmId, snapshotName);
            var reply := env.registerCustomImage(nsId, o.calls[1].info);
            && (reply.Failure? ==> o.info == ZeroCustomImage && o.err == Some(RegistrationFailed(nsId, mcisId, vmId)))
            && (reply.Success? ==> o.info == reply.value && o.err == None)
  {
  }

  /** The workflow succeeds exactly when every stage does: the lookup, the provider
      call and the registration. */
  lemma SuccessNeedsEveryStage(env: Collaborators, nsId: string, mcisId: string, vmId: string, snapshotName: string)
    ensures var o := CreateVmSnapshot(env, nsId, mcisId, vmId, snapshotName);
            o.err.None?
            <==> (&& !LookupFails(env, VmKey(nsId, mcisId, vmId))
                  && |o.calls| == 2 && o.calls[0].PostMyImage?
                  && IsSuccessStatus(env.postMyImage(o.calls[0].req).statusCode)
                  && env.registerCustomImage(nsId, o.calls[1].info).Success?)
  {
  }

  /** The two naming domains stay apart: the provider is told the VM's provider-side
      name, while the catalog record points back at the internal VM id. */
  lemma SourceVmIdentifiers(env: Collaborators, nsId: string, mcisId: string, vmId: string, snapshotName: string)
    ensures var o := CreateVmSnapshot(env, nsId, mcisId, vmId, snapshotName);
            && (|o.calls| >= 1 ==>
                  (&& o.calls[0].PostMyImage?
                   && VmKey(nsId, mcisId, vmId) in env.store
                   && o.calls[0].req.reqInfo.sourceVM == env.store[VmKey(nsId, mcisId, vmId)].cspViewVmDetail.iid.nameId))
            && (|o.calls| == 2 ==> o.calls[1].RegisterCustomImage? && o.calls[1].info.sourceVmId == vmId)
  {
  }

  /** A registrar that only fills in a non-empty id: on success it returns the record
      it was given with that id. */
  ghost predicate RegistrarAssignsId(register: (string, TbCustomImageInfo) -> Result<TbCustomImageInfo>)
  {
    forall ns, rec :: register(ns, rec).Success? ==>
      register(ns, rec).value == rec.(id := register(ns, rec).value.id) && register(ns, rec).value.id != ""
  }

  /** With such a registrar, a successful snapshot is a record of the requested
      namespace, with an id, that traces back to an existing VM and its connection. */
  lemma SuccessfulSnapshotIsTraceable(env: Collaborators, nsId: string, mcisId: string, vmId: string, snapshotName: string)
    requires RegistrarAssignsId(env.registerCustomImage)
    ensures var o := CreateVmSnapshot(env, nsId, mcisId, vmId, snapshotName);
            o.err.None? ==>
              && VmKey(nsId, mcisId, vmId) in env.store
              && o.info.sourceVmId == vmId && o.info.namespace == nsId && o.info.id != ""
              && o.info.connectionName == env.store[VmKey(nsId, mcisId, vmId)].connectionName
  {
  }

  /** A worked scenario: VM vm1 of group grp1 in namespace ns1, a caller-chosen name,
      a provider that answers 201 and a registrar that assigns an id. */
  lemma ScenarioNamedSnapshot()
    ensures var vm := TbVmInfo("web", "aws-ap-southeast-1", SpiderVMInfo(IID("i-0123", "i-0abc")));
            var image := SpiderMyImageInfo(IID("my-snap", "ami-999"), "2024-01-01T00:00:00Z", "available", []);
            var env := Collaborators(
              map[VmKey("ns1", "grp1", "vm1") := vm], false, "xxxxx",
              req => HttpResponse(201, "", image),
              (ns: string, rec: TbCustomImageInfo) => Success(rec.(id := "my-snap-id")));
            var o := CreateVmSnapshot(env, "ns1", "grp1", "vm1", "my-snap");
            && o.calls == [
                 PostMyImage(SpiderMyImageReq("aws-ap-southeast-1", SpiderMyImageReqInfo("my-snap", "i-0123"))),
                 RegisterCustomImage("ns1", o.info.(id := ""))]
            && o.err == None
            && o.info.namespace == "ns1" && o.info.name == "my-snap" && o.info.sourceVmId == "vm1"
            && o.info.cspCustomImageId == "ami-999" && o.info.status == "available"
            && o.info.id == "my-snap-id"
  {
  }
}
