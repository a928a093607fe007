/** aws/awsecs/client.go: tagging a resource, rolling a service onto a new
    image (describe the service, read its task definition, replace one
    container's image, register the result, point the service at it) and
    forcing a new deployment. The ECS API is given as functions; the
    methods also return the calls they made, in order, so that what is not
    called can be stated. */
module Ecs {
  import opened Wrappers
  import opened Text

  // ---------------------------------------------------------------- tags

  datatype Tag = Tag(key: string, value: string)

  datatype TagResourceInput = TagResourceInput(resourceArn: string, tags: seq<Tag>)

  /** Exactly one tag per entry of `tagmap`, carrying its key and value. */
  ghost predicate TagsFor(tagmap: map<string, string>, tags: seq<Tag>) {
    (forall i :: 0 <= i < |tags| ==> tags[i].key in tagmap && tags[i].value == tagmap[tags[i].key]) &&
    (forall i, j :: 0 <= i < j < |tags| ==> tags[i].key != tags[j].key) &&
    (forall k :: k in tagmap ==> exists i :: 0 <= i < |tags| && tags[i].key == k)
  }

  /** The map a list of tags describes, a later tag winning. */
  function TagMap(tags: seq<Tag>): map<string, string> {
    if tags == [] then map[]
    else TagMap(tags[..|tags| - 1])[tags[|tags| - 1].key := tags[|tags| - 1].value]
  }

  /** Dropping the last tag leaves the tags of the map without its key. */
  lemma TagsForFront(tagmap: map<string, string>, tags: seq<Tag>)
    requires TagsFor(tagmap, tags) && tags != []
    ensures var last := tags[|tags| - 1];
      last.key in tagmap && last.value == tagmap[last.key] &&
      TagsFor(tagmap - {last.key}, tags[..|tags| - 1])
  {
    var n := |tags| - 1;
    var last := tags[n];
    var rest := tagmap - {last.key};
    var front := tags[..n];
    forall k | k in rest
      ensures exists i :: 0 <= i < |front| && front[i].key == k
    {
      var i :| 0 <= i < |tags| && tags[i].key == k;
      assert front[i].key == k;
    }
  }

  lemma TagsForNone(tagmap: map<string, string>)
    requires TagsFor(tagmap, [])
    ensures tagmap == map[]
  {
  }

  /** A map is its entry for `key` put back into the rest. */
  lemma RemoveAndPut(tagmap: map<string, string>, key: string)
    requires key in tagmap
    ensures |tagmap| == |tagmap - {key}| + 1
    ensures tagmap == (tagmap - {key})[key := tagmap[key]]
  {
    assert tagmap.Keys == (tagmap - {key}).Keys + {key};
  }

  /** Tags made for a map describe that map again, one tag per entry. */
  lemma {:induction false} TagsForMap(tagmap: map<string, string>, tags: seq<Tag>)
    requires TagsFor(tagmap, tags)
    ensures |tags| == |tagmap|
    ensures TagMap(tags) == tagmap
    decreases |tags|
  {
    if tags == [] {
      TagsForNone(tagmap);
    } else {
      var last := tags[|tags| - 1];
      TagsForFront(tagmap, tags);
      TagsForMap(tagmap - {last.key}, tags[..|tags| - 1]);
      RemoveAndPut(tagmap, last.key);
    }
  }

  /** `TagResource`: one tag per map entry, in the map's order; the error
      is the one `tagResource` returns. */
  method TagResource(resource: string, tagmap: map<string, string>, tagResource: TagResourceInput -> Option<string>)
    returns (input: TagResourceInput, err: Option<string>)
    ensures input.resourceArn == resource && TagsFor(tagmap, input.tags)
    ensures err == tagResource(input)
  {
    var tags: seq<Tag> := [];
    var remaining := tagmap.Keys;
    while remaining != {}
      invariant remaining <= tagmap.Keys
      invariant forall i :: 0 <= i < |tags| ==> tags[i].key in tagmap && tags[i].key !in remaining && tags[i].value == tagmap[tags[i].key]
      invariant forall i, j :: 0 <= i < j < |tags| ==> tags[i].key != tags[j].key
      invariant forall k :: k in tagmap && k !in remaining ==> exists i :: 0 <= i < |tags| && tags[i].key == k
      decreases remaining
    {
      var k :| k in remaining;
      var before := tags;
      tags := tags + [Tag(k, tagmap[k])];
      assert tags[|before|].key == k;
      forall k' | k' in tagmap && k' !in remaining - {k}
        ensures exists i :: 0 <= i < |tags| && tags[i].key == k'
      {
        if k' != k {
          var i :| 0 <= i < |before| && before[i].key == k';
          assert tags[i].key == k';
        }
      }
      remaining := remaining - {k};
    }
    input := TagResourceInput(resource, tags);
    err := tagResource(input);
  }

  // ------------------------------------------------------------- services

  /** The `Include` list of `DescribeEcsService`: the service's tags. */
  const ServiceFieldTags: string := "TAGS"

  datatype DescribeServicesInput = DescribeServicesInput(services: seq<string>, includes: seq<string>, cluster: string)

  /** A described service: its name and the ARN of its task definition. */
  datatype Service = Service(serviceName: string, taskDefinition: string)

  datatype ContainerDefinition = ContainerDefinition(name: string, image: string)

  /** A described task definition: its own ARN and revision, which are not
      registered again, and the fields that are. The fields the model does
      not look into are kept as their text. */
  datatype TaskDefinition = TaskDefinition(
    taskDefinitionArn: string, revision: int,
    containerDefinitions: seq<ContainerDefinition>,
    family: string, cpu: string, ephemeralStorage: string, executionRoleArn: string,
    inferenceAccelerators: seq<string>, ipcMode: string, memory: string, networkMode: string,
    pidMode: string, placementConstraints: seq<string>, proxyConfiguration: string,
    requiresCompatibilities: seq<string>, runtimePlatform: string, taskRoleArn: string,
    volumes: seq<string>)

  /** The registration request; `tags` is never filled. */
  datatype RegisterTaskDefinitionInput = RegisterTaskDefinitionInput(
    containerDefinitions: seq<ContainerDefinition>,
    family: string, cpu: string, ephemeralStorage: string, executionRoleArn: string,
    inferenceAccelerators: seq<string>, ipcMode: string, memory: string, networkMode: string,
    pidMode: string, placementConstraints: seq<string>, proxyConfiguration: string,
    requiresCompatibilities: seq<string>, runtimePlatform: string, taskRoleArn: string,
    volumes: seq<string>, tags: seq<Tag>)

  /** `taskDefinition` is absent when only a new deployment is forced. */
  datatype UpdateServiceInput = UpdateServiceInput(taskDefinition: Option<string>, service: string, cluster: string,
                                                   forceNewDeployment: bool)

  /** The ECS API: `registerTaskDefinition` answers with the new ARN,
      `updateService` with the updated service. */
  datatype Api = Api(
    describeServices: DescribeServicesInput -> Result<seq<Service>, string>,
    describeTaskDefinition: string -> Result<TaskDefinition, string>,
    registerTaskDefinition: RegisterTaskDefinitionInput -> Result<string, string>,
    updateService: UpdateServiceInput -> Result<Service, string>)

  datatype ApiCall =
    | DescribeServicesCall(describe: DescribeServicesInput)
    | DescribeTaskDefinitionCall(arn: string)
    | RegisterTaskDefinitionCall(register: RegisterTaskDefinitionInput)
    | UpdateServiceCall(update: UpdateServiceInput)

  /** The error the API answers a call with, if any. */
  function CallError(api: Api, c: ApiCall): Option<string> {
    match c
    case DescribeServicesCall(input) =>
      var r := api.describeServices(input); if r.Failure? then Some(r.error) else None
    case DescribeTaskDefinitionCall(arn) =>
      var r := api.describeTaskDefinition(arn); if r.Failure? then Some(r.error) else None
    case RegisterTaskDefinitionCall(input) =>
      var r := api.registerTaskDefinition(input); if r.Failure? then Some(r.error) else None
    case UpdateServiceCall(input) =>
      var r := api.updateService(input); if r.Failure? then Some(r.error) else None
  }

  /** `UpdateEcsService`'s result: the updated service, an error, or the
      index panic of reading the first service of an empty description. */
  datatype Outcome = Updated(service: Service) | Failed(err: string) | IndexPanic

  datatype Run = Run(outcome: Outcome, calls: seq<ApiCall>)

  /** `DescribeEcsService`'s request: the one service, with its tags. */
  function DescribeEcsServiceInput(serviceName: string, cluster: string): DescribeServicesInput {
    DescribeServicesInput([serviceName], [ServiceFieldTags], cluster)
  }

  /** The error when no container's image contains the service name; the
      text names the new image. */
  function NoContainerMessage(image: string): string {
    "failed to find container definition with image that contains string " + image
  }

  /** The first container whose image contains `serviceName`, or -1. */
  function FirstContaining(defs: seq<ContainerDefinition>, serviceName: string): (r: int)
    ensures -1 <= r < |defs|
    ensures r >= 0 ==> Contains(defs[r].image, serviceName)
    ensures forall j :: 0 <= j < |defs| && (r < 0 || j < r) ==> !Contains(defs[j].image, serviceName)
    decreases |defs|
  {
    if defs == [] then -1
    else if Contains(defs[0].image, serviceName) then 0
    else
      var r := FirstContaining(defs[1..], serviceName);
      assert forall j :: 1 <= j < |defs| ==> defs[j] == defs[1..][j - 1];
      if r < 0 then -1 else r + 1
  }

  /** The search loop of `UpdateEcsService`, with its `break`. */
  method FindContainer(defs: seq<ContainerDefinition>, serviceName: string) returns (index: int)
    ensures index == FirstContaining(defs, serviceName)
  {
    index := -1;
    var i := 0;
    while i < |defs|
      invariant 0 <= i <= |defs|
      invariant forall j :: 0 <= j < i ==> !Contains(defs[j].image, serviceName)
    {
      if Contains(defs[i].image, serviceName) {
        index := i;
        break;
      }
      i := i + 1;
    }
  }

  /** The registration made from a task definition whose container
      `index` gets the new image. */
  function Registration(td: TaskDefinition, index: int, image: string): RegisterTaskDefinitionInput
    requires 0 <= index < |td.containerDefinitions|
  {
    var defs := td.containerDefinitions[index := td.containerDefinitions[index].(image := image)];
    RegisterTaskDefinitionInput(defs, td.family, td.cpu, td.ephemeralStorage, td.executionRoleArn,
      td.inferenceAccelerators, td.ipcMode, td.memory, td.networkMode, td.pidMode,
      td.placementConstraints, td.proxyConfiguration, td.requiresCompatibilities,
      td.runtimePlatform, td.taskRoleArn, td.volumes, [])
  }

  /** `reg` registers `td` again with the first container whose image
      contains `serviceName` moved to `image`: every other container and
      every listed field as they were, and no tags. */
  ghost predicate Registers(td: TaskDefinition, serviceName: string, image: string, reg: RegisterTaskDefinitionInput) {
    var defs := td.containerDefinitions;
    |reg.containerDefinitions| == |defs| &&
    (exists i :: 0 <= i < |defs| && Contains(defs[i].image, serviceName) &&
      (forall j :: 0 <= j < i ==> !Contains(defs[j].image, serviceName)) &&
      reg.containerDefinitions[i] == ContainerDefinition(defs[i].name, image) &&
      (forall j :: 0 <= j < |defs| && j != i ==> reg.containerDefinitions[j] == defs[j])) &&
    reg.family == td.family && reg.cpu == td.cpu && reg.ephemeralStorage == td.ephemeralStorage &&
    reg.executionRoleArn == td.executionRoleArn && reg.inferenceAccelerators == td.inferenceAccelerators &&
    reg.ipcMode == td.ipcMode && reg.memory == td.memory && reg.networkMode == td.networkMode &&
    reg.pidMode == td.pidMode && reg.placementConstraints == td.placementConstraints &&
    reg.proxyConfiguration == td.proxyConfiguration && reg.requiresCompatibilities == td.requiresCompatibilities &&
    reg.runtimePlatform == td.runtimePlatform && reg.taskRoleArn == td.taskRoleArn && reg.volumes == td.volumes &&
    reg.tags == []
  }

  /** What `UpdateEcsService` does against `api`. */
  function Rollout(api: Api, image: string, serviceName: string, cluster: string): Run {
    var describe := DescribeEcsServiceInput(serviceName, cluster);
    var described := api.describeServices(describe);
    if described.Failure? then Run(Failed(described.error), [DescribeServicesCall(describe)])
    else if |described.value| == 0 then Run(IndexPanic, [DescribeServicesCall(describe)])
    else
      var arn := described.value[0].taskDefinition;
      var calls := [DescribeServicesCall(describe), DescribeTaskDefinitionCall(arn)];
      var read := api.describeTaskDefinition(arn);
      if read.Failure? then Run(Failed(read.error), calls)
      else
        var index := FirstContaining(read.value.containerDefinitions, serviceName);
        if index < 0 then Run(Failed(NoContainerMessage(image)), calls)
        else
          var reg := Registration(read.value, index, image);
          var registered := api.registerTaskDefinition(reg);
          if registered.Failure? then Run(Failed(registered.error), calls + [RegisterTaskDefinitionCall(reg)])
          else
            var update := UpdateServiceInput(Some(registered.value), serviceName, cluster, false);
            var updated := api.updateService(update);
            Run(if updated.Failure? then Failed(updated.error) else Updated(updated.value),
                calls + [RegisterTaskDefinitionCall(reg), UpdateServiceCall(update)])
  }

  /** `UpdateEcsService`: each step's error is returned at once; the image
      is replaced in the described task definition before it is registered. */
  method UpdateEcsService(api: Api, image: string, serviceName: string, cluster: string)
    returns (outcome: Outcome, calls: seq<ApiCall>)
    ensures Run(outcome, calls) == Rollout(api, image, serviceName, cluster)
  {
    var describe := DescribeEcsServiceInput(serviceName, cluster);
    calls := [DescribeServicesCall(describe)];
    var serviceDescription := api.describeServices(describe);
    if serviceDescription.Failure? {
      return Failed(serviceDescription.error), calls;
    }
    if |serviceDescription.value| == 0 {
      return IndexPanic, calls;
    }
    var taskDefinitionArn := serviceDescription.value[0].taskDefinition;
    calls := calls + [DescribeTaskDefinitionCall(taskDefinitionArn)];
    var taskDefinition := api.describeTaskDefinition(taskDefinitionArn);
    if taskDefinition.Failure? {
      return Failed(taskDefinition.error), calls;
    }
    var td := taskDefinition.value;
    var index := FindContainer(td.containerDefinitions, serviceName);
    if index < 0 {
      return Failed(NoContainerMessage(image)), calls;
    }
    td := td.(containerDefinitions := td.containerDefinitions[index := td.containerDefinitions[index].(image := image)]);
    var reg := RegisterTaskDefinitionInput(td.containerDefinitions, td.family, td.cpu, td.ephemeralStorage,
      td.executionRoleArn, td.inferenceAccelerators, td.ipcMode, td.memory, td.networkMode, td.pidMode,
      td.placementConstraints, td.proxyConfiguration, td.requiresCompatibilities, td.runtimePlatform,
      td.taskRoleArn, td.volumes, []);
    calls := calls + [RegisterTaskDefinitionCall(reg)];
    var taskDefinitionOutput := api.registerTaskDefinition(reg);
    if taskDefinitionOutput.Failure? {
      return Failed(taskDefinitionOutput.error), calls;
    }
    var update := UpdateServiceInput(Some(taskDefinitionOutput.value), serviceName, cluster, false);
    calls := calls + [UpdateServiceCall(update)];
    var updateServiceOutput := api.updateService(update);
    if updateServiceOutput.Failure? {
      return Failed(updateServiceOutput.error), calls;
    }
    outcome := Updated(updateServiceOutput.value);
  }

  /** The calls of a rollout: the service is described first; every call
      but the last succeeded, so nothing is called after an error, and a
      failing last call's error is the outcome; only a rollout that made
      all four calls updates the service. */
  lemma RolloutCalls(api: Api, image: string, serviceName: string, cluster: string)
    ensures var r := Rollout(api, image, serviceName, cluster);
      1 <= |r.calls| <= 4 && r.calls[0] == DescribeServicesCall(DescribeEcsServiceInput(serviceName, cluster)) &&
      (forall k :: 0 <= k < |r.calls| - 1 ==> CallError(api, r.calls[k]).None?) &&
      (CallError(api, r.calls[|r.calls| - 1]).Some? ==> r.outcome == Failed(CallError(api, r.calls[|r.calls| - 1]).value)) &&
      (r.outcome.Updated? <==> |r.calls| == 4 && CallError(api, r.calls[3]).None?)
  {
  }

  /** The task definition read is the one of the first described service. */
  lemma RolloutReadsFirstService(api: Api, image: string, serviceName: string, cluster: string)
    ensures var r := Rollout(api, image, serviceName, cluster);
      var described := api.describeServices(DescribeEcsServiceInput(serviceName, cluster));
      |r.calls| >= 2 ==>
        (described.Success? && |described.value| > 0 &&
         r.calls[1] == DescribeTaskDefinitionCall(described.value[0].taskDefinition))
  {
  }

  /** What is registered: the task definition read, with the first
      container whose image contains the service name (not the new image)
      moved to the new image; and the service is pointed at the ARN the
      registration answered with, without forcing a deployment. */
  lemma RolloutRegisters(api: Api, image: string, serviceName: string, cluster: string)
    ensures var r := Rollout(api, image, serviceName, cluster);
      |r.calls| >= 3 ==>
        r.calls[1].DescribeTaskDefinitionCall? && api.describeTaskDefinition(r.calls[1].arn).Success? &&
        r.calls[2].RegisterTaskDefinitionCall? &&
        Registers(api.describeTaskDefinition(r.calls[1].arn).value, serviceName, image, r.calls[2].register)
    ensures var r := Rollout(api, image, serviceName, cluster);
      |r.calls| == 4 ==>
        r.calls[2].RegisterTaskDefinitionCall? && api.registerTaskDefinition(r.calls[2].register).Success? &&
        r.calls[3] == UpdateServiceCall(UpdateServiceInput(Some(api.registerTaskDefinition(r.calls[2].register).value),
                                                           serviceName, cluster, false))
  {
    var r := Rollout(api, image, serviceName, cluster);
    if |r.calls| >= 3 {
      var td := api.describeTaskDefinition(r.calls[1].arn).value;
      var i := FirstContaining(td.containerDefinitions, serviceName);
      assert r.calls[2].register == Registration(td, i, image);
    }
  }

  /** With no container whose image contains the service name, the
      rollout fails naming the new image and registers and updates
      nothing. */
  lemma RolloutWithoutMatch(api: Api, image: string, serviceName: string, cluster: string, td: TaskDefinition)
    requires var described := api.describeServices(DescribeEcsServiceInput(serviceName, cluster));
      described.Success? && |described.value| > 0 && api.describeTaskDefinition(described.value[0].taskDefinition) == Success(td)
    requires forall j :: 0 <= j < |td.containerDefinitions| ==> !Contains(td.containerDefinitions[j].image, serviceName)
    ensures var r := Rollout(api, image, serviceName, cluster);
      r.outcome == Failed(NoContainerMessage(image)) && |r.calls| == 2 &&
      forall c :: c in r.calls ==> !c.RegisterTaskDefinitionCall? && !c.UpdateServiceCall?
  {
  }

  /** `StopEcsService`: one update of the service that forces a new
      deployment and names no task definition. */
  function StopInput(name: string, clusterName: string): (u: UpdateServiceInput)
    ensures u.forceNewDeployment && u.taskDefinition.None? && u.service == name && u.cluster == clusterName
  {
    UpdateServiceInput(None, name, clusterName, true)
  }

  method StopEcsService(name: string, clusterName: string, updateService: UpdateServiceInput -> Result<Service, string>)
    returns (err: Option<string>, calls: seq<UpdateServiceInput>)
    ensures calls == [StopInput(name, clusterName)]
    ensures err.Some? <==> updateService(StopInput(name, clusterName)).Failure?
    ensures err.Some? ==> err.value == updateService(StopInput(name, clusterName)).error
  {
    var updateServiceInput := UpdateServiceInput(None, name, clusterName, true);
    calls := [updateServiceInput];
    var output := updateService(updateServiceInput);
    if output.Failure? {
      return Some(output.error), calls;
    }
    return None, calls;
  }
}
