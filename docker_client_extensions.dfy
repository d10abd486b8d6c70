/** The extension methods the library adds to the engine client: container
    creation with the library's conventions, start, stop-and-remove,
    listing, pruning of the containers it owns, copying files in, log
    retrieval and command execution. Each method that talks to the engine
    is specified by the plan of requests it works through; the plans and
    the values built for them are pure functions with lemmas of their own. */
module DockerClientExtensions {
  import opened Wrappers
  import opened Exceptions
  import E = Engine
  import Strings
  import CommandTokenizer
  import Options

  // ------------------------------------------------------------------
  // Container creation parameters

  /** The label every container created by the library carries. */
  const OwnerLabelKey := "dockert"
  const OwnerLabelValue := "container"

  datatype KeyValuePair<V> = KeyValuePair(key: string, value: V)

  /** `new Dictionary<string, V>(pairs)`, on top of the entries `acc`
      already added: the pairs are produced lazily and in order, and the
      first one that throws, or that repeats a key, ends construction with
      its exception. */
  function Dictionary<V>(pairs: seq<Result<KeyValuePair<V>, Exception>>, acc: map<string, V>): Result<map<string, V>, Exception>
  {
    if pairs == [] then Success(acc)
    else
      match pairs[0]
      case Failure(e) => Failure(e)
      case Success(kv) =>
        if kv.key in acc then Failure(DuplicateKeyException(kv.key))
        else Dictionary(pairs[1..], acc[kv.key := kv.value])
  }

  predicate AllProduced<V>(pairs: seq<Result<KeyValuePair<V>, Exception>>)
  {
    forall i :: 0 <= i < |pairs| ==> pairs[i].Success?
  }

  /** No two of the pairs that are produced share a key, nor with `acc`. */
  predicate DistinctKeys<V>(pairs: seq<Result<KeyValuePair<V>, Exception>>, acc: map<string, V>)
  {
    && (forall i, j :: 0 <= i < j < |pairs| && pairs[i].Success? && pairs[j].Success? ==>
          pairs[i].value.key != pairs[j].value.key)
    && (forall i :: 0 <= i < |pairs| && pairs[i].Success? ==> pairs[i].value.key !in acc)
  }

  /** The dictionary is built exactly when every pair is produced and no key
      repeats; it then maps each key to its pair's value and holds no other
      key. When every pair is produced the only failure is a repeated key;
      when no key repeats the failure is the exception of a pair. */
  lemma {:induction false} DictionarySpec<V>(pairs: seq<Result<KeyValuePair<V>, Exception>>, acc: map<string, V>)
    ensures var d := Dictionary(pairs, acc);
      && (d.Success? <==> AllProduced(pairs) && DistinctKeys(pairs, acc))
      && (d.Success? ==>
            && (forall k :: k in d.value <==> k in acc || exists i :: 0 <= i < |pairs| && pairs[i].value.key == k)
            && (forall k :: k in acc ==> d.value[k] == acc[k])
            && (forall i :: 0 <= i < |pairs| ==> d.value[pairs[i].value.key] == pairs[i].value.value))
      && (d.Failure? && AllProduced(pairs) ==> d.error.DuplicateKeyException?)
      && (d.Failure? && DistinctKeys(pairs, acc) ==>
            exists i :: 0 <= i < |pairs| && pairs[i].Failure? && pairs[i].error == d.error)
  {
    if pairs != [] {
      var rest := pairs[1..];
      assert forall i :: 1 <= i < |pairs| ==> rest[i - 1] == pairs[i];
      match pairs[0]
      case Failure(e) =>
      case Success(kv) =>
        if kv.key !in acc {
          DictionarySpec(rest, acc[kv.key := kv.value]);
        }
    }
  }

  /** The container port of a declaration: its first `:`-field. */
  function ContainerPort(declaration: string): string
  {
    Strings.Split(declaration, ':')[0]
  }

  /** The host port of a declaration: its second `:`-field. */
  function HostPort(declaration: string): string
    requires ':' in declaration
  {
    Strings.CountZero(declaration, ':');
    Strings.Split(declaration, ':')[1]
  }

  /** The pairs `ExposedPorts` is built from: a declaration always has a
      first field. */
  function ExposedPortPairs(declarations: seq<string>): seq<Result<KeyValuePair<E.EmptyStruct>, Exception>>
  {
    seq(|declarations|, i requires 0 <= i < |declarations| =>
      Success(KeyValuePair(ContainerPort(declarations[i]), E.EmptyStruct)))
  }

  /** The pair `PortBindings` builds from one declaration; a declaration
      without `:` has no second field and indexing it throws. */
  function PortBindingPair(declaration: string): Result<KeyValuePair<seq<E.PortBinding>>, Exception>
  {
    var parts := Strings.Split(declaration, ':');
    if |parts| < 2 then Failure(IndexOutOfRangeException)
    else Success(KeyValuePair(parts[0], [E.PortBinding(parts[1])]))
  }

  function PortBindingPairs(declarations: seq<string>): seq<Result<KeyValuePair<seq<E.PortBinding>>, Exception>>
  {
    seq(|declarations|, i requires 0 <= i < |declarations| => PortBindingPair(declarations[i]))
  }

  /** The entry point, tokenized when present. */
  function Entrypoint(entryPoint: Option<string>): Result<Option<seq<string>>, Exception>
  {
    match entryPoint
    case None => Success(None)
    case Some(command) =>
      match CommandTokenizer.Parse(command)
      case Success(tokens) => Success(Some(tokens))
      case Failure(e) => Failure(e)
  }

  /** The parameters of the create request, built in the order of the
      object initializer: the exposed ports, the port bindings, then the
      entry point. */
  function BuildParameters(options: Options.ContainerOptions): Result<E.CreateContainerParameters, Exception>
  {
    var exposedPorts :- Dictionary(ExposedPortPairs(options.portBindings), map[]);
    var portBindings :- Dictionary(PortBindingPairs(options.portBindings), map[]);
    var entrypoint :- Entrypoint(options.entryPoint);
    Success(E.CreateContainerParameters(
      options.imageName,
      options.environmentVariables,
      exposedPorts,
      E.HostConfig(portBindings),
      entrypoint,
      map[OwnerLabelKey := OwnerLabelValue]))
  }

  /** No two declarations name the same container port. */
  predicate DistinctContainerPorts(declarations: seq<string>)
  {
    forall i, j :: 0 <= i < j < |declarations| ==> ContainerPort(declarations[i]) != ContainerPort(declarations[j])
  }

  /** Every declaration names a host port. */
  predicate HostPortsGiven(declarations: seq<string>)
  {
    forall i :: 0 <= i < |declarations| ==> ':' in declarations[i]
  }

  lemma PortBindingPairSpec(declaration: string)
    ensures PortBindingPair(declaration).Success? <==> ':' in declaration
    ensures PortBindingPair(declaration).Failure? ==> PortBindingPair(declaration).error == IndexOutOfRangeException
    ensures ':' in declaration ==>
      PortBindingPair(declaration).value == KeyValuePair(ContainerPort(declaration), [E.PortBinding(HostPort(declaration))])
  {
    Strings.CountZero(declaration, ':');
  }

  /** The exposed-port map, built first: it fails exactly when two
      declarations name the same container port, and then with a repeated
      key; otherwise its keys are exactly the declared container ports. */
  lemma ExposedPortsSpec(declarations: seq<string>)
    ensures var exposed := Dictionary(ExposedPortPairs(declarations), map[]);
      && (exposed.Success? <==> DistinctContainerPorts(declarations))
      && (exposed.Failure? ==> exposed.error.DuplicateKeyException?)
      && (exposed.Success? ==>
            forall k :: k in exposed.value <==> exists i :: 0 <= i < |declarations| && ContainerPort(declarations[i]) == k)
  {
    var pairs := ExposedPortPairs(declarations);
    assert forall i :: 0 <= i < |declarations| ==>
      pairs[i].Success? && pairs[i].value.key == ContainerPort(declarations[i]);
    assert AllProduced(pairs);
    assert DistinctKeys(pairs, map[]) <==> DistinctContainerPorts(declarations);
    DictionarySpec(pairs, map[]);
  }

  /** The port-binding map, built once the container ports are known to be
      distinct: it fails exactly when a declaration names no host port, and
      then with an index error; otherwise its keys are exactly the declared
      container ports, each bound to the single host port its declaration
      names. */
  lemma PortBindingsSpec(declarations: seq<string>)
    requires DistinctContainerPorts(declarations)
    ensures var bindings := Dictionary(PortBindingPairs(declarations), map[]);
      && (bindings.Success? <==> HostPortsGiven(declarations))
      && (bindings.Failure? ==> bindings.error == IndexOutOfRangeException)
      && (bindings.Success? ==>
            && (forall k :: k in bindings.value <==> exists i :: 0 <= i < |declarations| && ContainerPort(declarations[i]) == k)
            && (forall i :: 0 <= i < |declarations| ==>
                  bindings.value[ContainerPort(declarations[i])] == [E.PortBinding(HostPort(declarations[i]))]))
  {
    var pairs := PortBindingPairs(declarations);
    forall i | 0 <= i < |declarations|
      ensures pairs[i].Success? <==> ':' in declarations[i]
      ensures pairs[i].Failure? ==> pairs[i].error == IndexOutOfRangeException
      ensures pairs[i].Success? ==> pairs[i].value.key == ContainerPort(declarations[i])
      ensures pairs[i].Success? ==> pairs[i].value.value == [E.PortBinding(HostPort(declarations[i]))]
    {
      PortBindingPairSpec(declarations[i]);
    }
    assert DistinctKeys(pairs, map[]);
    assert AllProduced(pairs) <==> HostPortsGiven(declarations);
    DictionarySpec(pairs, map[]);
  }

  /** When building the create request throws: a repeated container port
      is reported before a missing host port, and both before an
      unterminated quote in the entry point; nothing else throws. */
  lemma BuildParametersFailures(options: Options.ContainerOptions)
    ensures var built := BuildParameters(options);
      var ports := options.portBindings;
      && (!DistinctContainerPorts(ports) ==> built.Failure? && built.error.DuplicateKeyException?)
      && (DistinctContainerPorts(ports) && !HostPortsGiven(ports) ==> built == Failure(IndexOutOfRangeException))
      && (DistinctContainerPorts(ports) && HostPortsGiven(ports) && options.entryPoint.Some? &&
          CommandTokenizer.Parse(options.entryPoint.value).Failure? ==>
            built == Failure(ArgumentException(CommandTokenizer.UnmatchedQuotes)))
      && (built.Success? <==>
            DistinctContainerPorts(ports) && HostPortsGiven(ports) &&
            (options.entryPoint.Some? ==> CommandTokenizer.Parse(options.entryPoint.value).Success?))
  {
    var ports := options.portBindings;
    ExposedPortsSpec(ports);
    if DistinctContainerPorts(ports) {
      PortBindingsSpec(ports);
    }
    if options.entryPoint.Some? {
      CommandTokenizer.ParseSpec(options.entryPoint.value);
    }
  }

  /** What the create request carries: the image name and the environment
      pass through unchanged, the labels are exactly the ownership label,
      the entry point is absent exactly when none was given and is
      otherwise its tokenization, and the port maps are as
      `ExposedPortsSpec` and `PortBindingsSpec` say. */
  lemma BuildParametersSpec(options: Options.ContainerOptions)
    requires BuildParameters(options).Success?
    ensures var p := BuildParameters(options).value;
      var ports := options.portBindings;
      && DistinctContainerPorts(ports) && HostPortsGiven(ports)
      && p.image == options.imageName
      && p.env == options.environmentVariables
      && p.labels == map[OwnerLabelKey := OwnerLabelValue]
      && (p.entrypoint.None? <==> options.entryPoint.None?)
      && (options.entryPoint.Some? ==>
            p.entrypoint == Some(CommandTokenizer.Parse(options.entryPoint.value).value))
      && p.exposedPorts.Keys == p.hostConfig.portBindings.Keys
      && (forall k :: k in p.exposedPorts <==> exists i :: 0 <= i < |ports| && ContainerPort(ports[i]) == k)
      && (forall i :: 0 <= i < |ports| ==>
            p.hostConfig.portBindings[ContainerPort(ports[i])] == [E.PortBinding(HostPort(ports[i]))])
  {
    var ports := options.portBindings;
    ExposedPortsSpec(ports);
    BuildParametersFailures(options);
    PortBindingsSpec(ports);
  }

  /** The requests that make sure the image is present: the image list,
      then a pull only when no local image matches. */
  function ImagePlan(imageName: string, images: set<string>): seq<E.Request>
  {
    [E.ListImages(imageName)] + (if imageName in images then [] else [E.CreateImage(imageName)])
  }

  /** The requests of `CreateContainer`: the image requests, then the create
      request when its parameters can be built. */
  function CreatePlan(options: Options.ContainerOptions, images: set<string>, assignedId: string): seq<E.Request>
  {
    ImagePlan(options.imageName, images) +
      match BuildParameters(options)
      case Success(parameters) => [E.CreateContainer(parameters, assignedId)]
      case Failure(_) => []
  }

  /** The image is pulled exactly when it is not present; the create request
      comes last and only when the parameters can be built, so a malformed
      port declaration or entry point is reported after the image requests
      and before any container exists. */
  lemma CreatePlanSpec(options: Options.ContainerOptions, images: set<string>, assignedId: string)
    ensures var plan := CreatePlan(options, images, assignedId);
      && plan[0] == E.ListImages(options.imageName)
      && (E.CreateImage(options.imageName) in plan <==> options.imageName !in images)
      && (BuildParameters(options).Failure? ==> plan == ImagePlan(options.imageName, images))
      && (BuildParameters(options).Success? ==>
            plan[|plan| - 1] == E.CreateContainer(BuildParameters(options).value, assignedId))
      && forall r :: r in plan && r.CreateContainer? ==> r.parameters.labels == map[OwnerLabelKey := OwnerLabelValue]
  {
    if BuildParameters(options).Success? {
      BuildParametersSpec(options);
    }
  }

  /** The first part of `CreateContainer`: list the local images matching
      the name and pull the image when there are none. */
  method EnsureImage(client: E.Client, imageName: string) returns (o: Outcome<Exception>)
    modifies client
    ensures var plan := ImagePlan(imageName, old(client.world.images));
      && client.trace == old(client.trace) + E.Issued(plan, client.rejected)
      && client.world == E.Perform(old(client.world), plan, client.rejected)
      && client.open == old(client.open)
      && (o.Pass? <==> E.Accepted(plan, client.rejected))
      && (o.Fail? ==> o.error == DockerApiException)
  {
    ghost var w0 := client.world;
    ghost var plan := ImagePlan(imageName, w0.images);
    var response := client.ListImages(imageName);
    E.Extend(w0, [], E.ListImages(imageName), client.rejected);
    if response.Failure? {
      if |plan| == 2 {
        E.IssuedAppend([plan[0]], [plan[1]], client.rejected);
        E.PerformAppend(w0, [plan[0]], [plan[1]], client.rejected);
        assert plan == [plan[0]] + [plan[1]];
      }
      return Fail(DockerApiException);
    }
    if |response.value| == 0 {
      var ok := client.Send(E.CreateImage(imageName));
      E.Extend(w0, [E.ListImages(imageName)], E.CreateImage(imageName), client.rejected);
      if !ok {
        return Fail(DockerApiException);
      }
    }
    return Pass;
  }

  /** `CreateContainer`: returns the id the engine assigns (`assignedId`). */
  method CreateContainer(client: E.Client, options: Options.ContainerOptions, assignedId: string)
    returns (r: Result<string, Exception>)
    modifies client
    ensures var plan := CreatePlan(options, old(client.world.images), assignedId);
      && client.trace == old(client.trace) + E.Issued(plan, client.rejected)
      && client.world == E.Perform(old(client.world), plan, client.rejected)
      && client.open == old(client.open)
      && r == if !E.Accepted(plan, client.rejected) then Failure(DockerApiException)
              else match BuildParameters(options)
                   case Failure(e) => Failure(e)
                   case Success(_) => Success(assignedId)
  {
    ghost var w0 := client.world;
    ghost var imagePlan := ImagePlan(options.imageName, w0.images);
    ghost var plan := CreatePlan(options, w0.images, assignedId);
    var pulled := EnsureImage(client, options.imageName);
    var built := BuildParameters(options);
    if pulled.Fail? {
      E.IssuedAppend(imagePlan, plan[|imagePlan|..], client.rejected);
      E.PerformAppend(w0, imagePlan, plan[|imagePlan|..], client.rejected);
      E.AcceptedAppend(imagePlan, plan[|imagePlan|..], client.rejected);
      assert plan == imagePlan + plan[|imagePlan|..];
      return Failure(pulled.error);
    }
    if built.Failure? {
      assert plan == imagePlan;
      return Failure(built.error);
    }
    var request := E.CreateContainer(built.value, assignedId);
    var ok := client.Send(request);
    E.Extend(w0, imagePlan, request, client.rejected);
    assert plan == imagePlan + [request];
    if !ok {
      return Failure(DockerApiException);
    }
    return Success(assignedId);
  }

  /** `StartContainer`. */
  method StartContainer(client: E.Client, containerId: string) returns (o: Outcome<Exception>)
    modifies client
    ensures client.trace == old(client.trace) + [E.StartContainer(containerId)]
    ensures client.world == E.Perform(old(client.world), [E.StartContainer(containerId)], client.rejected)
    ensures client.open == old(client.open)
    ensures o.Pass? <==> E.StartContainer(containerId) !in client.rejected
    ensures o.Fail? ==> o.error == DockerApiException
  {
    var ok := client.Send(E.StartContainer(containerId));
    o := if ok then Pass else Fail(DockerApiException);
  }

  /** Stop with ten seconds before the kill, then a forced remove that also
      removes the container's volumes. */
  function StopAndRemovePlan(containerId: string): seq<E.Request>
  {
    [E.StopContainer(containerId, E.ContainerStopParameters(10)),
     E.RemoveContainer(containerId, E.ContainerRemoveParameters(true, true))]
  }

  /** The remove request is never sent when the stop request fails; when
      both are accepted the container is no longer listed. */
  lemma StopAndRemoveSpec(w: E.World, containerId: string, rejected: set<E.Request>)
    ensures var plan := StopAndRemovePlan(containerId);
      && E.Issued(plan, rejected) == (if plan[0] in rejected then [plan[0]] else plan)
      && (E.Accepted(plan, rejected) ==> containerId !in E.Ids(E.Perform(w, plan, rejected).containers))
  {
    var plan := StopAndRemovePlan(containerId);
    if plan[0] !in rejected {
      assert plan[1..] == [plan[1]];
      assert plan[1..][1..] == [];
      assert E.Issued([plan[1]], rejected) == [plan[1]];
      assert plan == [plan[0]] + [plan[1]];
      if plan[1] !in rejected {
        var stopped := E.Apply(w, plan[0]);
        assert E.Perform(w, plan, rejected) == E.Perform(stopped, [plan[1]], rejected);
        assert E.Perform(stopped, [plan[1]], rejected) == E.Apply(stopped, plan[1]);
      }
    }
  }

  /** `StopAndRemoveContainer`. */
  method StopAndRemoveContainer(client: E.Client, containerId: string) returns (o: Outcome<Exception>)
    modifies client
    ensures var plan := StopAndRemovePlan(containerId);
      && client.trace == old(client.trace) + E.Issued(plan, client.rejected)
      && client.world == E.Perform(old(client.world), plan, client.rejected)
      && client.open == old(client.open)
      && (o.Pass? <==> E.Accepted(plan, client.rejected))
      && (o.Fail? ==> o.error == DockerApiException)
  {
    ghost var w0 := client.world;
    var plan := StopAndRemovePlan(containerId);
    var ok := client.Send(plan[0]);
    E.Extend(w0, [], plan[0], client.rejected);
    if !ok {
      E.IssuedAppend([plan[0]], [plan[1]], client.rejected);
      E.PerformAppend(w0, [plan[0]], [plan[1]], client.rejected);
      assert plan == [plan[0]] + [plan[1]];
      return Fail(DockerApiException);
    }
    ok := client.Send(plan[1]);
    E.Extend(w0, [plan[0]], plan[1], client.rejected);
    assert plan == [plan[0]] + [plan[1]];
    return if ok then Pass else Fail(DockerApiException);
  }

  /** `ListAllContainers`: the ids of every container, running or not. */
  method ListAllContainers(client: E.Client) returns (r: Result<seq<string>, Exception>)
    modifies client
    ensures client.trace == old(client.trace) + [E.ListContainers(true)]
    ensures client.world == old(client.world) && client.open == old(client.open)
    ensures r == if E.ListContainers(true) in client.rejected then Failure(DockerApiException)
                 else Success(E.Ids(client.world.containers))
  {
    var response := client.ListContainers(true);
    if response.Failure? {
      return Failure(response.error);
    }
    return Success(E.Ids(response.value));
  }

  // ------------------------------------------------------------------
  // Pruning

  /** The container carries the library's ownership label. */
  predicate Owned(c: E.ContainerListResponse)
  {
    OwnerLabelKey in c.labels && c.labels[OwnerLabelKey] == OwnerLabelValue
  }

  /** The status text reads as running: exactly "Running", or starting with
      "Up ". */
  predicate LooksRunning(status: string)
  {
    status == "Running" || Strings.StartsWith(status, "Up ")
  }

  /** The selection rule of `PruneContainers`. */
  predicate Prunable(c: E.ContainerListResponse, includeRunning: bool)
  {
    Owned(c) && (includeRunning || !LooksRunning(c.status))
  }

  /** The listed containers that pruning removes, in listing order. */
  function PruneSelection(cs: seq<E.ContainerListResponse>, includeRunning: bool): seq<E.ContainerListResponse>
  {
    if cs == [] then []
    else if Prunable(cs[0], includeRunning) then [cs[0]] + PruneSelection(cs[1..], includeRunning)
    else PruneSelection(cs[1..], includeRunning)
  }

  /** `xs` is `ys` with some elements left out, the rest in order. */
  predicate Subsequence<T(==)>(xs: seq<T>, ys: seq<T>)
    decreases |ys|
  {
    if xs == [] then true
    else if ys == [] then false
    else if xs[0] == ys[0] then Subsequence(xs[1..], ys[1..])
    else Subsequence(xs, ys[1..])
  }

  /** A container is selected exactly when it is listed and the rule picks
      it; the selection keeps listing order. */
  lemma {:induction false} PruneSelectionSpec(cs: seq<E.ContainerListResponse>, includeRunning: bool)
    ensures forall c :: c in PruneSelection(cs, includeRunning) <==> c in cs && Prunable(c, includeRunning)
    ensures Subsequence(PruneSelection(cs, includeRunning), cs)
  {
    if cs != [] {
      PruneSelectionSpec(cs[1..], includeRunning);
      assert cs == [cs[0]] + cs[1..];
      var rest := PruneSelection(cs[1..], includeRunning);
      if !Prunable(cs[0], includeRunning) && rest != [] {
        assert rest[0] in rest;
      }
    }
  }

  /** Without `includeRunning` the selection is the selection with it, less
      some containers, in the same order. */
  lemma {:induction false} PruneSelectionMonotone(cs: seq<E.ContainerListResponse>)
    ensures Subsequence(PruneSelection(cs, false), PruneSelection(cs, true))
    ensures forall c :: c in PruneSelection(cs, false) ==> c in PruneSelection(cs, true)
  {
    PruneSelectionSpec(cs, false);
    PruneSelectionSpec(cs, true);
    if cs != [] {
      PruneSelectionMonotone(cs[1..]);
      var rest := PruneSelection(cs[1..], false);
      if Prunable(cs[0], true) && !Prunable(cs[0], false) && rest != [] {
        PruneSelectionSpec(cs[1..], false);
        assert rest[0] in rest;
      }
    }
  }

  /** The requests pruning sends for the selected containers: each in turn
      is stopped and removed. */
  function RemovalPlan(ids: seq<string>): seq<E.Request>
  {
    if ids == [] then []
    else RemovalPlan(ids[..|ids| - 1]) + StopAndRemovePlan(ids[|ids| - 1])
  }

  /** The `k`-th selected container is stopped at position `2k` of the plan
      and removed right after. */
  lemma {:induction false} RemovalPlanShape(ids: seq<string>)
    ensures |RemovalPlan(ids)| == 2 * |ids|
    ensures forall k :: 0 <= k < |ids| ==>
      RemovalPlan(ids)[2 * k] == E.StopContainer(ids[k], E.ContainerStopParameters(10)) &&
      RemovalPlan(ids)[2 * k + 1] == E.RemoveContainer(ids[k], E.ContainerRemoveParameters(true, true))
  {
    if ids != [] {
      var init := ids[..|ids| - 1];
      RemovalPlanShape(init);
      assert forall k :: 0 <= k < |init| ==> ids[k] == init[k];
    }
  }


  /** Request `j` of the removal plan stops or removes container `j / 2`. */
  lemma RemovalPlanNames(ids: seq<string>, j: nat)
    requires j < 2 * |ids|
    ensures j < |RemovalPlan(ids)|
    ensures RemovalPlan(ids)[j].StopContainer? || RemovalPlan(ids)[j].RemoveContainer?
    ensures RemovalPlan(ids)[j].id == ids[j / 2]
  {
    RemovalPlanShape(ids);
    var k := j / 2;
    assert j == 2 * k || j == 2 * k + 1;
  }

  /** The request stops or removes a listed container that carries the
      ownership label and is running only if `includeRunning`. */
  predicate RemovesSelected(r: E.Request, cs: seq<E.ContainerListResponse>, includeRunning: bool)
  {
    (r.StopContainer? || r.RemoveContainer?) &&
    exists c :: c in cs && c.id == r.id && Owned(c) && (includeRunning || !LooksRunning(c.status))
  }

  /** Pruning stops and removes only selected containers: the plan starts
      with the listing, and every request after it stops or removes a
      listed container that carries the ownership label and is running only
      if `includeRunning`. */
  lemma PrunePlanSpec(cs: seq<E.ContainerListResponse>, includeRunning: bool)
    ensures PrunePlan([], includeRunning) == [E.ListContainers(true)]
    ensures var plan := PrunePlan(cs, includeRunning);
      && plan[0] == E.ListContainers(true)
      && forall i :: 1 <= i < |plan| ==> RemovesSelected(plan[i], cs, includeRunning)
  {
    var selection := PruneSelection(cs, includeRunning);
    var ids := E.Ids(selection);
    var plan := PrunePlan(cs, includeRunning);
    if cs != [] {
      assert plan == [E.ListContainers(true)] + RemovalPlan(ids);
      assert |RemovalPlan(ids)| == 2 * |ids| by {
        RemovalPlanShape(ids);
      }
      forall i | 1 <= i < |plan|
        ensures RemovesSelected(plan[i], cs, includeRunning)
      {
        RemovalPlanNames(ids, i - 1);
        var c := selection[(i - 1) / 2];
        assert plan[i] == RemovalPlan(ids)[i - 1];
        assert c.id == plan[i].id;
        assert c in cs && Prunable(c, includeRunning) by {
          assert c in selection;
          PruneSelectionSpec(cs, includeRunning);
        }
        assert c in cs && c.id == plan[i].id && Owned(c) && (includeRunning || !LooksRunning(c.status));
      }
    }
  }

  /** Stops and removes the given containers in order, giving up at the
      first failure. */
  method RemoveContainers(client: E.Client, ids: seq<string>) returns (o: Outcome<Exception>)
    modifies client
    ensures client.trace == old(client.trace) + E.Issued(RemovalPlan(ids), client.rejected)
    ensures client.world == E.Perform(old(client.world), RemovalPlan(ids), client.rejected)
    ensures client.open == old(client.open)
    ensures o.Pass? <==> E.Accepted(RemovalPlan(ids), client.rejected)
    ensures o.Fail? ==> o.error == DockerApiException
  {
    ghost var w0, t0 := client.world, client.trace;
    for i := 0 to |ids|
      invariant client.trace == t0 + RemovalPlan(ids[..i])
      invariant E.Accepted(RemovalPlan(ids[..i]), client.rejected)
      invariant client.world == E.Perform(w0, RemovalPlan(ids[..i]), client.rejected)
      invariant client.open == old(client.open)
    {
      ghost var done := RemovalPlan(ids[..i]);
      ghost var step := StopAndRemovePlan(ids[i]);
      var removed := StopAndRemoveContainer(client, ids[i]);
      RemovalPlanStep(ids, i);
      E.Advance(w0, t0, done, step, RemovalPlan(ids[i + 1..]), client.rejected);
      if removed.Fail? {
        return Fail(DockerApiException);
      }
    }
    assert ids[..|ids|] == ids;
    E.IssuedAll(RemovalPlan(ids), client.rejected);
    return Pass;
  }

  /** The requests of `PruneContainers` after the listing. */
  function PruneRemovals(cs: seq<E.ContainerListResponse>, includeRunning: bool): seq<E.Request>
  {
    if cs == [] then [] else RemovalPlan(E.Ids(PruneSelection(cs, includeRunning)))
  }

  /** The requests of `PruneContainers`: the listing, then the removals
      (none at all when nothing is listed). */
  function PrunePlan(cs: seq<E.ContainerListResponse>, includeRunning: bool): seq<E.Request>
  {
    [E.ListContainers(true)] + PruneRemovals(cs, includeRunning)
  }

  /** `PruneContainers`: lists every container and stops and removes the
      selected ones in listing order, giving up at the first failure. */
  method PruneContainers(client: E.Client, includeRunning: bool) returns (o: Outcome<Exception>)
    modifies client
    ensures var plan := PrunePlan(old(client.world.containers), includeRunning);
      && client.trace == old(client.trace) + E.Issued(plan, client.rejected)
      && client.world == E.Perform(old(client.world), plan, client.rejected)
      && client.open == old(client.open)
      && (o.Pass? <==> E.Accepted(plan, client.rejected))
      && (o.Fail? ==> o.error == DockerApiException)
  {
    ghost var w0 := client.world;
    var list := E.ListContainers(true);
    ghost var rest := PruneRemovals(w0.containers, includeRunning);
    assert PrunePlan(w0.containers, includeRunning) == [list] + rest;
    E.QueryFirst(w0, list, rest, client.rejected);
    var response := client.ListContainers(true);
    if response.Failure? {
      return Fail(DockerApiException);
    }
    o := RemoveSelected(client, response.value, includeRunning);
  }

  /** The part of `PruneContainers` after the listing. */
  method RemoveSelected(client: E.Client, containers: seq<E.ContainerListResponse>, includeRunning: bool)
    returns (o: Outcome<Exception>)
    modifies client
    ensures var plan := PruneRemovals(containers, includeRunning);
      && client.trace == old(client.trace) + E.Issued(plan, client.rejected)
      && client.world == E.Perform(old(client.world), plan, client.rejected)
      && client.open == old(client.open)
      && (o.Pass? <==> E.Accepted(plan, client.rejected))
      && (o.Fail? ==> o.error == DockerApiException)
  {
    if |containers| == 0 {
      return Pass;
    }
    o := RemoveContainers(client, E.Ids(PruneSelection(containers, includeRunning)));
  }

  /** The plan for the first `i + 1` containers extends the one for the
      first `i`, and the rest of the plan is untouched by either. */
  lemma RemovalPlanStep(ids: seq<string>, i: nat)
    requires i < |ids|
    ensures RemovalPlan(ids[..i + 1]) == RemovalPlan(ids[..i]) + StopAndRemovePlan(ids[i])
    ensures RemovalPlan(ids) == RemovalPlan(ids[..i]) + StopAndRemovePlan(ids[i]) + RemovalPlan(ids[i + 1..])
  {
    assert ids[..i + 1][..i] == ids[..i];
    RemovalPlanSplit(ids, i + 1);
  }

  lemma {:induction false} RemovalPlanSplit(ids: seq<string>, i: nat)
    requires i <= |ids|
    ensures RemovalPlan(ids) == RemovalPlan(ids[..i]) + RemovalPlan(ids[i..])
    decreases |ids|
  {
    if i < |ids| {
      var init := ids[..|ids| - 1];
      RemovalPlanSplit(init, i);
      assert init[..i] == ids[..i];
      assert ids[i..] == init[i..] + [ids[|ids| - 1]];
      assert (ids[i..])[..|ids[i..]| - 1] == init[i..];
    } else {
      assert ids[..i] == ids;
      assert ids[i..] == [];
    }
  }

  /** Stopping and removing one container, both accepted: it is no longer
      listed, nothing unlisted appears, and every other listed container is
      still listed as it was. */
  lemma StopAndRemoveEffect(w: E.World, containerId: string, rejected: set<E.Request>)
    requires E.Accepted(StopAndRemovePlan(containerId), rejected)
    ensures var after := E.Perform(w, StopAndRemovePlan(containerId), rejected).containers;
      && containerId !in E.Ids(after)
      && (forall x :: x !in E.Ids(w.containers) ==> x !in E.Ids(after))
      && (forall c :: c in w.containers && c.id != containerId ==> c in after)
  {
    var plan := StopAndRemovePlan(containerId);
    assert plan[0] !in rejected && plan[1] !in rejected;
    assert plan[1..] == [plan[1]];
    assert plan[1..][1..] == [];
    var stopped := E.Apply(w, plan[0]);
    assert E.Perform(w, plan, rejected) == E.Perform(stopped, [plan[1]], rejected);
    assert E.Perform(stopped, [plan[1]], rejected) == E.Apply(stopped, plan[1]);
    var after := E.Perform(w, plan, rejected).containers;
    assert after == E.Without(stopped.containers, containerId);
    StopAndRemoveSpec(w, containerId, rejected);
    forall c | c in w.containers && c.id != containerId
      ensures c in after
    {
      var j :| 0 <= j < |w.containers| && w.containers[j] == c;
      assert stopped.containers[j] == c;
    }
  }

  /** Stopping and removing a run of containers, all accepted: none of them
      is listed afterwards, nothing unlisted appears, and a listed container
      whose id is not in the run is still listed as it was. */
  lemma {:induction false} RemovalEffect(w: E.World, ids: seq<string>, rejected: set<E.Request>)
    requires E.Accepted(RemovalPlan(ids), rejected)
    ensures var after := E.Perform(w, RemovalPlan(ids), rejected).containers;
      && (forall x :: x in ids ==> x !in E.Ids(after))
      && (forall x :: x !in E.Ids(w.containers) ==> x !in E.Ids(after))
      && (forall c :: c in w.containers && c.id !in ids ==> c in after)
  {
    if ids != [] {
      var init, last := ids[..|ids| - 1], ids[|ids| - 1];
      E.AcceptedAppend(RemovalPlan(init), StopAndRemovePlan(last), rejected);
      E.PerformAppend(w, RemovalPlan(init), StopAndRemovePlan(last), rejected);
      RemovalEffect(w, init, rejected);
      var middle := E.Perform(w, RemovalPlan(init), rejected);
      StopAndRemoveEffect(middle, last, rejected);
      assert ids == init + [last];
    }
  }

  /** A wholly accepted prune leaves none of the containers it selects
      listed, and every listed container whose id no selected container
      shares listed as it was. Pruning removes by id, so a running container
      survives only when no selected container has its id: see
      `PruneKeepsRunning`. */
  lemma PruneEffect(w: E.World, includeRunning: bool, rejected: set<E.Request>)
    requires E.Accepted(PrunePlan(w.containers, includeRunning), rejected)
    ensures var after := E.Perform(w, PrunePlan(w.containers, includeRunning), rejected).containers;
      && (forall c :: c in w.containers && Prunable(c, includeRunning) ==> c.id !in E.Ids(after))
      && (forall c :: c in w.containers && c.id !in E.Ids(PruneSelection(w.containers, includeRunning)) ==> c in after)
  {
    var list := E.ListContainers(true);
    var rest := PruneRemovals(w.containers, includeRunning);
    E.QueryKeepsWorld(w, list, rejected);
    E.QueryFirst(w, list, rest, rejected);
    assert E.Accepted(rest, rejected);
    var after := E.Perform(w, rest, rejected).containers;
    if w.containers != [] {
      var selection := PruneSelection(w.containers, includeRunning);
      RemovalEffect(w, E.Ids(selection), rejected);
      PruneSelectionSpec(w.containers, includeRunning);
      forall c | c in w.containers && Prunable(c, includeRunning)
        ensures c.id !in E.Ids(after)
      {
        var k :| 0 <= k < |selection| && selection[k] == c;
        assert E.Ids(selection)[k] == c.id;
      }
    }
  }

  /** When the engine lists every id once, a wholly accepted prune without
      `includeRunning` keeps every running container listed as it was. */
  lemma PruneKeepsRunning(w: E.World, rejected: set<E.Request>)
    requires E.Accepted(PrunePlan(w.containers, false), rejected)
    requires forall i, j :: 0 <= i < j < |w.containers| ==> w.containers[i].id != w.containers[j].id
    ensures var after := E.Perform(w, PrunePlan(w.containers, false), rejected).containers;
      forall c :: c in w.containers && LooksRunning(c.status) ==> c in after
  {
    PruneEffect(w, false, rejected);
    PruneSelectionSpec(w.containers, false);
    var selection := PruneSelection(w.containers, false);
    forall c, k | c in w.containers && LooksRunning(c.status) && 0 <= k < |selection|
      ensures E.Ids(selection)[k] != c.id
    {
      var s := selection[k];
      assert s in selection;
      var i :| 0 <= i < |w.containers| && w.containers[i] == s;
      var j :| 0 <= j < |w.containers| && w.containers[j] == c;
      assert i != j;
      if i < j {
        assert w.containers[i].id != w.containers[j].id;
      } else {
        assert w.containers[j].id != w.containers[i].id;
      }
    }
  }

  // ------------------------------------------------------------------
  // Copying files into a container

  /** One file to copy: the local path, the path inside the container
      (the local path when absent) and the permission bits. */
  datatype FileSpec = FileSpec(sourceFile: string, targetFile: Option<string>, permissions: int)

  /** The name a file gets in the archive. */
  function EntryName(f: FileSpec): string
  {
    match f.targetFile
    case Some(target) => target
    case None => f.sourceFile
  }

  /** The archive entry headers for `files`, in order; `sizes` holds the
      length of every local file that exists. The first missing file fails
      the whole archive. */
  function TarHeaders(files: seq<FileSpec>, sizes: map<string, nat>): Result<seq<E.TarHeader>, Exception>
  {
    if files == [] then Success([])
    else if files[0].sourceFile !in sizes then Failure(FileNotFoundException(files[0].sourceFile))
    else
      var rest :- TarHeaders(files[1..], sizes);
      Success([E.TarHeader(EntryName(files[0]), files[0].permissions, sizes[files[0].sourceFile])] + rest)
  }

  /** Every local file exists. */
  predicate AllPresent(files: seq<FileSpec>, sizes: map<string, nat>)
  {
    forall i :: 0 <= i < |files| ==> files[i].sourceFile in sizes
  }

  /** The archive is built exactly when every file exists, with one header
      per file carrying its target name (or its source name), its
      permissions and its size; otherwise the error names the first missing
      file. */
  lemma {:induction false} TarHeadersSpec(files: seq<FileSpec>, sizes: map<string, nat>)
    ensures TarHeaders(files, sizes).Success? <==> AllPresent(files, sizes)
    ensures TarHeaders(files, sizes).Success? ==>
      var headers := TarHeaders(files, sizes).value;
      && |headers| == |files|
      && forall i :: 0 <= i < |files| ==>
           && headers[i].name == (if files[i].targetFile.Some? then files[i].targetFile.value else files[i].sourceFile)
           && headers[i].mode == files[i].permissions
           && headers[i].size == sizes[files[i].sourceFile]
    ensures TarHeaders(files, sizes).Failure? ==>
      exists k :: 0 <= k < |files| && files[k].sourceFile !in sizes &&
        AllPresent(files[..k], sizes) &&
        TarHeaders(files, sizes).error == FileNotFoundException(files[k].sourceFile)
  {
    if files != [] {
      TarHeadersSpec(files[1..], sizes);
      assert forall i :: 1 <= i < |files| ==> files[1..][i - 1] == files[i];
      if files[0].sourceFile !in sizes {
        assert files[..0] == [];
      } else if TarHeaders(files[1..], sizes).Failure? {
        var k :| 0 <= k < |files[1..]| && files[1..][k].sourceFile !in sizes &&
          AllPresent(files[1..][..k], sizes) &&
          TarHeaders(files[1..], sizes).error == FileNotFoundException(files[1..][k].sourceFile);
        assert files[..k + 1] == [files[0]] + files[1..][..k];
        assert AllPresent(files[..k + 1], sizes);
      }
    }
  }

  /** `headers` in front of the headers of a result, if any. */
  function Prefixed(headers: seq<E.TarHeader>, r: Result<seq<E.TarHeader>, Exception>): Result<seq<E.TarHeader>, Exception>
  {
    if r.Success? then Success(headers + r.value) else r
  }

  lemma TarHeadersStep(files: seq<FileSpec>, sizes: map<string, nat>, headers: seq<E.TarHeader>, i: nat)
    requires i < |files| && files[i].sourceFile in sizes
    ensures Prefixed(headers, TarHeaders(files[i..], sizes)) ==
      Prefixed(headers + [E.TarHeader(EntryName(files[i]), files[i].permissions, sizes[files[i].sourceFile])],
               TarHeaders(files[i + 1..], sizes))
  {
    assert files[i..][0] == files[i];
    assert files[i..][1..] == files[i + 1..];
    var rest := TarHeaders(files[i + 1..], sizes);
    if rest.Success? {
      var h := E.TarHeader(EntryName(files[i]), files[i].permissions, sizes[files[i].sourceFile]);
      assert headers + ([h] + rest.value) == headers + [h] + rest.value;
    }
  }

  /** `CreateTarArchive`: writes one entry per file, in order. */
  method CreateTarArchive(files: seq<FileSpec>, sizes: map<string, nat>) returns (r: Result<seq<E.TarHeader>, Exception>)
    ensures r == TarHeaders(files, sizes)
  {
    var headers: seq<E.TarHeader> := [];
    assert files[0..] == files;
    assert Prefixed([], TarHeaders(files, sizes)) == TarHeaders(files, sizes) by {
      if TarHeaders(files, sizes).Success? {
        assert [] + TarHeaders(files, sizes).value == TarHeaders(files, sizes).value;
      }
    }
    for i := 0 to |files|
      invariant TarHeaders(files, sizes) == Prefixed(headers, TarHeaders(files[i..], sizes))
    {
      var file := files[i];
      if file.sourceFile !in sizes {
        assert files[i..][0] == file;
        return Failure(FileNotFoundException(file.sourceFile));
      }
      TarHeadersStep(files, sizes, headers, i);
      headers := headers + [E.TarHeader(EntryName(file), file.permissions, sizes[file.sourceFile])];
    }
    assert files[|files|..] == [];
    assert headers + [] == headers;
    return Success(headers);
  }

  /** The requests of `CopyFiles`: one archive extraction at the root, sent
      only once the archive is built. */
  function CopyPlan(containerId: string, files: seq<FileSpec>, sizes: map<string, nat>): seq<E.Request>
  {
    match TarHeaders(files, sizes)
    case Success(headers) => [E.ExtractArchiveToContainer(containerId, "/", headers)]
    case Failure(_) => []
  }

  /** `CopyFiles`: packs the files into an archive and has the engine
      extract it at `/` in the container. */
  method CopyFiles(client: E.Client, containerId: string, files: seq<FileSpec>, sizes: map<string, nat>)
    returns (o: Outcome<Exception>)
    modifies client
    ensures client.trace == old(client.trace) + CopyPlan(containerId, files, sizes)
    ensures client.world == old(client.world) && client.open == old(client.open)
    ensures match TarHeaders(files, sizes)
      case Failure(e) => o == Fail(e)
      case Success(headers) =>
        o == if E.ExtractArchiveToContainer(containerId, "/", headers) in client.rejected
             then Fail(DockerApiException) else Pass
  {
    var archive := CreateTarArchive(files, sizes);
    if archive.Failure? {
      return Fail(archive.error);
    }
    var request := E.ExtractArchiveToContainer(containerId, "/", archive.value);
    E.QueryKeepsWorld(client.world, request, client.rejected);
    var ok := client.Send(request);
    o := if ok then Pass else Fail(DockerApiException);
  }

  // ------------------------------------------------------------------
  // Container output

  /** A stream the library writes a container's output to: `Stream.Null`,
      which discards everything, or an in-memory buffer holding the text
      written so far. */
  datatype Sink = Null | Buffer(text: string)

  /** What a multiplexed engine stream carries on each of its two
      channels. */
  datatype StreamOutput = StreamOutput(standardOutput: string, standardError: string)

  /** The pair of sinks after a copy. */
  datatype Captured = Captured(standardOutput: Sink, standardError: Sink)

  /** Writing `text` to a sink: `Stream.Null` drops it, a buffer appends
      it. */
  function Deliver(sink: Sink, text: string): Sink
  {
    match sink
    case Null => Null
    case Buffer(written) => Buffer(written + text)
  }

  /** The chunks of a stream, written to a sink one after another. */
  function DeliverAll(sink: Sink, chunks: seq<string>): Sink
  {
    if chunks == [] then sink
    else Deliver(DeliverAll(sink, chunks[..|chunks| - 1]), chunks[|chunks| - 1])
  }

  /** The chunks of a stream, in order, as one text. */
  function Concat(chunks: seq<string>): string
  {
    if chunks == [] then ""
    else Concat(chunks[..|chunks| - 1]) + chunks[|chunks| - 1]
  }

  /** Writing a stream chunk by chunk, as the copy does frame by frame,
      leaves the sink as one write of the whole text would: a buffer ends
      up holding what it held followed by every chunk in order, and a
      fresh buffer holds exactly the stream's text. So the model delivers
      each channel's text in one write. */
  lemma {:induction false} DeliverChunks(sink: Sink, chunks: seq<string>)
    ensures DeliverAll(sink, chunks) == Deliver(sink, Concat(chunks))
    ensures DeliverAll(Buffer(""), chunks) == Buffer(Concat(chunks))
    decreases |chunks|
  {
    if chunks != [] {
      var init, last := chunks[..|chunks| - 1], chunks[|chunks| - 1];
      DeliverChunks(sink, init);
      DeliverChunks(Buffer(""), init);
      if sink.Buffer? {
        assert sink.text + Concat(init) + last == sink.text + (Concat(init) + last);
      }
      assert "" + Concat(init) + last == Concat(init) + last;
    } else {
      assert Deliver(sink, "") == sink by {
        if sink.Buffer? {
          assert sink.text + "" == sink.text;
        }
      }
      assert "" + "" == "";
    }
  }

  /** Copying the demultiplexed channels to the two sinks. */
  function CopyOutput(output: StreamOutput, standardOutput: Sink, standardError: Sink): Captured
  {
    Captured(Deliver(standardOutput, output.standardOutput), Deliver(standardError, output.standardError))
  }

  /** The log request of `GetContainerOutput`. */
  function LogsParameters(standardOutput: Sink, standardError: Sink, since: Option<int>, tail: Option<nat>, follow: bool)
    : E.ContainerLogsParameters
  {
    E.ContainerLogsParameters(standardOutput != Null, standardError != Null, follow, since, false, tail)
  }

  /** The requests of `GetContainerOutput`: none when both sinks discard. */
  function LogsPlan(containerId: string, standardOutput: Sink, standardError: Sink, since: Option<int>, tail: Option<nat>, follow: bool)
    : seq<E.Request>
  {
    if standardOutput == Null && standardError == Null then []
    else [E.GetContainerLogs(containerId, LogsParameters(standardOutput, standardError, since, tail, follow))]
  }

  /** The engine is asked for logs only when some sink keeps them, and then
      for exactly the channels whose sinks keep them, without timestamps,
      with `since`, `tail` and `follow` passed through. */
  lemma LogsPlanSpec(containerId: string, standardOutput: Sink, standardError: Sink, since: Option<int>, tail: Option<nat>, follow: bool)
    ensures var plan := LogsPlan(containerId, standardOutput, standardError, since, tail, follow);
      && (plan == [] <==> standardOutput.Null? && standardError.Null?)
      && (plan != [] ==>
            && |plan| == 1 && plan[0].GetContainerLogs? && plan[0].id == containerId
            && (plan[0].logs.showStdout <==> standardOutput.Buffer?)
            && (plan[0].logs.showStderr <==> standardError.Buffer?)
            && !plan[0].logs.timestamps
            && plan[0].logs.since == since && plan[0].logs.tail == tail && plan[0].logs.follow == follow)
  {
  }

  /** `GetContainerOutput`: copies the container's logs to the sinks;
      `logs` is what the engine streams back. */
  method GetContainerOutput(client: E.Client, containerId: string, standardOutput: Sink, standardError: Sink,
                            since: Option<int>, tail: Option<nat>, follow: bool, logs: StreamOutput)
    returns (r: Result<Captured, Exception>)
    modifies client
    ensures var plan := LogsPlan(containerId, standardOutput, standardError, since, tail, follow);
      && client.trace == old(client.trace) + plan
      && client.world == old(client.world) && client.open == old(client.open)
      && r == if plan == [] then Success(Captured(Null, Null))
              else if plan[0] in client.rejected then Failure(DockerApiException)
              else Success(CopyOutput(logs, standardOutput, standardError))
  {
    if standardOutput == Null && standardError == Null {
      return Success(Captured(Null, Null));
    }
    var request := E.GetContainerLogs(containerId, LogsParameters(standardOutput, standardError, since, tail, follow));
    E.QueryKeepsWorld(client.world, request, client.rejected);
    var ok := client.Send(request);
    if !ok {
      return Failure(DockerApiException);
    }
    return Success(CopyOutput(logs, standardOutput, standardError));
  }

  // ------------------------------------------------------------------
  // Running commands

  /** Some inspection reports the command finished. */
  predicate Finishes(inspections: seq<E.ContainerExecInspectResponse>)
  {
    exists i :: 0 <= i < |inspections| && !inspections[i].running
  }

  lemma FinishesTail(inspections: seq<E.ContainerExecInspectResponse>)
    requires Finishes(inspections) && inspections[0].running
    ensures Finishes(inspections[1..])
  {
    var i :| 0 <= i < |inspections| && !inspections[i].running;
    assert inspections[1..][i - 1] == inspections[i];
  }

  /** The index of the first inspection that reports the command
      finished. */
  function FirstFinished(inspections: seq<E.ContainerExecInspectResponse>): (k: nat)
    requires Finishes(inspections)
    ensures k < |inspections| && !inspections[k].running
    ensures forall j :: 0 <= j < k ==> inspections[j].running
  {
    if !inspections[0].running then 0
    else
      FinishesTail(inspections);
      var k := FirstFinished(inspections[1..]);
      assert forall j :: 1 <= j < k + 1 ==> inspections[j] == inspections[1..][j - 1];
      k + 1
  }

  /** One inspection request per reply in `replies`. */
  function Polls(execId: string, replies: seq<E.ContainerExecInspectResponse>): seq<E.Request>
  {
    if replies == [] then []
    else Polls(execId, replies[..|replies| - 1]) + [E.InspectContainerExec(execId, replies[|replies| - 1])]
  }

  lemma {:induction false} PollsSpec(execId: string, replies: seq<E.ContainerExecInspectResponse>)
    ensures |Polls(execId, replies)| == |replies|
    ensures forall i :: 0 <= i < |replies| ==> Polls(execId, replies)[i] == E.InspectContainerExec(execId, replies[i])
  {
    if replies != [] {
      var init := replies[..|replies| - 1];
      PollsSpec(execId, init);
      assert forall i :: 0 <= i < |init| ==> replies[i] == init[i];
    }
  }

  /** The exec session the library creates: attached to the channels whose
      sinks keep output. */
  function ExecParameters(command: seq<string>, standardOutput: Sink, standardError: Sink): E.ContainerExecCreateParameters
  {
    E.ContainerExecCreateParameters(standardError != Null, standardOutput != Null, command)
  }

  /** The requests of `RunCommand`: create the exec session, start and
      attach to it, then inspect it until an inspection reports it
      finished. */
  function ExecPlan(containerId: string, command: seq<string>, standardOutput: Sink, standardError: Sink,
                    execId: string, inspections: seq<E.ContainerExecInspectResponse>): seq<E.Request>
    requires Finishes(inspections)
  {
    [E.ExecCreateContainer(containerId, ExecParameters(command, standardOutput, standardError), execId),
     E.StartAndAttachContainerExec(execId)] +
    Polls(execId, inspections[..FirstFinished(inspections) + 1])
  }

  /** The session attaches exactly the channels whose sinks keep output and
      runs `command` as given; it is inspected until, and only until, the
      first inspection that reports it finished. */
  lemma ExecPlanSpec(containerId: string, command: seq<string>, standardOutput: Sink, standardError: Sink,
                     execId: string, inspections: seq<E.ContainerExecInspectResponse>)
    requires Finishes(inspections)
    ensures var plan := ExecPlan(containerId, command, standardOutput, standardError, execId, inspections);
      && plan[0] == E.ExecCreateContainer(containerId, plan[0].exec, execId)
      && (plan[0].exec.attachStdout <==> standardOutput.Buffer?)
      && (plan[0].exec.attachStderr <==> standardError.Buffer?)
      && plan[0].exec.cmd == command
      && plan[1] == E.StartAndAttachContainerExec(execId)
      && |plan| >= 3
      && (forall i :: 2 <= i < |plan| ==> plan[i].InspectContainerExec? && plan[i].execId == execId)
      && (forall i :: 2 <= i < |plan| - 1 ==> plan[i].response.running)
      && !plan[|plan| - 1].response.running
  {
    PollsSpec(execId, inspections[..FirstFinished(inspections) + 1]);
  }

  /** What `RunCommand` gives back: the exit code and the sinks after the
      output has been copied to them. */
  datatype ExecResult = ExecResult(exitCode: int, output: Captured)

  /** The do-while loop of `RunCommand`: inspects the session until an
      inspection reports it finished, and gives that inspection. */
  method PollUntilFinished(client: E.Client, execId: string, inspections: seq<E.ContainerExecInspectResponse>)
    returns (r: Result<E.ContainerExecInspectResponse, Exception>)
    requires Finishes(inspections)
    modifies client
    ensures var polls := Polls(execId, inspections[..FirstFinished(inspections) + 1]);
      && client.trace == old(client.trace) + E.Issued(polls, client.rejected)
      && client.world == old(client.world) && client.open == old(client.open)
      && r == if !E.Accepted(polls, client.rejected) then Failure(DockerApiException)
              else Success(inspections[FirstFinished(inspections)])
  {
    ghost var w0, t0 := client.world, client.trace;
    ghost var last := FirstFinished(inspections);
    ghost var polls := Polls(execId, inspections[..last + 1]);
    assert |polls| == last + 1 by {
      PollsSpec(execId, inspections[..last + 1]);
    }
    var k := 0;
    var running := true;
    var response := inspections[0];
    while running
      invariant 0 <= k <= last + 1
      invariant running <==> k <= last
      invariant !running ==> response == inspections[last]
      invariant client.trace == t0 + polls[..k]
      invariant E.Accepted(polls[..k], client.rejected)
      invariant client.world == w0 && client.open == old(client.open)
      decreases last + 1 - k
    {
      var inspect := E.InspectContainerExec(execId, inspections[k]);
      assert polls[k] == inspect by {
        PollsSpec(execId, inspections[..last + 1]);
      }
      E.QueryKeepsWorld(client.world, inspect, client.rejected);
      var ok := client.Send(inspect);
      if !ok {
        assert client.trace == t0 + E.Issued(polls, client.rejected) && !E.Accepted(polls, client.rejected) by {
          assert polls == polls[..k] + [inspect] + polls[k + 1..];
          E.Advance(w0, t0, polls[..k], [inspect], polls[k + 1..], client.rejected);
        }
        return Failure(DockerApiException);
      }
      assert client.trace == t0 + polls[..k + 1] && E.Accepted(polls[..k + 1], client.rejected) by {
        assert polls[..k + 1] == polls[..k] + [inspect];
        E.Advance(w0, t0, polls[..k], [inspect], polls[k + 1..], client.rejected);
      }
      response := inspections[k];
      running := response.running;
      k := k + 1;
    }
    assert polls[..k] == polls;
    E.IssuedAll(polls, client.rejected);
    return Success(response);
  }

  /** Creates the exec session and starts and attaches to it. */
  method StartExec(client: E.Client, containerId: string, exec: E.ContainerExecCreateParameters, execId: string)
    returns (ok: bool)
    modifies client
    ensures var plan := [E.ExecCreateContainer(containerId, exec, execId), E.StartAndAttachContainerExec(execId)];
      && client.trace == old(client.trace) + E.Issued(plan, client.rejected)
      && client.world == old(client.world) && client.open == old(client.open)
      && (ok <==> E.Accepted(plan, client.rejected))
  {
    var create := E.ExecCreateContainer(containerId, exec, execId);
    var attach := E.StartAndAttachContainerExec(execId);
    E.QueryKeepsWorld(client.world, create, client.rejected);
    E.QueryKeepsWorld(client.world, attach, client.rejected);
    assert [create, attach] == [create] + [attach];
    E.QueryFirst(client.world, create, [attach], client.rejected);
    ok := client.Send(create);
    if !ok {
      return;
    }
    ok := client.Send(attach);
  }

  /** `RunCommand` with a tokenised command. `execId` is the id the engine
      gives the session, `inspections` the replies its inspections get in
      turn, and `output` what the attached stream carries. */
  method RunCommand(client: E.Client, containerId: string, command: seq<string>, standardOutput: Sink, standardError: Sink,
                    execId: string, inspections: seq<E.ContainerExecInspectResponse>, output: StreamOutput)
    returns (r: Result<ExecResult, Exception>)
    requires Finishes(inspections)
    modifies client
    ensures var plan := ExecPlan(containerId, command, standardOutput, standardError, execId, inspections);
      && client.trace == old(client.trace) + E.Issued(plan, client.rejected)
      && client.world == old(client.world) && client.open == old(client.open)
      && r == if !E.Accepted(plan, client.rejected) then Failure(DockerApiException)
              else Success(ExecResult(inspections[FirstFinished(inspections)].exitCode,
                                      CopyOutput(output, standardOutput, standardError)))
  {
    ghost var t0 := client.trace;
    var exec := ExecParameters(command, standardOutput, standardError);
    ghost var start := [E.ExecCreateContainer(containerId, exec, execId), E.StartAndAttachContainerExec(execId)];
    ghost var polls := Polls(execId, inspections[..FirstFinished(inspections) + 1]);
    assert ExecPlan(containerId, command, standardOutput, standardError, execId, inspections) == start + polls;
    E.Then(t0, start, polls, client.rejected);
    var ok := StartExec(client, containerId, exec, execId);
    if !ok {
      return Failure(DockerApiException);
    }
    var finished := PollUntilFinished(client, execId, inspections);
    if finished.Failure? {
      return Failure(DockerApiException);
    }
    var drain := standardOutput != Null || standardError != Null;
    var captured := Captured(standardOutput, standardError);
    if drain {
      captured := CopyOutput(output, standardOutput, standardError);
    }
    return Success(ExecResult(finished.value.exitCode, captured));
  }

  /** Output that nothing is attached to. */
  const NoOutput := StreamOutput("", "")

  /** `RunCommand` with discarding sinks, giving the exit code. */
  method RunCommandDiscarding(client: E.Client, containerId: string, command: seq<string>,
                              execId: string, inspections: seq<E.ContainerExecInspectResponse>)
    returns (r: Result<int, Exception>)
    requires Finishes(inspections)
    modifies client
    ensures var plan := ExecPlan(containerId, command, Null, Null, execId, inspections);
      && client.trace == old(client.trace) + E.Issued(plan, client.rejected)
      && client.world == old(client.world) && client.open == old(client.open)
      && r == if !E.Accepted(plan, client.rejected) then Failure(DockerApiException)
              else Success(inspections[FirstFinished(inspections)].exitCode)
  {
    var result := RunCommand(client, containerId, command, Null, Null, execId, inspections, NoOutput);
    if result.Failure? {
      return Failure(result.error);
    }
    return Success(result.value.exitCode);
  }

  /** The requests of `RunCommand` on a command line: none when the line
      does not tokenise. */
  function ExecLinePlan(containerId: string, command: string, standardOutput: Sink, standardError: Sink,
                        execId: string, inspections: seq<E.ContainerExecInspectResponse>): seq<E.Request>
    requires Finishes(inspections)
  {
    match CommandTokenizer.Parse(command)
    case Failure(_) => []
    case Success(tokens) => ExecPlan(containerId, tokens, standardOutput, standardError, execId, inspections)
  }

  /** `RunCommand` on a command line: the line is tokenised in full before
      the engine is asked anything, so a line with unmatched quotes fails
      without any request. */
  method RunCommandLine(client: E.Client, containerId: string, command: string, standardOutput: Sink, standardError: Sink,
                        execId: string, inspections: seq<E.ContainerExecInspectResponse>, output: StreamOutput)
    returns (r: Result<ExecResult, Exception>)
    requires Finishes(inspections)
    modifies client
    ensures var plan := ExecLinePlan(containerId, command, standardOutput, standardError, execId, inspections);
      && client.trace == old(client.trace) + E.Issued(plan, client.rejected)
      && client.world == old(client.world) && client.open == old(client.open)
      && r == match CommandTokenizer.Parse(command)
              case Failure(e) => Failure(e)
              case Success(_) =>
                if !E.Accepted(plan, client.rejected) then Failure(DockerApiException)
                else Success(ExecResult(inspections[FirstFinished(inspections)].exitCode,
                                        CopyOutput(output, standardOutput, standardError)))
  {
    var tokens := CommandTokenizer.ParseCommand(command);
    if tokens.Failure? {
      return Failure(tokens.error);
    }
    r := RunCommand(client, containerId, tokens.value, standardOutput, standardError, execId, inspections, output);
  }

  /** `RunCommand` on a command line with discarding sinks. */
  method RunCommandLineDiscarding(client: E.Client, containerId: string, command: string,
                                  execId: string, inspections: seq<E.ContainerExecInspectResponse>)
    returns (r: Result<int, Exception>)
    requires Finishes(inspections)
    modifies client
    ensures var plan := ExecLinePlan(containerId, command, Null, Null, execId, inspections);
      && client.trace == old(client.trace) + E.Issued(plan, client.rejected)
      && client.world == old(client.world) && client.open == old(client.open)
      && r == match CommandTokenizer.Parse(command)
              case Failure(e) => Failure(e)
              case Success(_) =>
                if !E.Accepted(plan, client.rejected) then Failure(DockerApiException)
                else Success(inspections[FirstFinished(inspections)].exitCode)
  {
    var tokens := CommandTokenizer.ParseCommand(command);
    if tokens.Failure? {
      return Failure(tokens.error);
    }
    r := RunCommandDiscarding(client, containerId, tokens.value, execId, inspections);
  }

  /** A command line with unmatched quotes reaches no engine at all; with
      discarding sinks the exec session attaches to neither channel. */
  lemma ExecLinePlanSpec(containerId: string, command: string, execId: string, inspections: seq<E.ContainerExecInspectResponse>)
    requires Finishes(inspections)
    ensures CommandTokenizer.Scan(command).quoted ==> ExecLinePlan(containerId, command, Null, Null, execId, inspections) == []
    ensures !CommandTokenizer.Scan(command).quoted ==>
      var plan := ExecLinePlan(containerId, command, Null, Null, execId, inspections);
      && plan[0].ExecCreateContainer?
      && plan[0].exec == E.ContainerExecCreateParameters(false, false, CommandTokenizer.Parse(command).value)
  {
    CommandTokenizer.ParseSpec(command);
  }
}
