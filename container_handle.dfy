/** `AsyncDisposableContainer`: a handle on one container the library
    created and started, bound to the client that created it. */
module ContainerHandle {
  import opened Wrappers
  import opened Exceptions
  import E = Engine
  import Options
  import CommandTokenizer
  import Extensions = DockerClientExtensions

  /** The requests of `Create`: those of `CreateContainer`, then starting
      the new container when it was created. */
  function CreateAndStartPlan(options: Options.ContainerOptions, images: set<string>, assignedId: string): seq<E.Request>
  {
    Extensions.CreatePlan(options, images, assignedId) +
      if Extensions.BuildParameters(options).Success? then [E.StartContainer(assignedId)] else []
  }

  /** The sink `RunCommand` hands the engine for each channel. */
  function CaptureSink(captureOutput: bool): Extensions.Sink
  {
    if captureOutput then Extensions.Buffer("") else Extensions.Null
  }

  class AsyncDisposableContainer {
    const client: E.Client
    const containerId: string
    var lastStandardOutput: Option<string>
    var lastStandardError: Option<string>

    /** The handle starts with no captured output. */
    constructor (client: E.Client, containerId: string)
      ensures this.client == client && this.containerId == containerId
      ensures lastStandardOutput == None && lastStandardError == None
    {
      this.client := client;
      this.containerId := containerId;
      lastStandardOutput := None;
      lastStandardError := None;
    }

    /** The container's id; fixed for the handle's lifetime. */
    function Id(): string
    {
      containerId
    }

    /** `Create`: creates a container from `options`, starts it and binds a
        new handle to the id the engine assigned (`assignedId`). */
    static method Create(client: E.Client, options: Options.ContainerOptions, assignedId: string)
      returns (r: Result<AsyncDisposableContainer, Exception>)
      modifies client
      ensures var plan := CreateAndStartPlan(options, old(client.world.images), assignedId);
        && client.trace == old(client.trace) + E.Issued(plan, client.rejected)
        && client.world == E.Perform(old(client.world), plan, client.rejected)
        && client.open == old(client.open)
        && (r.Success? <==> E.Accepted(plan, client.rejected) && Extensions.BuildParameters(options).Success?)
        && (r.Failure? ==>
              r.error == if E.Accepted(plan, client.rejected) then Extensions.BuildParameters(options).error else DockerApiException)
      ensures r.Success? ==>
        && fresh(r.value) && r.value.client == client && r.value.containerId == assignedId
        && r.value.lastStandardOutput == None && r.value.lastStandardError == None
    {
      ghost var w0 := client.world;
      ghost var createPlan := Extensions.CreatePlan(options, w0.images, assignedId);
      var created := Extensions.CreateContainer(client, options, assignedId);
      if created.Failure? {
        if Extensions.BuildParameters(options).Success? {
          E.IssuedAppend(createPlan, [E.StartContainer(assignedId)], client.rejected);
          E.PerformAppend(w0, createPlan, [E.StartContainer(assignedId)], client.rejected);
          E.AcceptedAppend(createPlan, [E.StartContainer(assignedId)], client.rejected);
        } else {
          assert createPlan + [] == createPlan;
        }
        return Failure(created.error);
      }
      var started := Extensions.StartContainer(client, created.value);
      E.Extend(w0, createPlan, E.StartContainer(assignedId), client.rejected);
      if started.Fail? {
        return Failure(started.error);
      }
      var handle := new AsyncDisposableContainer(client, created.value);
      return Success(handle);
    }

    /** `FromImage` with options. */
    static method FromImage(client: E.Client, options: Options.ContainerOptions, assignedId: string)
      returns (r: Result<AsyncDisposableContainer, Exception>)
      modifies client
      ensures var plan := CreateAndStartPlan(options, old(client.world.images), assignedId);
        && client.trace == old(client.trace) + E.Issued(plan, client.rejected)
        && client.world == E.Perform(old(client.world), plan, client.rejected)
        && client.open == old(client.open)
        && (r.Success? <==> E.Accepted(plan, client.rejected) && Extensions.BuildParameters(options).Success?)
        && (r.Failure? ==>
              r.error == if E.Accepted(plan, client.rejected) then Extensions.BuildParameters(options).error else DockerApiException)
      ensures r.Success? ==>
        && fresh(r.value) && r.value.client == client && r.value.containerId == assignedId
        && r.value.lastStandardOutput == None && r.value.lastStandardError == None
    {
      r := Create(client, options, assignedId);
    }

    /** `FromImage` with an image name: the options hold that name and
        every other field at its default. */
    static method FromImageName(client: E.Client, imageName: string, assignedId: string)
      returns (r: Result<AsyncDisposableContainer, Exception>)
      modifies client
      ensures var plan := CreateAndStartPlan(Options.WithImage(imageName), old(client.world.images), assignedId);
        && client.trace == old(client.trace) + E.Issued(plan, client.rejected)
        && client.world == E.Perform(old(client.world), plan, client.rejected)
        && client.open == old(client.open)
        && (r.Success? <==> E.Accepted(plan, client.rejected))
        && (r.Failure? ==> r.error == DockerApiException)
      ensures r.Success? ==>
        && fresh(r.value) && r.value.client == client && r.value.containerId == assignedId
        && r.value.lastStandardOutput == None && r.value.lastStandardError == None
    {
      NameOnlyBuilds(imageName);
      r := Create(client, Options.WithImage(imageName), assignedId);
    }

    /** `GetStandardOutput`: the container's standard output, asked for
        alone, with `tail` passed through; `logs` is what the engine
        streams back. */
    method GetStandardOutput(tail: Option<nat>, logs: Extensions.StreamOutput) returns (r: Result<string, Exception>)
      modifies client
      ensures var request := E.GetContainerLogs(containerId, E.ContainerLogsParameters(true, false, false, None, false, tail));
        && client.trace == old(client.trace) + [request]
        && client.world == old(client.world) && client.open == old(client.open)
        && r == if request in client.rejected then Failure(DockerApiException) else Success(logs.standardOutput)
    {
      var copied := Extensions.GetContainerOutput(client, containerId, Extensions.Buffer(""), Extensions.Null, None, tail, false, logs);
      if copied.Failure? {
        return Failure(copied.error);
      }
      assert "" + logs.standardOutput == logs.standardOutput;
      return Success(copied.value.standardOutput.text);
    }

    /** `GetStandardError`: the container's standard error, asked for
        alone, with `tail` passed through. */
    method GetStandardError(tail: Option<nat>, logs: Extensions.StreamOutput) returns (r: Result<string, Exception>)
      modifies client
      ensures var request := E.GetContainerLogs(containerId, E.ContainerLogsParameters(false, true, false, None, false, tail));
        && client.trace == old(client.trace) + [request]
        && client.world == old(client.world) && client.open == old(client.open)
        && r == if request in client.rejected then Failure(DockerApiException) else Success(logs.standardError)
    {
      var copied := Extensions.GetContainerOutput(client, containerId, Extensions.Null, Extensions.Buffer(""), None, tail, false, logs);
      if copied.Failure? {
        return Failure(copied.error);
      }
      assert "" + logs.standardError == logs.standardError;
      return Success(copied.value.standardError.text);
    }

    /** `CopyFiles` into this container. */
    method CopyFiles(files: seq<Extensions.FileSpec>, sizes: map<string, nat>) returns (o: Outcome<Exception>)
      modifies client
      ensures client.trace == old(client.trace) + Extensions.CopyPlan(containerId, files, sizes)
      ensures client.world == old(client.world) && client.open == old(client.open)
      ensures match Extensions.TarHeaders(files, sizes)
        case Failure(e) => o == Fail(e)
        case Success(headers) =>
          o == if E.ExtractArchiveToContainer(containerId, "/", headers) in client.rejected
               then Fail(DockerApiException) else Pass
    {
      o := Extensions.CopyFiles(client, containerId, files, sizes);
    }

    /** `RunCommand`: runs a command line in the container and gives its
        exit code. Capturing, both channels go to fresh buffers whose text
        replaces the last captured output; otherwise both are discarded and
        the last captured output stays as it was. */
    method RunCommand(command: string, captureOutput: bool,
                      execId: string, inspections: seq<E.ContainerExecInspectResponse>, output: Extensions.StreamOutput)
      returns (r: Result<int, Exception>)
      requires Extensions.Finishes(inspections)
      modifies this, client
      ensures var plan := Extensions.ExecLinePlan(containerId, command, CaptureSink(captureOutput), CaptureSink(captureOutput), execId, inspections);
        && client.trace == old(client.trace) + E.Issued(plan, client.rejected)
        && client.world == old(client.world) && client.open == old(client.open)
        && r == match CommandTokenizer.Parse(command)
                case Failure(e) => Failure(e)
                case Success(_) =>
                  if !E.Accepted(plan, client.rejected) then Failure(DockerApiException)
                  else Success(inspections[Extensions.FirstFinished(inspections)].exitCode)
      ensures captureOutput && r.Success? ==>
        lastStandardOutput == Some(output.standardOutput) && lastStandardError == Some(output.standardError)
      ensures !(captureOutput && r.Success?) ==>
        lastStandardOutput == old(lastStandardOutput) && lastStandardError == old(lastStandardError)
    {
      if captureOutput {
        var result := Extensions.RunCommandLine(client, containerId, command, Extensions.Buffer(""), Extensions.Buffer(""), execId, inspections, output);
        if result.Failure? {
          return Failure(result.error);
        }
        assert "" + output.standardOutput == output.standardOutput;
        assert "" + output.standardError == output.standardError;
        lastStandardOutput := Some(result.value.output.standardOutput.text);
        lastStandardError := Some(result.value.output.standardError.text);
        return Success(result.value.exitCode);
      } else {
        r := Extensions.RunCommandLineDiscarding(client, containerId, command, execId, inspections);
      }
    }

    /** `Dispose`: releases the client and asks nothing of the engine. */
    method Dispose()
      modifies client
      ensures client.trace == old(client.trace) + [E.Release]
      ensures client.world == old(client.world) && !client.open
    {
      client.Dispose();
    }

    /** `DisposeAsync`: stops and removes the container, then releases the
        client; when stopping or removing fails, the client is not
        released. */
    method DisposeAsync() returns (o: Outcome<Exception>)
      modifies client
      ensures var plan := Extensions.StopAndRemovePlan(containerId);
        && client.world == E.Perform(old(client.world), plan, client.rejected)
        && (o.Pass? <==> E.Accepted(plan, client.rejected))
        && (o.Pass? ==> client.trace == old(client.trace) + plan + [E.Release] && !client.open)
        && (o.Fail? ==> client.trace == old(client.trace) + E.Issued(plan, client.rejected) && client.open == old(client.open))
      ensures o.Pass? ==> containerId !in E.Ids(client.world.containers)
    {
      ghost var w0 := client.world;
      o := Extensions.StopAndRemoveContainer(client, containerId);
      if o.Fail? {
        return;
      }
      E.IssuedAll(Extensions.StopAndRemovePlan(containerId), client.rejected);
      Extensions.StopAndRemoveSpec(w0, containerId, client.rejected);
      client.Dispose();
    }
  }

  /** Options holding only an image name always build; the container
      is created with no ports, no entrypoint and no environment. */
  lemma NameOnlyBuilds(imageName: string)
    ensures Extensions.BuildParameters(Options.WithImage(imageName)).Success?
    ensures var p := Extensions.BuildParameters(Options.WithImage(imageName)).value;
      && p.image == imageName && p.env == [] && p.entrypoint == None
      && p.exposedPorts == map[] && p.hostConfig.portBindings == map[]
      && p.labels == map[Extensions.OwnerLabelKey := Extensions.OwnerLabelValue]
  {
    Extensions.BuildParametersFailures(Options.WithImage(imageName));
    Extensions.BuildParametersSpec(Options.WithImage(imageName));
  }
}
