/** The container engine the library talks to, reduced to what the library
    sends and reads. The engine is not part of the library: it is modelled
    as an abstract state (the containers it lists and the images it holds),
    a trace of the requests a client has sent it, and a fixed set of
    requests it answers with an error. */
module Engine {
  import opened Wrappers
  import opened Exceptions

  // The Docker.DotNet parameter and response models, with only the fields
  // the library sets or reads.

  datatype EmptyStruct = EmptyStruct
  datatype PortBinding = PortBinding(hostPort: string)
  datatype HostConfig = HostConfig(portBindings: map<string, seq<PortBinding>>)
  datatype CreateContainerParameters = CreateContainerParameters(
    image: string,
    env: seq<string>,
    exposedPorts: map<string, EmptyStruct>,
    hostConfig: HostConfig,
    entrypoint: Option<seq<string>>,
    labels: map<string, string>)
  datatype ContainerStopParameters = ContainerStopParameters(waitBeforeKillSeconds: nat)
  datatype ContainerRemoveParameters = ContainerRemoveParameters(force: bool, removeVolumes: bool)
  /** `since` is whole seconds since the Unix epoch and `tail` a line count;
      their formatting as decimal strings is not modelled. */
  datatype ContainerLogsParameters = ContainerLogsParameters(
    showStdout: bool,
    showStderr: bool,
    follow: bool,
    since: Option<int>,
    timestamps: bool,
    tail: Option<nat>)
  datatype ContainerExecCreateParameters = ContainerExecCreateParameters(
    attachStderr: bool,
    attachStdout: bool,
    cmd: seq<string>)
  datatype ContainerExecInspectResponse = ContainerExecInspectResponse(running: bool, exitCode: int)
  datatype TarHeader = TarHeader(name: string, mode: int, size: nat)
  datatype ContainerListResponse = ContainerListResponse(
    id: string,
    labels: map<string, string>,
    status: string)

  /** One call a client makes on the engine. Where the engine's answer is
      data the model cannot compute (the id it assigns to a new container or
      exec session, the status an inspection reports), the request records
      that answer too. `Release` is the client disposing its connection. */
  datatype Request =
    | ListImages(reference: string)
    | CreateImage(fromImage: string)
    | CreateContainer(parameters: CreateContainerParameters, assignedId: string)
    | StartContainer(id: string)
    | StopContainer(id: string, stop: ContainerStopParameters)
    | RemoveContainer(id: string, remove: ContainerRemoveParameters)
    | ListContainers(all: bool)
    | ExtractArchiveToContainer(id: string, path: string, archive: seq<TarHeader>)
    | GetContainerLogs(id: string, logs: ContainerLogsParameters)
    | ExecCreateContainer(id: string, exec: ContainerExecCreateParameters, execId: string)
    | StartAndAttachContainerExec(execId: string)
    | InspectContainerExec(execId: string, response: ContainerExecInspectResponse)
    | Release

  /** What the engine holds: the containers it lists, in listing order, and
      the image references present locally. */
  datatype World = World(containers: seq<ContainerListResponse>, images: set<string>)

  // Status texts this engine model reports, in the form Docker lists them.
  const CreatedStatus := "Created"
  const UpStatus := "Up Less than a second"
  const ExitedStatus := "Exited (0) Less than a second ago"

  /** The ids of the listed containers, in order. The ensures unfold the
      comprehension for callers' proofs; they promise nothing beyond it. */
  function Ids(cs: seq<ContainerListResponse>): (ids: seq<string>)
    ensures |ids| == |cs|
    ensures forall i :: 0 <= i < |cs| ==> ids[i] == cs[i].id
  {
    seq(|cs|, i requires 0 <= i < |cs| => cs[i].id)
  }

  /** The listing with every container called `id` given a new status.
      As for `Ids`, the ensures only unfold the comprehension. */
  function WithStatus(cs: seq<ContainerListResponse>, id: string, status: string): (r: seq<ContainerListResponse>)
    ensures |r| == |cs|
    ensures forall i :: 0 <= i < |cs| ==>
      r[i] == if cs[i].id == id then cs[i].(status := status) else cs[i]
  {
    seq(|cs|, i requires 0 <= i < |cs| => if cs[i].id == id then cs[i].(status := status) else cs[i])
  }

  /** The listing without the containers called `id`, others in order. */
  function Without(cs: seq<ContainerListResponse>, id: string): (r: seq<ContainerListResponse>)
    ensures forall c :: c in r <==> c in cs && c.id != id
    ensures id !in Ids(r)
  {
    if cs == [] then []
    else if cs[0].id == id then Without(cs[1..], id)
    else [cs[0]] + Without(cs[1..], id)
  }

  /** The effect of an accepted request on the engine. */
  function Apply(w: World, r: Request): World
  {
    match r
    case CreateImage(reference) => w.(images := w.images + {reference})
    case CreateContainer(parameters, id) =>
      w.(containers := w.containers + [ContainerListResponse(id, parameters.labels, CreatedStatus)])
    case StartContainer(id) => w.(containers := WithStatus(w.containers, id, UpStatus))
    case StopContainer(id, _) => w.(containers := WithStatus(w.containers, id, ExitedStatus))
    case RemoveContainer(id, _) => w.(containers := Without(w.containers, id))
    case _ => w
  }

  /** No request of the plan is refused. */
  predicate Accepted(plan: seq<Request>, rejected: set<Request>)
  {
    forall i :: 0 <= i < |plan| ==> plan[i] !in rejected
  }

  /** The requests a client sends when it works through `plan` in order and
      gives up at the first one the engine refuses (a call that throws). */
  function Issued(plan: seq<Request>, rejected: set<Request>): seq<Request>
  {
    if plan == [] then []
    else if plan[0] in rejected then [plan[0]]
    else [plan[0]] + Issued(plan[1..], rejected)
  }

  /** What is sent is a prefix of the plan in which every request but the
      last is accepted; all of the plan is sent exactly when everything
      before its last request is accepted, and otherwise the last request
      sent is the refused one. */
  lemma {:induction false} IssuedSpec(plan: seq<Request>, rejected: set<Request>)
    ensures var sent := Issued(plan, rejected);
      && |sent| <= |plan| && sent == plan[..|sent|]
      && (forall i :: 0 <= i < |sent| - 1 ==> sent[i] !in rejected)
      && (sent == plan <==> (plan == [] || Accepted(plan[..|plan| - 1], rejected)))
      && (sent != plan ==> sent != [] && sent[|sent| - 1] in rejected)
  {
    if plan != [] && plan[0] !in rejected {
      IssuedSpec(plan[1..], rejected);
      assert forall i :: 1 <= i < |plan| ==> plan[1..][i - 1] == plan[i];
      var rest := Issued(plan[1..], rejected);
      assert forall i :: 1 <= i < |rest| ==> ([plan[0]] + rest)[i] == rest[i - 1];
      if |plan| > 1 {
        assert plan[1..][..|plan| - 2] == plan[..|plan| - 1][1..];
      }
    }
  }

  /** A wholly accepted plan is sent in full. */
  lemma {:induction false} IssuedAll(plan: seq<Request>, rejected: set<Request>)
    requires Accepted(plan, rejected)
    ensures Issued(plan, rejected) == plan
  {
    IssuedSpec(plan, rejected);
    if plan != [] {
      assert Accepted(plan[..|plan| - 1], rejected);
    }
  }

  /** The engine after working through `plan` as `Issued` describes. */
  function Perform(w: World, plan: seq<Request>, rejected: set<Request>): World
    decreases |plan|
  {
    if plan == [] then w
    else if plan[0] in rejected then w
    else Perform(Apply(w, plan[0]), plan[1..], rejected)
  }

  lemma AcceptedAppend(p: seq<Request>, q: seq<Request>, rejected: set<Request>)
    ensures Accepted(p + q, rejected) <==> Accepted(p, rejected) && Accepted(q, rejected)
  {
    assert forall i :: 0 <= i < |p| ==> (p + q)[i] == p[i];
    assert forall i :: 0 <= i < |q| ==> (p + q)[|p| + i] == q[i];
  }

  /** A plan whose first request is accepted is accepted exactly when the
      rest of it is. */
  lemma AcceptedTail(p: seq<Request>, rejected: set<Request>)
    requires p != [] && p[0] !in rejected
    ensures Accepted(p, rejected) <==> Accepted(p[1..], rejected)
  {
    assert forall i :: 1 <= i < |p| ==> p[1..][i - 1] == p[i];
  }

  /** Working through two plans one after the other is working through
      their concatenation: the second is reached only if the first is
      wholly accepted. */
  lemma {:induction false} IssuedAppend(p: seq<Request>, q: seq<Request>, rejected: set<Request>)
    ensures Issued(p + q, rejected) == if Accepted(p, rejected) then p + Issued(q, rejected) else Issued(p, rejected)
  {
    if p == [] {
      assert p + q == q;
    } else if p[0] in rejected {
      assert (p + q)[0] == p[0];
      assert !Accepted(p, rejected);
    } else {
      assert (p + q)[0] == p[0];
      assert (p + q)[1..] == p[1..] + q;
      IssuedAppend(p[1..], q, rejected);
      AcceptedTail(p, rejected);
      if Accepted(p, rejected) {
        assert [p[0]] + (p[1..] + Issued(q, rejected)) == p + Issued(q, rejected);
      }
    }
  }

  lemma {:induction false} PerformAppend(w: World, p: seq<Request>, q: seq<Request>, rejected: set<Request>)
    ensures Perform(w, p + q, rejected) ==
      if Accepted(p, rejected) then Perform(Perform(w, p, rejected), q, rejected) else Perform(w, p, rejected)
    decreases |p|
  {
    if p == [] {
      assert p + q == q;
    } else if p[0] in rejected {
      assert (p + q)[0] == p[0];
      assert !Accepted(p, rejected);
    } else {
      assert (p + q)[0] == p[0];
      assert (p + q)[1..] == p[1..] + q;
      PerformAppend(Apply(w, p[0]), p[1..], q, rejected);
      AcceptedTail(p, rejected);
    }
  }

  /** Sending one more request after an accepted plan. */
  lemma Extend(w: World, p: seq<Request>, r: Request, rejected: set<Request>)
    requires Accepted(p, rejected)
    ensures Issued(p, rejected) == p
    ensures Issued(p + [r], rejected) == p + [r]
    ensures Perform(w, p + [r], rejected) == Perform(Perform(w, p, rejected), [r], rejected)
    ensures Accepted(p + [r], rejected) <==> r !in rejected
  {
    IssuedAll(p, rejected);
    IssuedAppend(p, [r], rejected);
    PerformAppend(w, p, [r], rejected);
    AcceptedAppend(p, [r], rejected);
  }

  /** Working through a second plan after a wholly accepted one. */
  lemma Continue(w: World, p: seq<Request>, q: seq<Request>, rejected: set<Request>)
    requires Accepted(p, rejected)
    ensures Issued(p, rejected) == p
    ensures Issued(p + q, rejected) == p + Issued(q, rejected)
    ensures Perform(w, p + q, rejected) == Perform(Perform(w, p, rejected), q, rejected)
    ensures Accepted(p + q, rejected) <==> Accepted(q, rejected)
  {
    IssuedAll(p, rejected);
    IssuedAppend(p, q, rejected);
    PerformAppend(w, p, q, rejected);
    AcceptedAppend(p, q, rejected);
  }

  /** A refusal inside `q` ends the work: nothing of `rest` is sent. */
  lemma Halt(w: World, p: seq<Request>, q: seq<Request>, rest: seq<Request>, rejected: set<Request>)
    requires Accepted(p, rejected) && !Accepted(q, rejected)
    ensures Issued(p + q + rest, rejected) == p + Issued(q, rejected)
    ensures Perform(w, p + q + rest, rejected) == Perform(Perform(w, p, rejected), q, rejected)
    ensures !Accepted(p + q + rest, rejected)
  {
    Continue(w, p, q, rejected);
    IssuedAppend(p + q, rest, rejected);
    PerformAppend(w, p + q, rest, rejected);
    AcceptedAppend(p + q, rest, rejected);
  }

  /** One step of a loop that works through `done`, then `step`, then
      `rest`, with `t` the trace before the loop: an accepted step extends
      the accepted part, a refused one ends the whole plan there. */
  lemma Advance(w: World, t: seq<Request>, done: seq<Request>, step: seq<Request>, rest: seq<Request>, rejected: set<Request>)
    requires Accepted(done, rejected)
    ensures Accepted(step, rejected) ==>
      && t + done + Issued(step, rejected) == t + (done + step)
      && Accepted(done + step, rejected)
      && Perform(w, done + step, rejected) == Perform(Perform(w, done, rejected), step, rejected)
    ensures !Accepted(step, rejected) ==>
      && t + done + Issued(step, rejected) == t + Issued(done + step + rest, rejected)
      && Perform(w, done + step + rest, rejected) == Perform(Perform(w, done, rejected), step, rejected)
      && !Accepted(done + step + rest, rejected)
  {
    if Accepted(step, rejected) {
      IssuedAll(step, rejected);
      Continue(w, done, step, rejected);
      assert t + done + step == t + (done + step);
    } else {
      Halt(w, done, step, rest, rejected);
      assert t + done + Issued(step, rejected) == t + (done + Issued(step, rejected));
    }
  }

  /** Two plans worked through one after the other, seen from the trace
      `t` before the first. */
  lemma Then(t: seq<Request>, p: seq<Request>, q: seq<Request>, rejected: set<Request>)
    ensures !Accepted(p, rejected) ==> t + Issued(p, rejected) == t + Issued(p + q, rejected) && !Accepted(p + q, rejected)
    ensures Accepted(p, rejected) ==>
      t + Issued(p, rejected) + Issued(q, rejected) == t + Issued(p + q, rejected) &&
      (Accepted(p + q, rejected) <==> Accepted(q, rejected))
  {
    IssuedAppend(p, q, rejected);
    AcceptedAppend(p, q, rejected);
    if Accepted(p, rejected) {
      IssuedAll(p, rejected);
    }
  }

  /** Requests that read from the engine or act outside what `World`
      tracks. */
  predicate Query(r: Request)
  {
    !(r.CreateImage? || r.CreateContainer? || r.StartContainer? || r.StopContainer? || r.RemoveContainer?)
  }

  /** A query, accepted or not, leaves the engine as it is. */
  lemma QueryKeepsWorld(w: World, r: Request, rejected: set<Request>)
    requires Query(r)
    ensures Apply(w, r) == w
    ensures Perform(w, [r], rejected) == w
  {
    assert [r][1..] == [];
  }

  /** A plan that opens with a request leaving the engine as it is (a
      query): refused, nothing else is sent; accepted, the rest follows. */
  lemma {:induction false} QueryFirst(w: World, r: Request, rest: seq<Request>, rejected: set<Request>)
    requires Apply(w, r) == w
    ensures r in rejected ==>
      Issued([r] + rest, rejected) == [r] && Perform(w, [r] + rest, rejected) == w && !Accepted([r] + rest, rejected)
    ensures r !in rejected ==>
      Issued([r] + rest, rejected) == [r] + Issued(rest, rejected) &&
      Perform(w, [r] + rest, rejected) == Perform(w, rest, rejected) &&
      (Accepted([r] + rest, rejected) <==> Accepted(rest, rejected))
  {
    assert ([r] + rest)[0] == r;
    assert ([r] + rest)[1..] == rest;
    AcceptedAppend([r], rest, rejected);
  }

  /** A client connection to the engine. */
  class Client {
    var world: World
    var trace: seq<Request>
    var open: bool
    const rejected: set<Request>

    constructor (world: World, rejected: set<Request>)
      ensures this.world == world && this.rejected == rejected
      ensures trace == [] && open
    {
      this.world := world;
      this.rejected := rejected;
      trace := [];
      open := true;
    }

    /** Sends one request; `ok` is false when the engine refuses it. */
    method Send(r: Request) returns (ok: bool)
      modifies this
      ensures ok <==> r !in rejected
      ensures trace == old(trace) + [r]
      ensures world == Perform(old(world), [r], rejected)
      ensures open == old(open)
    {
      trace := trace + [r];
      ok := r !in rejected;
      if ok {
        world := Apply(world, r);
      }
    }

    /** `Images.ListImagesAsync` filtered by one reference: the matching
        local images. */
    method ListImages(reference: string) returns (r: Result<seq<string>, Exception>)
      modifies this
      ensures trace == old(trace) + [Request.ListImages(reference)]
      ensures world == old(world) && open == old(open)
      ensures r == if Request.ListImages(reference) in rejected then Failure(DockerApiException)
                   else Success(if reference in world.images then [reference] else [])
    {
      var ok := Send(Request.ListImages(reference));
      if !ok {
        return Failure(DockerApiException);
      }
      return Success(if reference in world.images then [reference] else []);
    }

    /** `Containers.ListContainersAsync`. The library only ever asks with
        `All = true`, so the answer is every container. */
    method ListContainers(all: bool) returns (r: Result<seq<ContainerListResponse>, Exception>)
      modifies this
      ensures trace == old(trace) + [Request.ListContainers(all)]
      ensures world == old(world) && open == old(open)
      ensures r == if Request.ListContainers(all) in rejected then Failure(DockerApiException)
                   else Success(world.containers)
    {
      var ok := Send(Request.ListContainers(all));
      if !ok {
        return Failure(DockerApiException);
      }
      return Success(world.containers);
    }

    /** `IDockerClient.Dispose`: releases the connection, locally. */
    method Dispose()
      modifies this
      ensures trace == old(trace) + [Release]
      ensures world == old(world) && !open
    {
      trace := trace + [Release];
      open := false;
    }
  }
}
