/** The records procri keeps in its data store, and the small result types shared by all modules. */
module Records {

  datatype Option<+T> = None | Some(value: T)

  /** What a handler returns to its gRPC caller. */
  datatype Result<+T> = Ok(value: T) | Err(error: Error)

  datatype Error =
    | InvalidParameter
    | SymlinkFailed
    | AlreadyExists
    | NotFound
    | StartFailed
    | NotStarted
    | ContextDone

  /** The states of the runtime interface that procri writes; CONTAINER_UNKNOWN is never stored. */
  datatype ContainerState = Created | Running | Exited

  datatype SandboxState = Ready | NotReady

  datatype Container = Container(
    id: string,
    podID: string,
    name: string,
    attempt: nat,
    args: seq<string>,
    command: seq<string>,
    env: seq<string>,
    workingDir: string,
    logPath: string,
    pid: int,
    createdAt: int,
    startedAt: int,
    finishedAt: int,
    exitCode: int,
    image: string,
    state: ContainerState,
    labels: map<string, string>,
    annotations: map<string, string>)

  datatype Sandbox = Sandbox(
    id: string,
    name: string,
    namespace: string,
    uid: string,
    attempt: nat,
    createdAt: int,
    hostname: string,
    logDirectory: string,
    state: SandboxState,
    labels: map<string, string>,
    annotations: map<string, string>,
    containers: seq<string>)
}
