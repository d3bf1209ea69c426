/** The host capabilities the handlers delegate to (the editor's `fs`,
    `exec` and `data` APIs). Their behaviour is not modelled: a `Host`
    value fixes what each call answers, and handlers report the calls they
    issue, in order, so that the effects they request can be stated. */
module Capabilities {
  import opened Js

  /** A file-system reply `{ error?, ... }`. `error` is "" when no error was
      reported; a handler treats the reply as failed when `error` is truthy. */
  datatype FsReply<T> = FsReply(error: string, payload: T)

  /** `if (result.error)`: an empty error string is falsy and so reads as success. */
  predicate HasError<T>(reply: FsReply<T>)
  {
    reply.error != ""
  }

  /** One entry of a directory listing, `{ filename, type }`. */
  datatype Child = Child(filename: string, kind: string)

  datatype ExecResult = ExecResult(exitCode: int, output: string)

  /** The fields of `currentRepl().repl` and `currentUser().user` that are read. */
  datatype Repl = Repl(id: Value, title: Value, description: Value, slug: Value, url: Value)
  datatype User = User(username: Value, id: Value)

  /** What each capability answers. `now` is the ISO time stamp the clock would give. */
  datatype Host = Host(
    readFile: (Value, Value) -> Completion<FsReply<string>>,
    writeFile: (Value, Value) -> Completion<FsReply<()>>,
    readDir: Value -> Completion<FsReply<seq<Child>>>,
    createDir: Value -> Completion<FsReply<()>>,
    deleteFile: Value -> Completion<FsReply<()>>,
    deleteDir: Value -> Completion<FsReply<()>>,
    move: (Value, Value) -> Completion<FsReply<()>>,
    copyFile: (Value, Value) -> Completion<FsReply<()>>,
    exec: (Value, Value) -> Completion<ExecResult>,
    currentUser: Completion<User>,
    currentRepl: Completion<Repl>,
    now: string)

  /** A capability call with the arguments it was given. */
  datatype CapCall =
    | FsReadFile(path: Value, encoding: Value)
    | FsWriteFile(path: Value, content: Value)
    | FsReadDir(path: Value)
    | FsCreateDir(path: Value)
    | FsDeleteFile(path: Value)
    | FsDeleteDir(path: Value)
    | FsMove(from: Value, to: Value)
    | FsCopyFile(from: Value, to: Value)
    | ExecCommand(command: Value, env: Value)
    | DataCurrentUser
    | DataCurrentRepl

  /** A result together with the capability calls made to compute it. */
  datatype Traced<T> = Traced(result: T, calls: seq<CapCall>)
}
