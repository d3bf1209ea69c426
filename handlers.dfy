/** The handler bodies both dispatchers share: each destructures the request
    body, calls one capability (delete may call two) and builds the result
    object. How a failure is reported differs between the two files, so a
    body ends in one of three ways and each dispatcher maps them itself. */
module Handlers {
  import opened Js
  import opened Capabilities
  import opened Paths

  /** A handler body produced a value, saw a capability-reported error, or
      something it evaluated or awaited threw. */
  datatype Step = Done(value: Value) | Reported(error: string) | Raised(message: string)

  /** The capability answered without a truthy `error`. */
  predicate Clean<T>(outcome: Completion<FsReply<T>>)
  {
    outcome.Normal? && !HasError(outcome.value)
  }

  /** Capability errors pass through verbatim: a rejected call propagates its
      message, a truthy `error` is surfaced as it is, and a result is only
      produced from a clean reply. */
  predicate Mirrors<T>(step: Step, outcome: Completion<FsReply<T>>)
  {
    && (outcome.Throw? ==> step == Raised(outcome.message))
    && (outcome.Normal? && HasError(outcome.value) ==> step == Reported(outcome.value.error))
    && (step.Done? ==> Clean(outcome))
  }

  /** One listing entry `{ name, path, type }`. */
  datatype Entry = Entry(name: string, path: string, kind: string)

  function EntryOf(dir: string, child: Child): Entry
  {
    Entry(child.filename,
          CollapseSlashes(dir + "/" + child.filename),
          if child.kind == "FILE" then "file" else "directory")
  }

  /** `children.map(...)`: one entry per child, in order. */
  function Entries(dir: string, children: seq<Child>): (es: seq<Entry>)
    ensures |es| == |children|
    ensures forall i :: 0 <= i < |es| ==>
      && es[i].name == children[i].filename
      && es[i].path == CollapseSlashes(dir + "/" + children[i].filename)
      && (es[i].kind == "file" <==> children[i].kind == "FILE")
      && (es[i].kind == "file" || es[i].kind == "directory")
  {
    seq(|children|, i requires 0 <= i < |children| => EntryOf(dir, children[i]))
  }

  function EntryValue(e: Entry): Value
  {
    Obj(map["name" := Str(e.name), "path" := Str(e.path), "type" := Str(e.kind)])
  }

  function FilesValue(es: seq<Entry>): Value
  {
    Obj(map["files" := Arr(seq(|es|, i requires 0 <= i < |es| => EntryValue(es[i])))])
  }

  /** No listed path holds a doubled slash, whatever the requested directory and file names. */
  lemma ListingPathsClean(dir: string, children: seq<Child>)
    ensures forall i :: 0 <= i < |children| ==> NoDoubleSlash(Entries(dir, children)[i].path)
  {
    forall i | 0 <= i < |children|
      ensures NoDoubleSlash(Entries(dir, children)[i].path)
    {
      CollapseHasNoDoubleSlash(dir + "/" + children[i].filename);
    }
  }

  /** Where nothing needs collapsing the entry path is the plain join. */
  lemma ListingPathPlain(dir: string, child: Child)
    requires NoDoubleSlash(dir) && NoDoubleSlash(child.filename)
    requires dir != [] && dir[|dir| - 1] != '/'
    requires child.filename != [] && child.filename[0] != '/'
    ensures EntryOf(dir, child).path == dir + "/" + child.filename
  {
    var joined := dir + "/" + child.filename;
    forall i | 0 <= i < |joined| - 1
      ensures !(joined[i] == '/' && joined[i + 1] == '/')
    {
      if i < |dir| - 1 {
        assert joined[i] == dir[i] && joined[i + 1] == dir[i + 1];
      } else if i > |dir| {
        assert joined[i] == child.filename[i - |dir| - 1] && joined[i + 1] == child.filename[i - |dir|];
      }
    }
    CollapseFixesClean(joined);
  }

  /** `{ path, encoding = 'utf8' } = data; fs.readFile(path, encoding)`;
      the result echoes the requested path. */
  function ReadFile(host: Host, data: Value): (r: Traced<Step>)
    ensures !Destructurable(data) ==> r == Traced(Raised(TypeErrorText(data, "path")), [])
    ensures Destructurable(data) ==>
      var path := Field(data, "path", Undefined);
      var encoding := Field(data, "encoding", Str("utf8"));
      && (Prop(data, "encoding") == Normal(Undefined) ==> encoding == Str("utf8"))
      && r.calls == [FsReadFile(path, encoding)]
      && Mirrors(r.result, host.readFile(path, encoding))
      && (r.result.Done? <==> Clean(host.readFile(path, encoding)))
      && (r.result.Done? ==>
            r.result.value == Obj(map["content" := Str(host.readFile(path, encoding).value.payload),
                                      "path" := path]))
  {
    if !Destructurable(data) then Traced(Raised(TypeErrorText(data, "path")), [])
    else
      var path := Field(data, "path", Undefined);
      var encoding := Field(data, "encoding", Str("utf8"));
      var calls := [FsReadFile(path, encoding)];
      match host.readFile(path, encoding)
      case Throw(m) => Traced(Raised(m), calls)
      case Normal(reply) =>
        if HasError(reply) then Traced(Reported(reply.error), calls)
        else Traced(Done(Obj(map["content" := Str(reply.payload), "path" := path])), calls)
  }

  /** `{ path, content } = data; fs.writeFile(path, content)`; the reported
      size is `content.length`, read only after a clean write. */
  function WriteFile(host: Host, data: Value): (r: Traced<Step>)
    ensures !Destructurable(data) ==> r == Traced(Raised(TypeErrorText(data, "path")), [])
    ensures Destructurable(data) ==>
      var path := Field(data, "path", Undefined);
      var content := Field(data, "content", Undefined);
      && r.calls == [FsWriteFile(path, content)]
      && Mirrors(r.result, host.writeFile(path, content))
      && (r.result.Done? <==> Clean(host.writeFile(path, content)) && Destructurable(content))
      && (Clean(host.writeFile(path, content)) && !Destructurable(content) ==>
            r.result == Raised(TypeErrorText(content, "length")))
      && (r.result.Done? ==>
            r.result.value == Obj(map["path" := path, "size" := Prop(content, "length").value]))
      && (r.result.Done? && content.Str? ==>
            r.result.value == Obj(map["path" := path, "size" := Num(|content.s|)]))
  {
    if !Destructurable(data) then Traced(Raised(TypeErrorText(data, "path")), [])
    else
      var path := Field(data, "path", Undefined);
      var content := Field(data, "content", Undefined);
      var calls := [FsWriteFile(path, content)];
      match host.writeFile(path, content)
      case Throw(m) => Traced(Raised(m), calls)
      case Normal(reply) =>
        if HasError(reply) then Traced(Reported(reply.error), calls)
        else
          match Prop(content, "length")
          case Throw(m) => Traced(Raised(m), calls)
          case Normal(size) => Traced(Done(Obj(map["path" := path, "size" := size])), calls)
  }

  /** `{ path = '.', recursive = false } = data; fs.readDir(path)`; one
      entry per child. `recursive` is bound and never read. */
  function ListFiles(host: Host, data: Value): (r: Traced<Step>)
    ensures !Destructurable(data) ==> r == Traced(Raised(TypeErrorText(data, "path")), [])
    ensures Destructurable(data) ==>
      var path := Field(data, "path", Str("."));
      && (Prop(data, "path") == Normal(Undefined) ==> path == Str("."))
      && r.calls == [FsReadDir(path)]
      && Mirrors(r.result, host.readDir(path))
      && (r.result.Done? <==> Clean(host.readDir(path)))
      && (r.result.Done? ==>
            r.result.value == FilesValue(Entries(ToStr(path), host.readDir(path).value.payload)))
  {
    if !Destructurable(data) then Traced(Raised(TypeErrorText(data, "path")), [])
    else
      var path := Field(data, "path", Str("."));
      var calls := [FsReadDir(path)];
      match host.readDir(path)
      case Throw(m) => Traced(Raised(m), calls)
      case Normal(reply) =>
        if HasError(reply) then Traced(Reported(reply.error), calls)
        else Traced(Done(FilesValue(Entries(ToStr(path), reply.payload))), calls)
  }

  /** `recursive` has no effect: listings that differ only in it are identical. */
  lemma ListIgnoresRecursive(host: Host, props: map<string, Value>, r1: Value, r2: Value)
    ensures ListFiles(host, Obj(props["recursive" := r1])) == ListFiles(host, Obj(props["recursive" := r2]))
  {
  }

  /** `{ path } = data; fs.createDir(path)`; the result is `{ path }`. */
  function CreateDirectory(host: Host, data: Value): (r: Traced<Step>)
    ensures !Destructurable(data) ==> r == Traced(Raised(TypeErrorText(data, "path")), [])
    ensures Destructurable(data) ==>
      var path := Field(data, "path", Undefined);
      && r.calls == [FsCreateDir(path)]
      && Mirrors(r.result, host.createDir(path))
      && (r.result.Done? <==> Clean(host.createDir(path)))
      && (r.result.Done? ==> r.result.value == Obj(map["path" := path]))
  {
    if !Destructurable(data) then Traced(Raised(TypeErrorText(data, "path")), [])
    else
      var path := Field(data, "path", Undefined);
      var calls := [FsCreateDir(path)];
      match host.createDir(path)
      case Throw(m) => Traced(Raised(m), calls)
      case Normal(reply) =>
        if HasError(reply) then Traced(Reported(reply.error), calls)
        else Traced(Done(Obj(map["path" := path])), calls)
  }

  /** Two-phase delete: `fs.deleteFile(path)`, and only when that reports an
      error, `fs.deleteDir(path)`. It fails only when both fail, with the
      second error; a throw from either call propagates. */
  function Delete(host: Host, data: Value): (r: Traced<Step>)
    ensures !Destructurable(data) ==> r == Traced(Raised(TypeErrorText(data, "path")), [])
    ensures Destructurable(data) ==>
      var path := Field(data, "path", Undefined);
      var first := host.deleteFile(path);
      var fallBack := first.Normal? && HasError(first.value);
      && r.calls == [FsDeleteFile(path)] + (if fallBack then [FsDeleteDir(path)] else [])
      && (first.Throw? ==> r.result == Raised(first.message))
      && (fallBack ==> Mirrors(r.result, host.deleteDir(path)))
      && (r.result.Done? <==> Clean(first) || (fallBack && Clean(host.deleteDir(path))))
      && (r.result.Done? ==> r.result.value == Obj(map["path" := path]))
  {
    if !Destructurable(data) then Traced(Raised(TypeErrorText(data, "path")), [])
    else
      var path := Field(data, "path", Undefined);
      match host.deleteFile(path)
      case Throw(m) => Traced(Raised(m), [FsDeleteFile(path)])
      case Normal(reply) =>
        if !HasError(reply) then Traced(Done(Obj(map["path" := path])), [FsDeleteFile(path)])
        else
          var calls := [FsDeleteFile(path), FsDeleteDir(path)];
          match host.deleteDir(path)
          case Throw(m) => Traced(Raised(m), calls)
          case Normal(reply2) =>
            if HasError(reply2) then Traced(Reported(reply2.error), calls)
            else Traced(Done(Obj(map["path" := path])), calls)
  }

  /** `{ from, to } = data; fs.move(from, to)` or `fs.copyFile(from, to)`;
      the result is `{ from, to }`. */
  function Transfer(host: Host, data: Value, copy: bool): (r: Traced<Step>)
    ensures !Destructurable(data) ==> r == Traced(Raised(TypeErrorText(data, "from")), [])
    ensures Destructurable(data) ==>
      var from := Field(data, "from", Undefined);
      var to := Field(data, "to", Undefined);
      var outcome := if copy then host.copyFile(from, to) else host.move(from, to);
      && r.calls == [if copy then FsCopyFile(from, to) else FsMove(from, to)]
      && Mirrors(r.result, outcome)
      && (r.result.Done? <==> Clean(outcome))
      && (r.result.Done? ==> r.result.value == Obj(map["from" := from, "to" := to]))
  {
    if !Destructurable(data) then Traced(Raised(TypeErrorText(data, "from")), [])
    else
      var from := Field(data, "from", Undefined);
      var to := Field(data, "to", Undefined);
      var calls := [if copy then FsCopyFile(from, to) else FsMove(from, to)];
      match (if copy then host.copyFile(from, to) else host.move(from, to))
      case Throw(m) => Traced(Raised(m), calls)
      case Normal(reply) =>
        if HasError(reply) then Traced(Reported(reply.error), calls)
        else Traced(Done(Obj(map["from" := from, "to" := to])), calls)
  }

  /** The options object `{ env: options.env || {} }` handed to `exec.exec`. */
  function ExecOptions(options: Value): Value
    requires Destructurable(options)
  {
    var env := Prop(options, "env").value;
    Obj(map["env" := if Truthy(env) then env else Obj(map[])])
  }

  /** `{ command, options = {} } = data; exec.exec(command, { env })`: any
      returned result is a success, whatever its exit code; only a throw
      fails, and so does a null `options`. */
  function ExecuteCommand(host: Host, data: Value): (r: Traced<Step>)
    ensures !Destructurable(data) ==> r == Traced(Raised(TypeErrorText(data, "command")), [])
    ensures Destructurable(data) ==>
      var command := Field(data, "command", Undefined);
      var options := Field(data, "options", Obj(map[]));
      && (options.Null? ==> r == Traced(Raised(TypeErrorText(Null, "env")), []))
      && (Destructurable(options) ==>
            && r.calls == [ExecCommand(command, ExecOptions(options))]
            && (Prop(options, "env").value.Undefined? ==> ExecOptions(options) == Obj(map["env" := Obj(map[])]))
            && (r.result.Done? <==> host.exec(command, ExecOptions(options)).Normal?)
            && (r.result.Done? ==>
                  var res := host.exec(command, ExecOptions(options)).value;
                  r.result.value == Obj(map["command" := command, "exitCode" := Num(res.exitCode),
                                            "output" := Str(res.output)]))
            && (r.result.Raised? ==> r.result.message == host.exec(command, ExecOptions(options)).message))
    ensures !r.result.Reported?
  {
    if !Destructurable(data) then Traced(Raised(TypeErrorText(data, "command")), [])
    else
      var command := Field(data, "command", Undefined);
      var options := Field(data, "options", Obj(map[]));
      if !Destructurable(options) then Traced(Raised(TypeErrorText(options, "env")), [])
      else
        var opts := ExecOptions(options);
        var calls := [ExecCommand(command, opts)];
        match host.exec(command, opts)
        case Throw(m) => Traced(Raised(m), calls)
        case Normal(res) =>
          Traced(Done(Obj(map["command" := command, "exitCode" := Num(res.exitCode),
                              "output" := Str(res.output)])), calls)
  }

  function WorkspaceValue(user: User, repl: Repl): Value
  {
    Obj(map[
      "workspace" := Obj(map["id" := repl.id, "title" := repl.title, "description" := repl.description,
                             "language" := repl.slug, "url" := repl.url]),
      "bridge" := Obj(map["status" := Str("connected")]),
      "user" := Obj(map["username" := user.username, "id" := user.id])])
  }

  /** `currentUser()` then `currentRepl()`, aggregated into one object; the
      second lookup is made only if the first one returned. */
  function WorkspaceInfo(host: Host): (r: Traced<Step>)
    ensures r.calls == [DataCurrentUser] + (if host.currentUser.Normal? then [DataCurrentRepl] else [])
    ensures r.result.Done? <==> host.currentUser.Normal? && host.currentRepl.Normal?
    ensures r.result.Done? ==> r.result.value == WorkspaceValue(host.currentUser.value, host.currentRepl.value)
    ensures host.currentUser.Throw? ==> r.result == Raised(host.currentUser.message)
    ensures host.currentUser.Normal? && host.currentRepl.Throw? ==> r.result == Raised(host.currentRepl.message)
  {
    match host.currentUser
    case Throw(m) => Traced(Raised(m), [DataCurrentUser])
    case Normal(user) =>
      match host.currentRepl
      case Throw(m) => Traced(Raised(m), [DataCurrentUser, DataCurrentRepl])
      case Normal(repl) => Traced(Done(WorkspaceValue(user, repl)), [DataCurrentUser, DataCurrentRepl])
  }
}
