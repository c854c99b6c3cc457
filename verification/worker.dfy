/** The web worker that hosts the Python runtime: its `ready` flag, the
    environment set-up with a fallback for every package install, the lookup
    of API calls, and the one reply it posts for every message.  Loading the
    runtime and installing packages are inputs: which install targets
    succeed and what each failure says. */
module Worker {
  import opened Text

  /** The worker's own origin followed by `path`, unless `path` is already
      an absolute `http://` or `https://` URL. */
  function ResolveUrl(origin: string, path: string): (url: string)
    ensures StartsWith(path, "http://") || StartsWith(path, "https://") ==> url == path
    ensures !(StartsWith(path, "http://") || StartsWith(path, "https://")) ==>
      && |url| == |origin| + |path| + (if StartsWith(path, "/") then 0 else 1)
      && StartsWith(url, origin) && EndsWith(url, path)
      && url[|origin|] == '/'
  {
    if StartsWith(path, "http://") || StartsWith(path, "https://") then path
    else if StartsWith(path, "/") then origin + path
    else origin + "/" + path
  }

  /** With an `http` or `https` origin, resolving twice changes nothing. */
  lemma ResolveUrlIdempotent(origin: string, path: string)
    requires StartsWith(origin, "http://") || StartsWith(origin, "https://")
    ensures ResolveUrl(origin, ResolveUrl(origin, path)) == ResolveUrl(origin, path)
  {
    var url := ResolveUrl(origin, path);
    if !(StartsWith(path, "http://") || StartsWith(path, "https://")) {
      if StartsWith(origin, "http://") {
        assert url[..7] == origin[..7];
      } else {
        assert url[..8] == origin[..8];
      }
    }
  }

  const IfctesterPypiUrl: string :=
    "https://files.pythonhosted.org/packages/8c/98/98afa5fa347361b8d0f421b1c5059ef960a455f89b8235e6ceed33c0e796/ifctester-0.8.3-py3-none-any.whl"

  /** The `wasm` section of the bundled configuration. */
  datatype Config = Config(wheelUrl: string, odfpyUrl: string, ifctesterUrl: Option<string>)

  /** What set-up meets: the origin, the configuration, whether loading the
      runtime, its bundled packages, `shapely` and the two Python modules
      fails (with the message), which install targets succeed, and the
      message an install of each target fails with. */
  datatype Environment = Environment(
    origin: string,
    config: Config,
    pyodideError: Option<string>,
    packagesError: Option<string>,
    shapelyError: Option<string>,
    initError: Option<string>,
    installable: set<string>,
    installError: string -> string)

  /** One package install: the local target, then the fallback. */
  datatype Step = Step(primary: string, fallback: string)

  function Attempts(step: Step, installable: set<string>): (r: seq<string>)
    ensures 1 <= |r| <= 2 && r[0] == step.primary
    ensures |r| == 1 <==> step.primary in installable
    ensures |r| == 2 ==> r[1] == step.fallback
  {
    if step.primary in installable then [step.primary] else [step.primary, step.fallback]
  }

  predicate StepSucceeds(step: Step, installable: set<string>)
  {
    step.primary in installable || step.fallback in installable
  }

  predicate Configured(url: Option<string>)
  {
    url.Some? && url.value != ""
  }

  function IfcOpenShellStep(env: Environment): Step
  {
    Step(ResolveUrl(env.origin, env.config.wheelUrl), "ifcopenshell")
  }

  function OdfpyStep(env: Environment): Step
  {
    Step(ResolveUrl(env.origin, env.config.odfpyUrl), "odfpy")
  }

  function IfctesterStep(env: Environment): Step
  {
    var primary := if Configured(env.config.ifctesterUrl) then ResolveUrl(env.origin, env.config.ifctesterUrl.value) else "ifctester";
    Step(primary, IfctesterPypiUrl)
  }

  function IfcOpenShellFailure(env: Environment): string
  {
    "Failed to install IfcOpenShell. Please ensure the wheel file is available at " + env.config.wheelUrl
    + " or internet access is available. Error: " + env.installError(IfcOpenShellStep(env).primary)
  }

  function OdfpyFailure(env: Environment): string
  {
    "Failed to install odfpy. Please ensure the wheel file is available at " + env.config.odfpyUrl
    + " or internet access is available."
  }

  function IfctesterFailure(env: Environment): string
  {
    var localUrl := if Configured(env.config.ifctesterUrl) then IfctesterStep(env).primary else "not configured";
    "Failed to install ifctester: " + env.installError(IfctesterStep(env).primary)
    + ". Make sure ifctester wheel is available locally at " + localUrl + " or internet access is available."
  }

  /** Every stage of set-up succeeds. */
  predicate InitSucceeds(env: Environment)
  {
    && env.pyodideError.None? && env.packagesError.None?
    && StepSucceeds(IfcOpenShellStep(env), env.installable)
    && StepSucceeds(OdfpyStep(env), env.installable)
    && env.shapelyError.None?
    && StepSucceeds(IfctesterStep(env), env.installable)
    && env.initError.None?
  }

  /** What one set-up run does: the install targets it tries in order,
      whether the runtime got loaded, and the error it stops at. */
  datatype InitRun = InitRun(attempts: seq<string>, pyodideLoaded: bool, error: Option<string>)

  function RunInit(env: Environment): InitRun
  {
    if env.pyodideError.Some? then InitRun([], false, env.pyodideError)
    else if env.packagesError.Some? then InitRun([], true, env.packagesError)
    else InstallRun(env)
  }

  /** `run` after the install targets `tried`. */
  function After(tried: seq<string>, run: InitRun): InitRun
  {
    run.(attempts := tried + run.attempts)
  }

  lemma AppendAfter(before: seq<string>, tried: seq<string>, rest: seq<string>)
    ensures (before + tried) + rest == before + (tried + rest)
  {
  }

  /** The installs, once the runtime and its bundled packages are loaded. */
  function InstallRun(env: Environment): InitRun
  {
    var step := IfcOpenShellStep(env);
    if !StepSucceeds(step, env.installable) then InitRun(Attempts(step, env.installable), true, Some(IfcOpenShellFailure(env)))
    else After(Attempts(step, env.installable), OdfpyRun(env))
  }

  function OdfpyRun(env: Environment): InitRun
  {
    var step := OdfpyStep(env);
    if !StepSucceeds(step, env.installable) then InitRun(Attempts(step, env.installable), true, Some(OdfpyFailure(env)))
    else if env.shapelyError.Some? then InitRun(Attempts(step, env.installable), true, env.shapelyError)
    else After(Attempts(step, env.installable), IfctesterRun(env))
  }

  function IfctesterRun(env: Environment): InitRun
  {
    var step := IfctesterStep(env);
    if !StepSucceeds(step, env.installable) then InitRun(Attempts(step, env.installable), true, Some(IfctesterFailure(env)))
    else InitRun(Attempts(step, env.installable), true, env.initError)
  }

  /** Set-up ends without an error exactly when every stage succeeds. */
  lemma RunInitFailsUnlessAllSucceed(env: Environment)
    ensures RunInit(env).error.None? <==> InitSucceeds(env)
  {
  }

  /** When every local target installs, no fallback is ever tried. */
  lemma LocalInstallsNeedNoFallback(env: Environment)
    requires env.pyodideError.None? && env.packagesError.None? && env.shapelyError.None?
    requires IfcOpenShellStep(env).primary in env.installable
    requires OdfpyStep(env).primary in env.installable
    requires IfctesterStep(env).primary in env.installable
    ensures RunInit(env).attempts == [IfcOpenShellStep(env).primary, OdfpyStep(env).primary, IfctesterStep(env).primary]
  {
  }

  /** The kinds of message the page sends. */
  datatype MessageKind = InitMessage | ApiCallMessage | OtherMessage(name: string)

  datatype Message = Message(kind: MessageKind, callName: string, id: string)

  /** Who produced an API call's answer. */
  datatype Payload = CleanedUp | FromApi(callName: string) | FromIds(callName: string)

  datatype ReplyKind = Ready | ApiResponse(payload: Payload) | Error(message: string)

  datatype Reply = Reply(kind: ReplyKind, id: string)

  /** The two tables of callable functions and the message each function
      throws, when it throws. */
  datatype Host = Host(apiNames: set<string>, idsNames: set<string>, throwing: map<string, string>)

  const CleanupMethod: string := "internal.cleanup"

  /** The function an API call runs: the clean-up, the API table before the
      IDS table, or an unknown method. */
  function LookUp(callName: string, host: Host): (r: Result<Payload, string>)
    ensures callName == CleanupMethod ==> r == Ok(CleanedUp)
    ensures callName != CleanupMethod && callName in host.apiNames ==> r == Ok(FromApi(callName))
    ensures callName != CleanupMethod && callName !in host.apiNames && callName in host.idsNames ==> r == Ok(FromIds(callName))
    ensures r.Err? <==> callName != CleanupMethod && callName !in host.apiNames && callName !in host.idsNames
  {
    if callName == CleanupMethod then Ok(CleanedUp)
    else if callName in host.apiNames then Ok(FromApi(callName))
    else if callName in host.idsNames then Ok(FromIds(callName))
    else Err("[worker] Unknown API method: " + callName)
  }

  /** A name in both tables is always answered by the API table. */
  lemma ApiTableShadowsIds(callName: string, host: Host)
    requires callName != CleanupMethod && callName in host.apiNames && callName in host.idsNames
    ensures LookUp(callName, host) == Ok(FromApi(callName))
  {
  }

  /** What an API call produces: the function's answer, or the message it
      or the lookup throws. */
  function CallResult(callName: string, host: Host): (r: Result<Payload, string>)
    ensures LookUp(callName, host).Err? ==> r == LookUp(callName, host)
    ensures r.Ok? ==> r == LookUp(callName, host)
    ensures r.Err? && LookUp(callName, host).Ok? ==> callName in host.throwing && r.error == host.throwing[callName]
  {
    var found := LookUp(callName, host);
    if callName != CleanupMethod && found.Ok? && callName in host.throwing then Err(host.throwing[callName]) else found
  }

  /** The reply to an API call once the worker is ready. */
  function CallReply(result: Result<Payload, string>): ReplyKind
  {
    if result.Ok? then ApiResponse(result.value) else Error(result.error)
  }

  /** The worker's module state and the replies it has posted. */
  class WasmWorker {
    var ready: bool
    var pyodideLoaded: bool
    var attempts: seq<string>
    var replies: seq<Reply>

    constructor()
      ensures !ready && !pyodideLoaded && attempts == [] && replies == []
    {
      ready := false;
      pyodideLoaded := false;
      attempts := [];
      replies := [];
    }

    /** One install: the local target, and the fallback only if that fails. */
    method Install(step: Step, installable: set<string>) returns (ok: bool)
      modifies this`attempts
      ensures ok == StepSucceeds(step, installable)
      ensures attempts == old(attempts) + Attempts(step, installable)
    {
      attempts := attempts + [step.primary];
      if step.primary in installable {
        return true;
      }
      attempts := attempts + [step.fallback];
      ok := step.fallback in installable;
    }

    /** Set-up: nothing when ready; otherwise every stage in order, and
        `ready` only once all of them have succeeded. */
    method InitEnvironment(env: Environment) returns (error: Option<string>)
      modifies this`ready, this`pyodideLoaded, this`attempts
      ensures old(ready) ==> error.None? && ready && pyodideLoaded == old(pyodideLoaded) && attempts == old(attempts)
      ensures !old(ready) ==>
        && error == RunInit(env).error
        && attempts == old(attempts) + RunInit(env).attempts
        && pyodideLoaded == (old(pyodideLoaded) || RunInit(env).pyodideLoaded)
        && (ready <==> error.None?)
    {
      if ready {
        return None;
      }
      if env.pyodideError.Some? {
        return env.pyodideError;
      }
      pyodideLoaded := true;
      if env.packagesError.Some? {
        return env.packagesError;
      }
      error := InstallAll(env);
      if error.None? {
        ready := true;
      }
    }

    /** The installs in order, each with its fallback, stopping at the
        first that fails, then `shapely` and the Python modules. */
    method InstallAll(env: Environment) returns (error: Option<string>)
      modifies this`attempts
      ensures error == InstallRun(env).error && attempts == old(attempts) + InstallRun(env).attempts
    {
      var ok := Install(IfcOpenShellStep(env), env.installable);
      if !ok {
        return Some(IfcOpenShellFailure(env));
      }
      error := InstallFromOdfpy(env);
      AppendAfter(old(attempts), Attempts(IfcOpenShellStep(env), env.installable), OdfpyRun(env).attempts);
    }

    method InstallFromOdfpy(env: Environment) returns (error: Option<string>)
      modifies this`attempts
      ensures error == OdfpyRun(env).error && attempts == old(attempts) + OdfpyRun(env).attempts
    {
      var ok := Install(OdfpyStep(env), env.installable);
      if !ok {
        return Some(OdfpyFailure(env));
      }
      if env.shapelyError.Some? {
        return env.shapelyError;
      }
      ok := Install(IfctesterStep(env), env.installable);
      AppendAfter(old(attempts), Attempts(OdfpyStep(env), env.installable), IfctesterRun(env).attempts);
      if !ok {
        return Some(IfctesterFailure(env));
      }
      error := env.initError;
    }

    /** An API call: the clean-up resets the state; a known function
        answers unless it throws. */
    method HandleApiCall(callName: string, host: Host) returns (result: Result<Payload, string>)
      modifies this`ready, this`pyodideLoaded
      ensures callName == CleanupMethod ==> result == Ok(CleanedUp) && !ready && !pyodideLoaded
      ensures callName != CleanupMethod ==> ready == old(ready) && pyodideLoaded == old(pyodideLoaded)
      ensures result == CallResult(callName, host)
    {
      if callName == CleanupMethod {
        ready := false;
        pyodideLoaded := false;
        return Ok(CleanedUp);
      }
      result := LookUp(callName, host);
      if result.Ok? && callName in host.throwing {
        result := Err(host.throwing[callName]);
      }
    }

    /** A message: exactly one reply, with the message's id. */
    method HandleMessage(message: Message, env: Environment, host: Host)
      modifies this
      ensures |replies| == |old(replies)| + 1 && replies[..|old(replies)|] == old(replies)
      ensures replies[|replies| - 1].id == message.id
      ensures message.kind.InitMessage? ==>
        (replies[|replies| - 1].kind == Ready <==> old(ready) || InitSucceeds(env))
      ensures message.kind.InitMessage? ==> (ready <==> old(ready) || InitSucceeds(env))
      ensures message.kind.InitMessage? && !old(ready) && !InitSucceeds(env) ==>
        RunInit(env).error.Some? && replies[|replies| - 1].kind == Error(RunInit(env).error.value)
      ensures message.kind.ApiCallMessage? && !old(ready) ==>
        replies[|replies| - 1].kind == Error("[worker] Pyodide not initialized")
        && ready == old(ready) && attempts == old(attempts)
      ensures message.kind.ApiCallMessage? && old(ready) ==>
        replies[|replies| - 1].kind == CallReply(CallResult(message.callName, host))
      ensures message.kind.OtherMessage? ==>
        replies[|replies| - 1].kind == Error("[worker] Unknown message type: " + message.kind.name)
        && ready == old(ready) && attempts == old(attempts)
    {
      match message.kind
      case InitMessage =>
        var error := InitEnvironment(env);
        RunInitFailsUnlessAllSucceed(env);
        if error.None? {
          replies := replies + [Reply(Ready, message.id)];
        } else {
          replies := replies + [Reply(Error(error.value), message.id)];
        }
      case ApiCallMessage =>
        if !ready {
          replies := replies + [Reply(Error("[worker] Pyodide not initialized"), message.id)];
        } else {
          var result := HandleApiCall(message.callName, host);
          replies := replies + [Reply(CallReply(result), message.id)];
        }
      case OtherMessage(name) =>
        replies := replies + [Reply(Error("[worker] Unknown message type: " + name), message.id)];
    }
  }
}
