/** The agent side of the default-device hook (`DefaultDeviceHook.EntryPoint`),
    which runs inside the target process.

    Two behaviours are modelled: the replacement for
    `IMMDeviceEnumerator::GetDefaultAudioEndpoint` installed by the hook
    (`Intercept`), and the lifecycle of `Run`, which installs the hook, polls
    `CanUnload` and disposes the hook. Native methods and remote calls are
    oracles that return a value or throw; the agent's observable behaviour is
    the sequence of calls it makes and the answer it gives. */
module HookEntryPoint {
  import opened Outcomes
  import opened AudioTypes
  import DefaultDeviceHook

  /** What a native `GetDefaultAudioEndpoint`/`GetDevice` call produces: the
      HRESULT and the pointer written to `ppEndpoint`. */
  datatype EndpointResult = EndpointResult(status: int, endpoint: nat)

  /** The native enumerator `self` the intercept receives, seen through the
      two methods it calls. `original` is the unhooked default-endpoint
      method (a call made from inside the handler is not intercepted again). */
  datatype NativeEnumerator = NativeEnumerator(
    original: (DataFlow, Role) -> Outcome<EndpointResult>,
    getDevice: DefaultDeviceHook.DeviceId -> Outcome<EndpointResult>)

  /** The agent's proxy for the host's `RemoteInterface`; every call may
      throw (a remoting failure or an exception raised on the host).
      `CanUnload` reads the host object, whose state is passed to it. */
  datatype RemoteProxy = RemoteProxy(
    getDefaultDevice: (DataFlow, Role) -> Outcome<DefaultDeviceHook.DeviceId>,
    canUnload: DefaultDeviceHook.Host -> Outcome<bool>,
    reportError: (int, Fault) -> Outcome<()>)

  /** The IPC channel between agent and host. */
  datatype Channel = Connected | Broken(fault: Fault)

  /** The proxy for the host object `ri` over channel `ch`: a broken channel
      makes every call throw; a connected one returns what the host returns. */
  function Proxy(ch: Channel, ri: DefaultDeviceHook.RemoteInterface): (p: RemoteProxy)
    ensures forall flow, role :: (
      p.getDefaultDevice(flow, role) ==
      if ch.Broken? then Throws(ch.fault) else DefaultDeviceHook.GetDefaultDevice(ri, flow, role))
    ensures forall w :: (
      p.canUnload(w) ==
      if ch.Broken? then Throws(ch.fault) else DefaultDeviceHook.CanUnload(ri, w))
    ensures forall pid, e :: (
      p.reportError(pid, e) ==
      if ch.Broken? then Throws(ch.fault) else DefaultDeviceHook.ReportError(ri, pid, e).outcome)
  {
    RemoteProxy(
      (flow: DataFlow, role: Role) =>
        if ch.Broken? then Throws(ch.fault) else DefaultDeviceHook.GetDefaultDevice(ri, flow, role),
      (w: DefaultDeviceHook.Host) =>
        if ch.Broken? then Throws(ch.fault) else DefaultDeviceHook.CanUnload(ri, w),
      (pid: int, e: Fault) =>
        if ch.Broken? then Throws(ch.fault) else DefaultDeviceHook.ReportError(ri, pid, e).outcome)
  }

  /** An `EntryPoint` object; its `Interface` field may be null. */
  datatype EntryPoint = EntryPoint(iface: Option<RemoteProxy>)

  /** A call the intercept makes. */
  datatype AgentEvent =
    | CalledOriginal(flow: DataFlow, role: Role)
    | Resolved(flow: DataFlow, role: Role)
    | LookedUp(deviceId: DefaultDeviceHook.DeviceId)
    | ReportedError(processId: int, fault: Fault)

  /** The calls made by one intercepted call, and its answer. */
  datatype Intercepted = Intercepted(events: seq<AgentEvent>, result: Outcome<EndpointResult>)

  /** The hook's callback is an `EntryPoint` with a non-null `Interface`. */
  predicate Redirectable(callback: Option<EntryPoint>)
  {
    callback.Some? && callback.value.iface.Some?
  }

  /** The exception raised inside the intercept's `try` block, if any: the
      resolver's, or else the one `GetDevice` raises for the resolved id. */
  function TryFault(p: RemoteProxy, self: NativeEnumerator, flow: DataFlow, role: Role): Option<Fault>
  {
    match p.getDefaultDevice(flow, role)
    case Throws(f) => Some(f)
    case Ok(id) => if self.getDevice(id).Throws? then Some(self.getDevice(id).fault) else None
  }

  /** The `try` block's calls before any exception: the resolver, then
      `GetDevice` when the resolver returned. */
  function TryEvents(p: RemoteProxy, flow: DataFlow, role: Role): seq<AgentEvent>
  {
    match p.getDefaultDevice(flow, role)
    case Throws(_) => [Resolved(flow, role)]
    case Ok(id) => [Resolved(flow, role), LookedUp(id)]
  }

  /** The intercept's `catch` block as written: report the exception (this
      call is not itself guarded), then return the original's answer. */
  function Recover(p: RemoteProxy, self: NativeEnumerator, processId: int, flow: DataFlow, role: Role,
                   tried: seq<AgentEvent>, f: Fault): (r: Intercepted)
    ensures |r.events| > |tried| && r.events[..|tried|] == tried
    ensures r.events[|tried|] == ReportedError(processId, f)
    ensures ReportedError(processId, f) in r.events
    ensures p.reportError(processId, f).Ok? ==>
      r.result == self.original(flow, role) && r.events[|tried| + 1..] == [CalledOriginal(flow, role)]
    ensures p.reportError(processId, f).Throws? ==>
      r.result == Throws(p.reportError(processId, f).fault) && |r.events| == |tried| + 1
  {
    match p.reportError(processId, f)
    case Throws(g) => Intercepted(tried + [ReportedError(processId, f)], Throws(g))
    case Ok(_) =>
      Intercepted(tried + [ReportedError(processId, f), CalledOriginal(flow, role)], self.original(flow, role))
  }

  /** The replacement `GetDefaultAudioEndpoint`, as written. Without a usable
      callback it calls the original and never consults the host. Otherwise
      it asks the resolver, passes whatever id comes back (the empty string
      and null included) to `GetDevice` and returns that answer; if either throws, it
      reports the exception once and falls back to the original, unless the
      report itself throws, in which case that exception escapes. */
  function Intercept(callback: Option<EntryPoint>, self: NativeEnumerator, processId: int,
                     flow: DataFlow, role: Role): (r: Intercepted)
    ensures !Redirectable(callback) ==>
      r == Intercepted([CalledOriginal(flow, role)], self.original(flow, role))
    ensures Redirectable(callback) ==>
      var p := callback.value.iface.value;
      && |r.events| >= 1
      && r.events[0] == Resolved(flow, role)
      && (TryFault(p, self, flow, role).None? ==>
            var id := p.getDefaultDevice(flow, role).value;
            r == Intercepted([Resolved(flow, role), LookedUp(id)], self.getDevice(id)))
      && (TryFault(p, self, flow, role).Some? ==>
            var f := TryFault(p, self, flow, role).value;
            var reported := TryEvents(p, flow, role) + [ReportedError(processId, f)];
            if p.reportError(processId, f).Ok? then
              r == Intercepted(reported + [CalledOriginal(flow, role)], self.original(flow, role))
            else
              r == Intercepted(reported, Throws(p.reportError(processId, f).fault)))
    // the original is used exactly when there is no callback or the redirect
    // failed and was reported
    ensures CalledOriginal(flow, role) in r.events <==>
      !Redirectable(callback)
      || (var p := callback.value.iface.value;
          TryFault(p, self, flow, role).Some? && p.reportError(processId, TryFault(p, self, flow, role).value).Ok?)
    ensures CalledOriginal(flow, role) in r.events ==> r.result == self.original(flow, role)
    // an error is reported exactly when the redirect failed
    ensures (exists e :: e in r.events && e.ReportedError?) <==>
      Redirectable(callback) && TryFault(callback.value.iface.value, self, flow, role).Some?
  {
    if !Redirectable(callback) then
      Intercepted([CalledOriginal(flow, role)], self.original(flow, role))
    else
      var p := callback.value.iface.value;
      match p.getDefaultDevice(flow, role)
      case Throws(f) => Recover(p, self, processId, flow, role, [Resolved(flow, role)], f)
      case Ok(id) =>
        match self.getDevice(id)
        case Ok(res) => Intercepted([Resolved(flow, role), LookedUp(id)], Ok(res))
        case Throws(f) => Recover(p, self, processId, flow, role, [Resolved(flow, role), LookedUp(id)], f)
  }

  /** The intercept with its report guarded the way `Run` guards its own:
      a failure to report is swallowed and the original is still used. */
  function InterceptGuarded(callback: Option<EntryPoint>, self: NativeEnumerator, processId: int,
                            flow: DataFlow, role: Role): (r: Intercepted)
    // never worse than unhooked: the redirected device, or the original's answer
    ensures r.result == self.original(flow, role)
      || (Redirectable(callback)
          && TryFault(callback.value.iface.value, self, flow, role).None?
          && r.result == self.getDevice(callback.value.iface.value.getDefaultDevice(flow, role).value))
    ensures Redirectable(callback) && TryFault(callback.value.iface.value, self, flow, role).Some? ==>
      r.result == self.original(flow, role)
    // it differs from the code as written only when the report throws
    ensures (!Redirectable(callback)
             || var p := callback.value.iface.value;
                TryFault(p, self, flow, role).None? || p.reportError(processId, TryFault(p, self, flow, role).value).Ok?)
            ==> r == Intercept(callback, self, processId, flow, role)
  {
    if !Redirectable(callback) then
      Intercepted([CalledOriginal(flow, role)], self.original(flow, role))
    else
      var p := callback.value.iface.value;
      match TryFault(p, self, flow, role)
      case None =>
        var id := p.getDefaultDevice(flow, role).value;
        Intercepted([Resolved(flow, role), LookedUp(id)], self.getDevice(id))
      case Some(f) =>
        Intercepted(TryEvents(p, flow, role) + [ReportedError(processId, f), CalledOriginal(flow, role)],
                    self.original(flow, role))
  }

  /** As written, a resolver failure followed by a failing report (a remoting
      timeout, say) makes the intercept throw, although the original would
      have answered; the guarded version answers with the original. */
  lemma ReportFailureEscapesIntercept()
    ensures
      var self := NativeEnumerator(
        (flow: DataFlow, role: Role) => Ok(EndpointResult(0, 7)),
        (id: DefaultDeviceHook.DeviceId) => Ok(EndpointResult(0, 9)));
      var p := RemoteProxy(
        (flow: DataFlow, role: Role) => Throws(Fault("resolver failed")),
        (w: DefaultDeviceHook.Host) => Ok(true),
        (pid: int, e: Fault) => Throws(Fault("remoting timeout")));
      var callback := Some(EntryPoint(Some(p)));
      && self.original(DataFlow.Render, Role.Console) == Ok(EndpointResult(0, 7))
      && Intercept(callback, self, 4321, DataFlow.Render, Role.Console).result == Throws(Fault("remoting timeout"))
      && InterceptGuarded(callback, self, 4321, DataFlow.Render, Role.Console).result == Ok(EndpointResult(0, 7))
  {
  }

  /** A call `Run` makes while the hook is alive. */
  datatype RunEvent =
    | Installed
    | Asked
    | Slept
    | ReportAttempted(processId: int, fault: Fault, answer: Outcome<()>)
    | Disposed

  /** How `Run` ends: it returns, an exception escapes it before the `try`
      (while creating the hook or setting its thread list), or (for a finite
      list of answers) it is still polling. */
  datatype RunEnd = Returned | Escaped(fault: Fault) | StillPolling

  /** The index of the first `CanUnload` answer that ends the poll loop: the
      first one that is not a normal `false`. */
  function FirstStop(answers: seq<Outcome<bool>>): (r: Option<nat>)
    ensures r.Some? ==>
      && r.value < |answers|
      && answers[r.value] != Ok(false)
      && forall j :: 0 <= j < r.value ==> answers[j] == Ok(false)
    ensures r.None? ==> forall j :: 0 <= j < |answers| ==> answers[j] == Ok(false)
  {
    if |answers| == 0 then None
    else if answers[0] != Ok(false) then Some(0)
    else
      match FirstStop(answers[1..])
      case None => None
      case Some(k) => Some(k + 1)
  }

  /** The calls made by `k` turns of the poll loop that answered `false`. */
  function Ticks(k: nat): (r: seq<RunEvent>)
    ensures |r| == 2 * k
    ensures forall i :: 0 <= i < |r| ==> r[i] == if i % 2 == 0 then Asked else Slept
  {
    if k == 0 then [] else Ticks(k - 1) + [Asked, Slept]
  }

  /** `EntryPoint.Run`. `install` is the answer of locating the native method
      and creating the local hook; `acl` is the answer of setting the hook's
      exclusive thread list; `answers` are the successive results of the
      remote `CanUnload()`; `report` is the result of the remote
      `ReportError`, which is recorded and swallowed whatever it is. The hook is disposed
      on every path that leaves the loop (twice after a normal unload: once
      in the `try`, once in the `finally`). A failure to set the thread list
      happens before the `try`, so it escapes with the hook installed and
      never disposed. */
  method Run(install: Outcome<()>, acl: Outcome<()>, answers: seq<Outcome<bool>>, report: Outcome<()>,
             processId: int)
    returns (events: seq<RunEvent>, end: RunEnd)
    ensures install.Throws? ==> events == [] && end == Escaped(install.fault)
    ensures install.Ok? && acl.Throws? ==> events == [Installed] && end == Escaped(acl.fault)
    ensures install.Ok? && acl.Ok? && FirstStop(answers).None? ==>
      events == [Installed] + Ticks(|answers|) && end == StillPolling
    ensures install.Ok? && acl.Ok? && FirstStop(answers).Some? ==>
      var k := FirstStop(answers).value;
      && end == Returned
      && (answers[k] == Ok(true) ==> events == [Installed] + Ticks(k) + [Asked, Disposed, Disposed])
      && (answers[k].Throws? ==>
            events == [Installed] + Ticks(k) + [Asked, ReportAttempted(processId, answers[k].fault, report), Disposed])
    // the hook is disposed exactly when the loop has been left
    ensures Disposed in events <==> end == Returned
    ensures end == Returned ==> install.Ok? && acl.Ok? && events[|events| - 1] == Disposed
  {
    if install.Throws? {
      return [], Escaped(install.fault);
    }
    events := [Installed];
    if acl.Throws? {
      return events, Escaped(acl.fault);
    }
    var i := 0;
    while i < |answers| && answers[i] == Ok(false)
      invariant 0 <= i <= |answers|
      invariant forall j :: 0 <= j < i ==> answers[j] == Ok(false)
      invariant events == [Installed] + Ticks(i)
    {
      events := events + [Asked, Slept];
      i := i + 1;
    }
    if i == |answers| {
      return events, StillPolling;
    }
    events := events + [Asked];
    match answers[i] {
      case Ok(_) =>
        events := events + [Disposed];
      case Throws(f) =>
        events := events + [ReportAttempted(processId, f, report)];  // a throwing report is swallowed
    }
    events := events + [Disposed];
    end := Returned;
  }
}
