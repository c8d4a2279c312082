/** The host side of the default-device hook (`DefaultDeviceHook`).

    The host owns a single `IsHooked` flag. `Hook` serves a remote interface
    over an IPC channel and injects the agent into the target process;
    `UnHook` and `Dispose` only clear the flag, which the agent observes
    through `CanUnload` on its next poll. The IPC server and the injector are
    foreign calls: their answers are parameters, and the host records the
    ones that completed in an append-only log. */
module DefaultDeviceHook {
  import opened Outcomes
  import opened AudioTypes

  /** A device id as a .NET string reference: null (`None`) or a string. */
  type DeviceId = Option<string>

  /** The host-supplied resolver `(dataFlow, role) -> deviceId`; it may throw
      or return null. */
  type Resolver = (DataFlow, Role) -> Outcome<DeviceId>

  /** The application's `OnError` subscriber; it may throw. */
  type ErrorSubscriber = (int, Fault) -> Outcome<()>

  /** The exception a call through a null delegate raises. */
  const NullReference := Fault("Object reference not set to an instance of an object.")

  /** A foreign call made by `Hook` that returned normally. */
  datatype HostEvent =
    | ServerCreated(channel: string)
    | Injected(processId: int, channel: string)

  /** The state of one `DefaultDeviceHook` object. */
  datatype Host = Host(processId: int, isHooked: bool, channel: string, log: seq<HostEvent>)

  /** A host state after an operation, and whether the operation threw. */
  datatype Step = Step(host: Host, outcome: Outcome<()>)

  /** An error notice that reached the application through `OnError`. */
  datatype Notice = Notice(processId: int, fault: Fault)

  /** What forwarding an error did: the notices delivered, and whether the
      handler threw back at the caller. */
  datatype Delivery = Delivery(notices: seq<Notice>, outcome: Outcome<()>)

  /** `IsHooked` implies that the last two completed foreign calls were the
      server creation for the current channel and the injection into the
      target over that channel. */
  predicate HookedAfterInjection(h: Host)
  {
    h.isHooked ==>
      && |h.log| >= 2
      && h.log[|h.log| - 2] == ServerCreated(h.channel)
      && h.log[|h.log| - 1] == Injected(h.processId, h.channel)
  }

  /** The constructor: a fresh object for one target process, not hooked. */
  function NewHook(processId: int): (h: Host)
    ensures h.processId == processId
    ensures !h.isHooked && h.log == []
    ensures HookedAfterInjection(h)
  {
    Host(processId, false, "", [])
  }

  /** `Hook()`: a no-op when already hooked; otherwise create the IPC server
      (`server` is its answer, the generated channel name or an exception),
      then inject the agent (`inject`), and only then set `IsHooked`. */
  function Hook(h: Host, server: Outcome<string>, inject: Outcome<()>): (r: Step)
    // idempotent: no server, no injection, no change
    ensures h.isHooked ==> r == Step(h, Ok(()))
    ensures r.host.processId == h.processId
    // the flag is set exactly when both foreign calls returned
    ensures r.host.isHooked <==> h.isHooked || (server.Ok? && inject.Ok?)
    ensures r.outcome.Ok? <==> r.host.isHooked
    ensures !h.isHooked && server.Throws? ==> r == Step(h, Throws(server.fault))
    ensures !h.isHooked && server.Ok? ==>
      && r.host.channel == server.value
      && |r.host.log| > |h.log|
      && r.host.log[..|h.log|] == h.log
      && r.host.log[|h.log|] == ServerCreated(server.value)
    ensures !h.isHooked && server.Ok? && inject.Throws? ==>
      && r.outcome == Throws(inject.fault)
      && |r.host.log| == |h.log| + 1
    ensures !h.isHooked && server.Ok? && inject.Ok? ==>
      r.host.log == h.log + [ServerCreated(server.value), Injected(h.processId, server.value)]
    ensures HookedAfterInjection(h) ==> HookedAfterInjection(r.host)
  {
    if h.isHooked then Step(h, Ok(()))
    else
      match server
      case Throws(f) => Step(h, Throws(f))
      case Ok(name) =>
        var served := h.(channel := name, log := h.log + [ServerCreated(name)]);
        match inject
        case Throws(f) => Step(served, Throws(f))
        case Ok(_) =>
          Step(served.(isHooked := true, log := served.log + [Injected(h.processId, name)]), Ok(()))
  }

  /** The number of IPC servers created, as recorded in a log. */
  function ServersCreated(log: seq<HostEvent>): nat
  {
    if |log| == 0 then 0
    else ServersCreated(log[..|log| - 1]) + (if log[|log| - 1].ServerCreated? then 1 else 0)
  }

  lemma {:induction false} ServersCreatedAppend(log: seq<HostEvent>, more: seq<HostEvent>)
    ensures ServersCreated(log + more) == ServersCreated(log) + ServersCreated(more)
    decreases |more|
  {
    if |more| == 0 {
      assert log + more == log;
    } else {
      var init := more[..|more| - 1];
      assert (log + more)[..|log + more| - 1] == log + init;
      ServersCreatedAppend(log, init);
    }
  }

  /** `Hook()` called twice in a row creates exactly one server and injects
      once when the first call succeeds; the second call changes nothing. */
  lemma HookTwiceCreatesOneServer(h: Host, server1: Outcome<string>, inject1: Outcome<()>,
                                  server2: Outcome<string>, inject2: Outcome<()>)
    requires !h.isHooked && server1.Ok? && inject1.Ok?
    ensures var first := Hook(h, server1, inject1);
      && Hook(first.host, server2, inject2) == first
      && ServersCreated(Hook(first.host, server2, inject2).host.log) == ServersCreated(h.log) + 1
  {
    var first := Hook(h, server1, inject1);
    ServersCreatedAppend(h.log, [ServerCreated(server1.value), Injected(h.processId, server1.value)]);
    assert ServersCreated([ServerCreated(server1.value), Injected(h.processId, server1.value)]) == 1 by {
      assert [ServerCreated(server1.value), Injected(h.processId, server1.value)][..1] == [ServerCreated(server1.value)];
      assert [ServerCreated(server1.value)][..0] == [];
    }
  }

  /** `UnHook()`: clears the flag and nothing else; the agent is not touched. */
  function UnHook(h: Host): (r: Host)
    ensures !r.isHooked
    ensures r.(isHooked := h.isHooked) == h
    ensures !h.isHooked ==> r == h
    ensures HookedAfterInjection(r)
  {
    if !h.isHooked then h else h.(isHooked := false)
  }

  /** `Dispose()` behaves exactly like `UnHook()`. */
  function Dispose(h: Host): (r: Host)
    ensures r == UnHook(h)
  {
    UnHook(h)
  }

  /** `RaiseOnError`: forwards to the `OnError` subscriber only when one is
      attached; an exception thrown by the subscriber goes back to the caller. */
  function RaiseOnError(onError: Option<ErrorSubscriber>, processId: int, e: Fault): (d: Delivery)
    ensures onError.None? ==> d == Delivery([], Ok(()))
    ensures onError.Some? ==> d.notices == [Notice(processId, e)] && d.outcome == onError.value(processId, e)
  {
    match onError
    case None => Delivery([], Ok(()))
    case Some(subscriber) => Delivery([Notice(processId, e)], subscriber(processId, e))
  }

  /** The object the IPC server exposes (`RemoteInterface`): three settable
      delegates, any of which may be null. `Unload` reads the host state,
      which is passed to it explicitly. */
  datatype RemoteInterface = RemoteInterface(
    systemId: Option<Resolver>,
    unload: Option<Host -> Outcome<bool>>,
    errorHandler: Option<(int, Fault) -> Delivery>)

  /** `GetDefaultDevice`: the empty string when no resolver is set, else
      whatever the resolver answers (a string, null, or an exception). */
  function GetDefaultDevice(ri: RemoteInterface, flow: DataFlow, role: Role): (r: Outcome<DeviceId>)
    ensures ri.systemId.None? ==> r == Ok(Some(""))
    ensures ri.systemId.Some? ==> r == ri.systemId.value(flow, role)
  {
    match ri.systemId
    case None => Ok(Some(""))
    case Some(resolve) => resolve(flow, role)
  }

  /** `CanUnload`: true when no `Unload` delegate is set, else its answer. */
  function CanUnload(ri: RemoteInterface, world: Host): (r: Outcome<bool>)
    ensures ri.unload.None? ==> r == Ok(true)
    ensures ri.unload.Some? ==> r == ri.unload.value(world)
  {
    match ri.unload
    case None => Ok(true)
    case Some(unload) => unload(world)
  }

  /** `ReportError`: forwards only when an error handler is set. */
  function ReportError(ri: RemoteInterface, processId: int, e: Fault): (d: Delivery)
    ensures ri.errorHandler.None? ==> d == Delivery([], Ok(()))
    ensures ri.errorHandler.Some? ==> d == ri.errorHandler.value(processId, e)
  {
    match ri.errorHandler
    case None => Delivery([], Ok(()))
    case Some(handler) => handler(processId, e)
  }

  /** The remote interface `Hook` builds. `SystemId` wraps the resolver in a
      lambda, so it is never null even when the resolver is: a null resolver
      surfaces as a null-reference exception, not as the empty-string
      default. `Unload` answers `!IsHooked` of the live host object, and the
      error handler is `RaiseOnError`. */
  function Served(resolver: Option<Resolver>, onError: Option<ErrorSubscriber>): (ri: RemoteInterface)
    ensures ri.systemId.Some? && ri.unload.Some? && ri.errorHandler.Some?
    ensures forall flow, role ::
      GetDefaultDevice(ri, flow, role) == (if resolver.Some? then resolver.value(flow, role) else Throws(NullReference))
    ensures forall w :: CanUnload(ri, w) == Ok(!w.isHooked)
    ensures forall pid, e :: ReportError(ri, pid, e) == RaiseOnError(onError, pid, e)
  {
    RemoteInterface(
      Some((flow: DataFlow, role: Role) =>
        if resolver.Some? then resolver.value(flow, role) else Throws(NullReference)),
      Some((w: Host) => Ok(!w.isHooked)),
      Some((pid: int, e: Fault) => RaiseOnError(onError, pid, e)))
  }
}
