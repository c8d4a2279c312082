/** Host and agent together: what the agent observes of the host's state
    through the IPC channel, and what that means for interception and for
    the lifetime of the hook. */
module HookLifecycle {
  import opened Outcomes
  import opened AudioTypes
  import opened DefaultDeviceHook
  import opened HookEntryPoint

  /** The answers the agent's poll loop receives when, at its successive
      ticks, the host object is in the states `hs`. */
  function PollAnswers(ch: Channel, ri: RemoteInterface, hs: seq<Host>): (answers: seq<Outcome<bool>>)
    ensures |answers| == |hs|
    ensures forall i :: 0 <= i < |hs| ==>
      answers[i] == if ch.Broken? then Throws(ch.fault) else CanUnload(ri, hs[i])
  {
    var p := Proxy(ch, ri);
    seq(|hs|, i requires 0 <= i < |hs| => p.canUnload(hs[i]))
  }

  /** While the host stays hooked the agent keeps the hook; at the first tick
      after `UnHook` the served `CanUnload` answers true and the loop ends. */
  lemma UnHookObservedAtNextPoll(resolver: Option<Resolver>, onError: Option<ErrorSubscriber>,
                                 hs: seq<Host>, j: nat)
    requires j < |hs|
    requires forall i :: 0 <= i < j ==> hs[i].isHooked
    requires !hs[j].isHooked
    ensures PollAnswers(Connected, Served(resolver, onError), hs)[j] == Ok(true)
    ensures FirstStop(PollAnswers(Connected, Served(resolver, onError), hs)) == Some(j)
  {
    var answers := PollAnswers(Connected, Served(resolver, onError), hs);
    assert forall i :: 0 <= i < j ==> answers[i] == Ok(false);
    assert answers[j] == Ok(true);
  }

  /** A host that never unhooks never makes the agent leave its loop. */
  lemma HookedHostKeepsHook(resolver: Option<Resolver>, onError: Option<ErrorSubscriber>, hs: seq<Host>)
    requires forall i :: 0 <= i < |hs| ==> hs[i].isHooked
    ensures FirstStop(PollAnswers(Connected, Served(resolver, onError), hs)).None?
  {
  }

  /** A broken channel ends the loop at the first poll, so a vanished host
      never leaves the target hooked. */
  lemma BrokenChannelEndsLoop(ch: Channel, ri: RemoteInterface, hs: seq<Host>)
    requires ch.Broken? && |hs| > 0
    ensures FirstStop(PollAnswers(ch, ri, hs)) == Some(0)
    ensures PollAnswers(ch, ri, hs)[0] == Throws(ch.fault)
  {
  }

  /** After a successful `Hook` the served `CanUnload` says false; after
      `UnHook` (or `Dispose`) it says true. */
  lemma CanUnloadFollowsHookState(h: Host, server: Outcome<string>, inject: Outcome<()>,
                                  resolver: Option<Resolver>, onError: Option<ErrorSubscriber>)
    requires server.Ok? && inject.Ok?
    ensures CanUnload(Served(resolver, onError), Hook(h, server, inject).host) == Ok(false)
    ensures CanUnload(Served(resolver, onError), UnHook(Hook(h, server, inject).host)) == Ok(true)
    ensures CanUnload(Served(resolver, onError), Dispose(Hook(h, server, inject).host)) == Ok(true)
  {
  }

  /** The intercept in a hooked target, its channel connected to the object
      `Hook` serves. */
  function HookedIntercept(resolver: Option<Resolver>, onError: Option<ErrorSubscriber>,
                           self: NativeEnumerator, processId: int, flow: DataFlow, role: Role): Intercepted
  {
    Intercept(Some(EntryPoint(Some(Proxy(Connected, Served(resolver, onError))))), self, processId, flow, role)
  }

  /** When the resolver names a device and the native lookup answers, the
      intercepted call returns that lookup's answer and the original is not
      called. */
  lemma ResolvedDeviceIsReturned(resolver: Resolver, onError: Option<ErrorSubscriber>,
                                 self: NativeEnumerator, processId: int, flow: DataFlow, role: Role)
    requires resolver(flow, role).Ok?
    requires self.getDevice(resolver(flow, role).value).Ok?
    ensures HookedIntercept(Some(resolver), onError, self, processId, flow, role).result ==
      self.getDevice(resolver(flow, role).value)
    ensures CalledOriginal(flow, role) !in HookedIntercept(Some(resolver), onError, self, processId, flow, role).events
  {
    var p := Proxy(Connected, Served(Some(resolver), onError));
    assert p.getDefaultDevice(flow, role) == resolver(flow, role);
  }

  /** When the resolver throws and the report reaches the host without the
      subscriber throwing, the intercepted call returns exactly the
      original's answer, and the application is told once. */
  lemma ResolverFailureFallsBack(resolver: Resolver, onError: Option<ErrorSubscriber>,
                                 self: NativeEnumerator, processId: int, flow: DataFlow, role: Role)
    requires resolver(flow, role).Throws?
    requires onError.Some? ==> onError.value(processId, resolver(flow, role).fault).Ok?
    ensures HookedIntercept(Some(resolver), onError, self, processId, flow, role).result == self.original(flow, role)
    ensures HookedIntercept(Some(resolver), onError, self, processId, flow, role).events ==
      [Resolved(flow, role), ReportedError(processId, resolver(flow, role).fault), CalledOriginal(flow, role)]
  {
    var p := Proxy(Connected, Served(Some(resolver), onError));
    var f := resolver(flow, role).fault;
    assert p.getDefaultDevice(flow, role) == Throws(f);
    assert p.reportError(processId, f) == RaiseOnError(onError, processId, f).outcome;
  }

  /** As written, a subscriber that throws while a resolver failure is being
      reported makes the intercepted call throw the subscriber's exception. */
  lemma SubscriberFailureEscapes(resolver: Resolver, subscriber: ErrorSubscriber,
                                 self: NativeEnumerator, processId: int, flow: DataFlow, role: Role)
    requires resolver(flow, role).Throws?
    requires subscriber(processId, resolver(flow, role).fault).Throws?
    ensures HookedIntercept(Some(resolver), Some(subscriber), self, processId, flow, role).result ==
      Throws(subscriber(processId, resolver(flow, role).fault).fault)
    ensures CalledOriginal(flow, role) !in HookedIntercept(Some(resolver), Some(subscriber), self, processId, flow, role).events
  {
    var p := Proxy(Connected, Served(Some(resolver), Some(subscriber)));
    var f := resolver(flow, role).fault;
    assert p.getDefaultDevice(flow, role) == Throws(f);
    assert p.reportError(processId, f) == RaiseOnError(Some(subscriber), processId, f).outcome;
  }

  /** A hook object built without a resolver does not fall into the
      empty-string default: the wrapping lambda throws a null reference, so
      every intercepted call reports and falls back. */
  lemma NullResolverFallsBack(onError: Option<ErrorSubscriber>, self: NativeEnumerator,
                              processId: int, flow: DataFlow, role: Role)
    requires onError.Some? ==> onError.value(processId, NullReference).Ok?
    ensures HookedIntercept(None, onError, self, processId, flow, role).result == self.original(flow, role)
    ensures ReportedError(processId, NullReference) in HookedIntercept(None, onError, self, processId, flow, role).events
  {
    var p := Proxy(Connected, Served(None, onError));
    assert p.getDefaultDevice(flow, role) == Throws(NullReference);
    assert p.reportError(processId, NullReference) == RaiseOnError(onError, processId, NullReference).outcome;
  }

  /** The worked example: process 4321, a resolver that maps
      `(Render, Console)` to "DeviceA". */
  lemma DeviceAScenario(self: NativeEnumerator, onError: Option<ErrorSubscriber>)
    requires self.getDevice(Some("DeviceA")).Ok?
    ensures
      var resolver := (flow: DataFlow, role: Role) =>
        if flow == DataFlow.Render && role == Role.Console then Ok(Some("DeviceA")) else Ok(Some(""));
      HookedIntercept(Some(resolver), onError, self, 4321, DataFlow.Render, Role.Console).result ==
        self.getDevice(Some("DeviceA"))
  {
    var resolver := (flow: DataFlow, role: Role) =>
      if flow == DataFlow.Render && role == Role.Console then Ok(Some("DeviceA")) else Ok(Some(""));
    ResolvedDeviceIsReturned(resolver, onError, self, 4321, DataFlow.Render, Role.Console);
  }
}
