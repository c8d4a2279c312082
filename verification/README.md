# AudioSwitcher default-device hook and test device enumerator, in Dafny

This project models two parts of AudioSwitcher.

**The default-device hook.** It redirects a running process's idea of "the default audio endpoint".
- `DefaultDeviceHook` is the host side. It holds the `IsHooked` flag and implements `Hook`, `UnHook` and `Dispose`. It also implements the `RemoteInterface` object it serves over IPC: `GetDefaultDevice`, `CanUnload` and `ReportError`, each with its null-delegate default.
- `HookEntryPoint` is the agent injected into the target. `Intercept` is the replacement for `IMMDeviceEnumerator::GetDefaultAudioEndpoint`. `Run` is the loop that keeps the hook alive until `CanUnload()` says otherwise.
- `HookLifecycle` connects both sides through the channel. It covers what the agent sees of the host's flag, and what an intercepted call answers in a hooked process.

Foreign calls are parameters, and each one either returns a value or throws (`Outcome`). These are the IPC server, the injector, the native `GetDevice`, the original `GetDefaultAudioEndpoint`, the remote calls, the creation of the local hook, and setting its thread list. The models record which calls were made, as event sequences. So the contracts can say when the original is used, when an error is reported, and that the hook is disposed.

**The test device enumerator** (`TestDeviceEnumerator`). It holds a bag of test devices with distinct ids and four default-id slots: playback, playback communications, capture and capture communications. The model covers the constructor, the default getters, lookup by id, the `(DeviceType, Role)` query, the filtered listing, and the four setters.

Behaviours of the code worth knowing, all modelled as written:
- An empty or null resolved id is not treated as "no override". The code passes it straight to `GetDevice` (`DefaultDeviceHook.cs:176-177`).
- The intercept's `catch` reports without a guard (`DefaultDeviceHook.cs:181`), unlike `Run`'s guarded report (`DefaultDeviceHook.cs:149-156`). A failing report therefore escapes. See Findings.
- `Hook` wraps the resolver in a lambda (`DefaultDeviceHook.cs:40`). So the served `SystemId` is never null. A null resolver gives a null-reference exception, not the empty-string default.
- On a normal unload, `Run` disposes the hook twice: once in the `try` and once in the `finally`.
- Setting the hook's thread list (`DefaultDeviceHook.cs:136`) happens before the `try`. If it throws, the exception escapes `Run` and the installed hook is never disposed.

## Model

| member | source | states |
|---|---|---|
| DefaultDeviceHook.NewHook | AudioSwitcher.AudioApi.Hooking/DefaultDeviceHook.cs:26-30 | a new hook object is for the given process, is not hooked and has made no foreign call |
| DefaultDeviceHook.Hook | AudioSwitcher.AudioApi.Hooking/DefaultDeviceHook.cs:32-55 | when already hooked nothing happens (no server, no injection); otherwise the flag becomes true exactly when both the server creation and the injection returned, the injection uses the channel just created, a failure is rethrown with the flag still false, and the "hooked only after injection" invariant is kept |
| DefaultDeviceHook.HookTwiceCreatesOneServer | AudioSwitcher.AudioApi.Hooking/DefaultDeviceHook.cs:32-55 | two Hook calls in a row, the first succeeding, create exactly one IPC server and inject once; the second call changes nothing |
| DefaultDeviceHook.UnHook | AudioSwitcher.AudioApi.Hooking/DefaultDeviceHook.cs:63-69 | afterwards the object is not hooked; a no-op when not hooked; only the flag changes |
| DefaultDeviceHook.Dispose | AudioSwitcher.AudioApi.Hooking/DefaultDeviceHook.cs:188-191 | behaves exactly like UnHook |
| DefaultDeviceHook.RaiseOnError | AudioSwitcher.AudioApi.Hooking/DefaultDeviceHook.cs:57-61 | forwards the error to the OnError subscriber only when one is attached; an exception from the subscriber reaches the caller |
| DefaultDeviceHook.GetDefaultDevice | AudioSwitcher.AudioApi.Hooking/DefaultDeviceHook.cs:92-98 | the empty string when no resolver is set, otherwise exactly the resolver's answer (a string, null, or an exception) |
| DefaultDeviceHook.CanUnload | AudioSwitcher.AudioApi.Hooking/DefaultDeviceHook.cs:100-106 | true when no Unload delegate is set, otherwise the delegate's answer |
| DefaultDeviceHook.ReportError | AudioSwitcher.AudioApi.Hooking/DefaultDeviceHook.cs:108-112 | forwards only when an error handler is set |
| DefaultDeviceHook.Served | AudioSwitcher.AudioApi.Hooking/DefaultDeviceHook.cs:37-43 | the interface Hook serves resolves through the resolver (null resolver: null-reference exception), answers CanUnload with the negation of the live IsHooked flag, and reports through RaiseOnError |
| HookEntryPoint.Proxy | AudioSwitcher.AudioApi.Hooking/DefaultDeviceHook.cs:123-126 | over a connected channel the agent's three remote calls (GetDefaultDevice, CanUnload, ReportError) answer what the host object answers; over a broken one they throw |
| HookEntryPoint.Intercept | AudioSwitcher.AudioApi.Hooking/DefaultDeviceHook.cs:165-185 | with no callback or a null Interface, only the original is called and its answer returned; otherwise the resolver is asked first; if neither the resolver nor GetDevice throws, the answer is GetDevice of the resolved id and the original is not called; if one throws, exactly that exception is reported once, then the original's answer is returned, or the report's exception escapes if the report throws; the original is called if and only if there is no callback or the redirect failed and was reported |
| HookEntryPoint.Recover | AudioSwitcher.AudioApi.Hooking/DefaultDeviceHook.cs:179-184 | the catch block keeps the calls already made, reports the caught exception once, then returns the original's answer when the report returns, or the report's exception (without calling the original) when it throws |
| HookEntryPoint.InterceptGuarded | AudioSwitcher.AudioApi.Hooking/DefaultDeviceHook.cs:179-184 | with the report guarded, the answer is always either the redirected device or the original's answer; it equals Intercept whenever the report does not throw |
| HookEntryPoint.ReportFailureEscapesIntercept | AudioSwitcher.AudioApi.Hooking/DefaultDeviceHook.cs:179-184 | a resolver failure followed by a failing report makes the code as written throw where the original answered |
| HookEntryPoint.FirstStop | AudioSwitcher.AudioApi.Hooking/DefaultDeviceHook.cs:140-143 | the poll loop ends at the first CanUnload answer that is not a normal false, and keeps looping when there is none |
| HookEntryPoint.Ticks | AudioSwitcher.AudioApi.Hooking/DefaultDeviceHook.cs:140-143 | each loop turn that answered false asks once and then sleeps |
| HookEntryPoint.Run | AudioSwitcher.AudioApi.Hooking/DefaultDeviceHook.cs:128-163 | a failure to create the hook escapes before any hook exists; a failure to set its thread list escapes with the hook installed and not disposed; the hook stays installed while CanUnload answers false; on true it is disposed (twice: try and finally); on an exception one report is attempted and its answer recorded, its own failure is swallowed, and the hook is disposed; the hook is disposed if and only if the loop was left, and disposal is the last thing Run does when it returns |
| HookLifecycle.PollAnswers | AudioSwitcher.AudioApi.Hooking/DefaultDeviceHook.cs:140-140 | at each poll the agent's CanUnload, through the channel proxy, gives the host object's answer for the host's state at that moment, or the channel's exception |
| HookLifecycle.UnHookObservedAtNextPoll | AudioSwitcher.AudioApi.Hooking/DefaultDeviceHook.cs:138-145 | with the interface Hook serves, the poll loop ends at the first tick at which the host is no longer hooked, and not before |
| HookLifecycle.HookedHostKeepsHook | AudioSwitcher.AudioApi.Hooking/DefaultDeviceHook.cs:140-143 | while the host stays hooked the agent never leaves its loop |
| HookLifecycle.BrokenChannelEndsLoop | AudioSwitcher.AudioApi.Hooking/DefaultDeviceHook.cs:147-161 | a broken channel ends the loop at the first poll, through the exception path |
| HookLifecycle.CanUnloadFollowsHookState | AudioSwitcher.AudioApi.Hooking/DefaultDeviceHook.cs:41-41 | the served CanUnload is false after a successful Hook and true after UnHook or Dispose |
| HookLifecycle.ResolvedDeviceIsReturned | AudioSwitcher.AudioApi.Hooking/DefaultDeviceHook.cs:174-177 | in a hooked process with a working channel, a resolved id that GetDevice answers for is what the intercepted call returns, and the original is not called |
| HookLifecycle.ResolverFailureFallsBack | AudioSwitcher.AudioApi.Hooking/DefaultDeviceHook.cs:179-184 | a throwing resolver leads to one report and then exactly the original's answer, when the OnError subscriber returns normally (a throwing one escapes, see Findings) |
| HookLifecycle.SubscriberFailureEscapes | AudioSwitcher.AudioApi.Hooking/DefaultDeviceHook.cs:179-184 | as written, a resolver failure whose report meets a throwing OnError subscriber makes the intercepted call throw that exception, and the original is not called |
| HookLifecycle.NullResolverFallsBack | AudioSwitcher.AudioApi.Hooking/DefaultDeviceHook.cs:40-40 | a hook built without a resolver reports a null reference and falls back to the original on every call, when the OnError subscriber returns normally (a throwing one escapes, see Findings) |
| HookLifecycle.DeviceAScenario | AudioSwitcher.AudioApi.Hooking/DefaultDeviceHook.cs:174-177 | with process 4321 and a resolver mapping (Render, Console) to "DeviceA", the intercepted call returns the lookup of "DeviceA", when GetDevice("DeviceA") returns |
| TestDeviceEnumerator.New | AudioSwitcher.Tests.Common/TestDeviceEnumerator.cs:18-35 | exactly max(0, numPlaybackDevices) playback devices followed by max(0, numCaptureDevices) capture devices, each with its own fresh id; the ids are distinct; every default slot is empty and resolves to no device |
| TestDeviceEnumerator.FirstWithId | AudioSwitcher.Tests.Common/TestDeviceEnumerator.cs:59-62 | returns a member of the bag with the requested id, and returns null exactly when no member has it |
| TestDeviceEnumerator.FindsMember | AudioSwitcher.Tests.Common/TestDeviceEnumerator.cs:59-62 | with distinct ids, looking up a member's id returns that member |
| TestDeviceEnumerator.DefaultPlaybackDevice | AudioSwitcher.Tests.Common/TestDeviceEnumerator.cs:39-42 | returns a bag member with the playback default id, and null exactly when no member has that id |
| TestDeviceEnumerator.DefaultCommunicationsPlaybackDevice | AudioSwitcher.Tests.Common/TestDeviceEnumerator.cs:44-47 | returns a bag member with the playback communications id, and null exactly when no member has that id |
| TestDeviceEnumerator.DefaultCaptureDevice | AudioSwitcher.Tests.Common/TestDeviceEnumerator.cs:49-52 | returns a bag member with the capture default id, and null exactly when no member has that id |
| TestDeviceEnumerator.DefaultCommunicationsCaptureDevice | AudioSwitcher.Tests.Common/TestDeviceEnumerator.cs:54-57 | returns a bag member with the capture communications id, and null exactly when no member has that id |
| TestDeviceEnumerator.GetDevice | AudioSwitcher.Tests.Common/TestDeviceEnumerator.cs:59-62 | returns a bag member with that id, and null exactly when there is none |
| TestDeviceEnumerator.SlotFor | AudioSwitcher.Tests.Common/TestDeviceEnumerator.cs:64-81 | the query reads a playback slot exactly for Playback and a plain (not communications) slot exactly for Console and Multimedia; All has no slot |
| TestDeviceEnumerator.GetDefaultDevice | AudioSwitcher.Tests.Common/TestDeviceEnumerator.cs:64-81 | Capture with Console or Multimedia gives the default capture device, with any other role the communications capture device; Playback likewise; any other device type gives null |
| TestDeviceEnumerator.StateMatchesIsOverlap | AudioSwitcher.Tests.Common/TestDeviceEnumerator.cs:87-87 | for a mask without the sign bit, the signed test (State & mask) > 0 means the state and mask share a flag |
| TestDeviceEnumerator.Filter | AudioSwitcher.Tests.Common/TestDeviceEnumerator.cs:85-88 | keeps exactly the devices that pass the type and state test, is no longer than the input, and keeps ids distinct |
| TestDeviceEnumerator.GetDevices | AudioSwitcher.Tests.Common/TestDeviceEnumerator.cs:83-89 | a device is listed exactly when it is in the bag, its type is the requested one (or All was requested), and its state shares a flag with the mask (signed test); with distinct ids in the bag, the listing has distinct ids too |
| TestDeviceEnumerator.SetDefaultDevice | AudioSwitcher.Tests.Common/TestDeviceEnumerator.cs:91-106 | a playback device sets only the playback default id and returns true; otherwise a capture device sets only the capture default id and returns true; otherwise false and nothing changes |
| TestDeviceEnumerator.SetDefaultCommunicationsDevice | AudioSwitcher.Tests.Common/TestDeviceEnumerator.cs:108-123 | the same pattern on the playback and capture communications ids only |
| TestDeviceEnumerator.SetDefaultDeviceAny | AudioSwitcher.Tests.Common/TestDeviceEnumerator.cs:162-169 | delegates for a test device; for null or another kind of device, returns false and changes nothing |
| TestDeviceEnumerator.SetDefaultCommunicationsDeviceAny | AudioSwitcher.Tests.Common/TestDeviceEnumerator.cs:171-178 | delegates for a test device; for null or another kind of device, returns false and changes nothing |
| TestDeviceEnumerator.SetDefaultThenGet | AudioSwitcher.Tests.Common/TestDeviceEnumerator.cs:91-106 | after setting a bag member as default, it is the console and multimedia answer for its type, DefaultPlaybackDevice or DefaultCaptureDevice, and GetDevice of its id; the communications answer is unchanged (relies on distinct ids) |
| TestDeviceEnumerator.SetCommunicationsThenGet | AudioSwitcher.Tests.Common/TestDeviceEnumerator.cs:108-123 | after setting a bag member as communications default, it is the communications answer for its type and the console and multimedia answers are unchanged |

## Left out

- Process injection, the IPC server and client, and native hooking (`IpcCreateServer`, `Inject`, `IpcConnectClient`, `ComClassQuery`, `LocalHook.Create`). These are foreign-library and OS calls, so they appear only as the answers they return or the exceptions they throw.
- The meaning of the thread ACL set on the hook (`SetExclusiveACL` with an empty list). It belongs to the hooking library, so the model takes no position on which threads it covers. Only whether the call throws is modelled.
- Re-entry of the intercept. The call to `self.GetDefaultAudioEndpoint` inside the handler is taken to reach the original, because the hooking library does not re-enter a handler on the same thread. That library is not part of this model.
- `Thread.Sleep(1000)`, remoting timeouts and concurrent intercepted calls. These are timing and concurrency. The poll loop is run over a finite sequence of `CanUnload` answers. A sequence that runs out before a stop means the loop is still polling.
- `hook.Dispose()` throwing. The native hook's disposal is assumed to return.
- The channel name passed in. `IpcCreateServer` takes the current name by `ref`, so a later `Hook` passes the old name back in; the server's answer is a free parameter that ignores this input. On a throw, the model assumes the name is left unchanged.
- A multicast `OnError` with several subscribers. It is modelled as one combined subscriber.
- The typed setters called with a null `TestDevice` (a null-reference exception in C#). Datatype values cannot be null. The `IDevice` overloads do model null.
- `TestDevice.cs` is not part of this model. `IsPlaybackDevice` and `IsCaptureDevice` are taken to test the device type. The state a new test device starts in is a constructor parameter.
- `Guid.NewGuid()` is randomness. Its values are a constructor parameter, required to be distinct and non-empty.
- The `ConcurrentBag`'s thread safety and enumeration order, and the `AudioDeviceChanged` event, which is never raised.
- The `AudioController` property. It is plain storage that the enumerator never reads.
- GetDevices: states which devices are listed, not the order they are listed in, because a concurrent bag's enumeration order is unspecified.
- Filter: states membership and length, not the order kept, for the same reason.
- `MMDevice`, the scripting bindings and `IsolatedAudioController`. These are a COM property pass-through, reflection glue and constructor wiring, and are outside the hook and the enumerator.

## Findings

| source | as written | input that shows it | evidently intended | confidence | as-written member | corrected member |
|---|---|---|---|---|---|---|
| AudioSwitcher.AudioApi.Hooking/DefaultDeviceHook.cs:179-184 | the intercept's `catch` calls `ReportError` unguarded, so an exception from the report escapes the hook handler | the resolver throws, then the report throws (for example a remoting timeout to a vanished host) | swallow the report's failure, as `Run` does at lines 149-156, and return the original's answer | medium, not executed | HookEntryPoint.ReportFailureEscapesIntercept | HookEntryPoint.InterceptGuarded |
