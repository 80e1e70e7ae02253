# macOS IOKit hotplug watch — a Dafny model

This project models the macOS backend of nusb's hotplug watch
(`MacHotplugWatch` in `src/platform/macos_iokit/hotplug.rs`). The watch
registers one USB matching dictionary twice with IOKit. The first
registration is for terminated services and the second is for first-match
(arrival) services. Each registration yields an iterator over pending service
handles.

Construction fails with `ErrorKind::Other` if the matching dictionary is null
or if either registration does not return `kIOReturnSuccess`. Otherwise it
drains the arrival iterator without reporting anything, because those entries
are devices that were already connected.

Each `poll_next` then follows a fixed order:

1. It consumes arrivals until one of them probes into a device. That one is
   returned as `Connected`. Arrivals whose probe failed are consumed and
   dropped.
2. Only if the arrival queue runs dry does it take at most one termination.
   That entry becomes `Disconnected(DeviceId(id))` when its registry id can be
   read. Otherwise the entry is dropped and the call returns `Pending`.
3. If neither queue yields anything, the call returns `Pending`.

Files:

- `hotplug.dfy` (module `Hotplug`) holds the values: the native integer widths,
  `ServiceHandle` (an `io_service_t`), `DeviceId`, `HotplugEvent`, `Poll`, the
  `IOReturn` status and the error type.
- `poll_spec.dfy` (module `HotplugPoll`) holds the poll rule as a pure
  function, `PollStep`, over the two queues. It also holds the lemmas stating
  what one poll promises, and a reference definition of what repeated polling
  reports (`Arrivals`, `Removals`) together with the lemma tying `Run` to it.
- `macos_hotplug.dfy` (module `MacHotplug`) holds the class `MacHotplugWatch`.
  Its two `seq` fields are the pending contents of the two iterators. Its
  methods are:
  - `New`, with the constructor `Registered`, which does the drain;
  - `NextMatched` and `NextTerminated`, one step of each iterator;
  - `PollNext`, whose loop over the arrival queue is proved against
    `PollStep`.

  Ghost fields keep a log of everything ever queued on each iterator, how much
  of it was consumed, and the positions that were reported as events. With
  these, "no entry is reported twice" and "no arrival present at registration
  is ever reported" become part of the class invariant `Valid`.

  The methods `KernelMatched` and `KernelTerminated` stand for the kernel
  appending to an iterator between polls. They are the environment, not code
  of the watch, so the table has no row for them. `StartupThenPlugAndUnplug`
  is a client that walks through one scenario: a device present at startup is
  never reported; one plugged in later is reported as `Connected`; its removal
  is reported as `Disconnected` with its registry id.

The collaborators `probe_device` and `get_registry_id` are defined outside this
file. They are parameters of type `ServiceHandle -> Option<…>` for each poll,
so every result shown holds for whatever they answer. The outcome of
`IOServiceMatching` and the two `IOServiceAddMatchingNotification` statuses are
parameters of `New`.

## Model

| member | source | states |
|---|---|---|
| `MacHotplug.ConstructionError` | src/platform/macos_iokit/hotplug.rs:62-66 | construction fails exactly when the matching dictionary is null or either registration status is not success; the error is always of kind `Other`, with the message for the null dictionary or for the failed registration |
| `MacHotplug.MacHotplugWatch.New` | src/platform/macos_iokit/hotplug.rs:61-124 | returns the error `ConstructionError` names when there is one; otherwise a fresh, valid watch whose arrival queue is empty, whose termination queue is what registration left pending, and which has reported nothing |
| `MacHotplug.MacHotplugWatch.Registered` | src/platform/macos_iokit/hotplug.rs:105-122 | the arrival backlog is drained completely with no event reported, and every drained entry counts as backlog that is never reported later; the termination queue is untouched |
| `MacHotplug.MacHotplugWatch.NextMatched` | src/platform/macos_iokit/hotplug.rs:133 | the arrival iterator yields its oldest pending service and drops it from the queue, advancing the consumed count by one; an empty queue yields nothing and is left as it was |
| `MacHotplug.MacHotplugWatch.NextTerminated` | src/platform/macos_iokit/hotplug.rs:141 | the termination iterator yields its oldest pending service and drops it from the queue, advancing the consumed count by one; an empty queue yields nothing and is left as it was |
| `MacHotplug.MacHotplugWatch.PollNext` | src/platform/macos_iokit/hotplug.rs:130-152 | the answer and both new queues are those of `PollStep` on the old queues; a `Connected` reports the arrival consumed last, whose probe gave that device, and a `Disconnected` reports the termination that was at the head, whose lookup gave that id; the reported position was never reported before; `Pending` reports nothing |
| `HotplugPoll.FirstProbed` | src/platform/macos_iokit/hotplug.rs:133-139 | finds the first queued arrival whose probe succeeds: every probe before it failed, and when it finds none, every probe in the queue failed |
| `HotplugPoll.PollConsumesFromFront` | src/platform/macos_iokit/hotplug.rs:133-149 | one poll removes entries only from the front of each queue, any number from the arrival queue and at most one from the termination queue; when either queue was non-empty, it consumes at least one entry |
| `HotplugPoll.PollReportsFirstProbedArrival` | src/platform/macos_iokit/hotplug.rs:133-139 | `Connected` is returned exactly when some queued probe succeeds; its device is the probe of the first such entry, the position `FirstProbed` finds; that entry and the failed ones before it are consumed; the termination queue is unchanged |
| `HotplugPoll.PollReportsRemovalOfHead` | src/platform/macos_iokit/hotplug.rs:141-145 | `Disconnected(DeviceId(id))` is returned only when every queued probe failed; `id` is exactly what the lookup of the head termination gave; the arrival queue is then empty and the head termination alone is consumed |
| `HotplugPoll.PollPendingOnlyAfterFailures` | src/platform/macos_iokit/hotplug.rs:133-151 | `Pending` is returned exactly when every queued probe failed and the termination queue was empty or its head's lookup failed; then the arrival queue is empty and the termination queue lost only its head |
| `HotplugPoll.StepReportsHead` | src/platform/macos_iokit/hotplug.rs:133-151 | what one poll reports is exactly the front of the reference list of successful arrivals followed by successful removals, and the queues it leaves produce the rest of that list |
| `HotplugPoll.RunReportsEachSuccessOnce` | src/platform/macos_iokit/hotplug.rs:133-151 | successive polls with nothing newly queued report a prefix of "every arrival whose probe succeeds, then every termination whose lookup succeeds", each once and in queue order; after as many polls as there were queued entries they have reported all of it, so a failure on one entry never hides a later one |

## Left out

- The `AtomicWaker` registered on each poll and the C `callback` that wakes it
  are not modelled. They exist for cross-thread wakeup, which is concurrency
  and lies outside this sequential model.
- The IOKit calls are foreign calls. Only three of their outcomes are
  modelled, as parameters of `New`: whether `IOServiceMatching` returned null
  (hotplug.rs:63-65), and the statuses of the two
  `IOServiceAddMatchingNotification` calls (hotplug.rs:78-97).
- The notification port is not represented. Its creation with
  `IONotificationPortCreate` (hotplug.rs:71) is not modelled. Neither is its
  destruction on the registration-failure path (hotplug.rs:98), nor the
  run-loop source taken from it (hotplug.rs:111-113).
- Resources lost on the registration-failure path are not modelled. There the
  source returns the error without freeing the `inner` box it allocated
  (hotplug.rs:73-75, 99-102). It also never releases an iterator that the
  first registration may already have created when only the second one failed.
- `add_event_source` and the `EventRegistration` it returns are not modelled.
  They are run-loop plumbing in another module.
- The `Drop` implementation is not modelled. Neither is the deliberate leak of
  `inner`, which keeps it alive for a callback that may still be running. Both
  manage by hand the lifetime of a heap box that a foreign thread may still use.
- `probe_device`, `get_registry_id` and `IoServiceIterator` are not part of this
  model. The first two are parameters of `PollNext`. The iterator is the
  `seq` of pending handles it would yield. Releasing each service handle after
  use is not modelled.
- `DeviceInfo` is an opaque type, because what probing puts into it is not
  part of this model.
- The `debug!` logging is not modelled.
- `MacHotplug.MacHotplugWatch.PollNext`: its contract says nothing about the
  waker; registering it before the queues are read is what makes a later
  kernel notification wake the parked poller. That ordering is a concurrency property
  and is left out as above.
