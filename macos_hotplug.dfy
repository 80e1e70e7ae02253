/** The macOS IOKit hotplug watch: two pending notification queues, the poll
    that consumes them and the constructor that checks registration and drains
    the arrivals already present. */
module MacHotplug {
  import opened Hotplug
  import opened HotplugPoll

  /** The error new() fails with, if any: a null matching dictionary, or
      either registration not returning success. */
  function ConstructionError(matchingNull: bool, terminatedStatus: IOReturn, matchedStatus: IOReturn): (e: Option<Error>)
    ensures e.Some? <==> matchingNull || terminatedStatus != IOReturnSuccess || matchedStatus != IOReturnSuccess
    ensures e.Some? ==> e.value.kind == Other
    ensures matchingNull ==> e == Some(Error(Other, "IOServiceMatching failed"))
    ensures !matchingNull && e.Some? ==> e.value.message == "Failed to register notification"
  {
    if matchingNull then Some(Error(Other, "IOServiceMatching failed"))
    else if terminatedStatus != IOReturnSuccess || matchedStatus != IOReturnSuccess then
      Some(Error(Other, "Failed to register notification"))
    else None
  }

  class MacHotplugWatch {
    /** Pending services of the first-match (arrival) iterator. */
    var matched: seq<ServiceHandle>
    /** Pending services of the terminated iterator. */
    var terminated: seq<ServiceHandle>

    // Ghost history: every service ever queued on each iterator, how many of
    // them have been consumed, and the positions of those reported as events.
    ghost var matchedLog: seq<ServiceHandle>
    ghost var terminatedLog: seq<ServiceHandle>
    ghost var matchedTaken: nat
    ghost var terminatedTaken: nat
    ghost var arrivalsReported: set<nat>
    ghost var removalsReported: set<nat>
    /** Number of arrivals that were already queued at registration. */
    ghost const backlog: nat

    /** The queues are what is left of the logs; only consumed entries have
        been reported, and no arrival queued before registration ever is. */
    ghost predicate Valid()
      reads this
    {
      matchedTaken <= |matchedLog| && matched == matchedLog[matchedTaken..] &&
      terminatedTaken <= |terminatedLog| && terminated == terminatedLog[terminatedTaken..] &&
      backlog <= matchedTaken &&
      (forall k :: k in arrivalsReported ==> backlog <= k < matchedTaken) &&
      (forall k :: k in removalsReported ==> k < terminatedTaken)
    }

    /** Wraps the two registered iterators and drains every arrival already
        queued, emitting nothing for them. */
    constructor Registered(terminatedPending: seq<ServiceHandle>, matchedPending: seq<ServiceHandle>)
      ensures Valid()
      ensures matched == [] && terminated == terminatedPending
      ensures matchedLog == matchedPending && terminatedLog == terminatedPending
      ensures backlog == |matchedPending| && arrivalsReported == {} && removalsReported == {}
    {
      var pending := matchedPending;
      ghost var drained := 0;
      while pending != []
        invariant drained <= |matchedPending| && pending == matchedPending[drained..]
      {
        pending := pending[1..];
        drained := drained + 1;
      }
      matched := pending;
      terminated := terminatedPending;
      matchedLog := matchedPending;
      terminatedLog := terminatedPending;
      matchedTaken := drained;
      terminatedTaken := 0;
      arrivalsReported := {};
      removalsReported := {};
      backlog := drained;
    }

    /** new(): fails when the matching dictionary is null or either
        registration fails; otherwise a watch whose arrival backlog has been
        drained silently and whose termination queue is untouched. */
    static method New(matchingNull: bool, terminatedStatus: IOReturn, matchedStatus: IOReturn,
                      terminatedPending: seq<ServiceHandle>, matchedPending: seq<ServiceHandle>)
      returns (r: Result<MacHotplugWatch>)
      ensures r.Err? <==> ConstructionError(matchingNull, terminatedStatus, matchedStatus).Some?
      ensures r.Err? ==> Some(r.error) == ConstructionError(matchingNull, terminatedStatus, matchedStatus)
      ensures r.Ok? ==> fresh(r.value) && r.value.Valid()
      ensures r.Ok? ==> r.value.matched == [] && r.value.terminated == terminatedPending
      ensures r.Ok? ==> r.value.matchedLog == matchedPending && r.value.backlog == |matchedPending|
      ensures r.Ok? ==> r.value.arrivalsReported == {} && r.value.removalsReported == {}
    {
      if matchingNull {
        return Err(Error(Other, "IOServiceMatching failed"));
      }
      if terminatedStatus != IOReturnSuccess || matchedStatus != IOReturnSuccess {
        return Err(Error(Other, "Failed to register notification"));
      }
      var w := new MacHotplugWatch.Registered(terminatedPending, matchedPending);
      return Ok(w);
    }

    /** IoServiceIterator::next on the arrival iterator: takes the oldest
        pending service, if there is one. */
    method NextMatched() returns (s: Option<ServiceHandle>)
      requires Valid()
      modifies this`matched, this`matchedTaken
      ensures Valid()
      ensures old(matched) == [] ==> s == None && matched == [] && matchedTaken == old(matchedTaken)
      ensures old(matched) != [] ==>
                s == Some(old(matched)[0]) && matched == old(matched)[1..] &&
                matchedTaken == old(matchedTaken) + 1 && matchedLog[matchedTaken - 1] == s.value
    {
      if matched == [] {
        return None;
      }
      s := Some(matched[0]);
      matched := matched[1..];
      matchedTaken := matchedTaken + 1;
    }

    /** IoServiceIterator::next on the termination iterator. */
    method NextTerminated() returns (s: Option<ServiceHandle>)
      requires Valid()
      modifies this`terminated, this`terminatedTaken
      ensures Valid()
      ensures old(terminated) == [] ==> s == None && terminated == [] && terminatedTaken == old(terminatedTaken)
      ensures old(terminated) != [] ==>
                s == Some(old(terminated)[0]) && terminated == old(terminated)[1..] &&
                terminatedTaken == old(terminatedTaken) + 1 && terminatedLog[terminatedTaken - 1] == s.value
    {
      if terminated == [] {
        return None;
      }
      s := Some(terminated[0]);
      terminated := terminated[1..];
      terminatedTaken := terminatedTaken + 1;
    }

    /** poll_next: consumes arrivals until one probes successfully; if none
        does, consumes at most one termination. An event reports an entry
        consumed by this very call, so no entry is ever reported twice. */
    method PollNext(probe: Probe, registryId: RegistryLookup) returns (p: Poll)
      requires Valid()
      modifies this`matched, this`matchedTaken, this`terminated, this`terminatedTaken,
               this`arrivalsReported, this`removalsReported
      ensures Valid()
      ensures Outcome(p, matched, terminated) == PollStep(old(matched), old(terminated), probe, registryId)
      ensures p.Pending? ==>
                arrivalsReported == old(arrivalsReported) && removalsReported == old(removalsReported)
      ensures p.Ready? && p.event.Connected? ==>
                old(matchedTaken) < matchedTaken &&
                probe(matchedLog[matchedTaken - 1]) == Some(p.event.info) &&
                matchedTaken - 1 !in old(arrivalsReported) &&
                arrivalsReported == old(arrivalsReported) + {matchedTaken - 1} &&
                removalsReported == old(removalsReported)
      ensures p.Ready? && p.event.Disconnected? ==>
                terminatedTaken == old(terminatedTaken) + 1 &&
                registryId(terminatedLog[old(terminatedTaken)]) == Some(p.event.id.registryId) &&
                old(terminatedTaken) !in old(removalsReported) &&
                removalsReported == old(removalsReported) + {old(terminatedTaken)} &&
                arrivalsReported == old(arrivalsReported)
    {
      ghost var expected := PollStep(matched, terminated, probe, registryId);
      while true
        invariant Valid()
        invariant PollStep(matched, terminated, probe, registryId) == expected
        invariant terminated == old(terminated) && terminatedTaken == old(terminatedTaken)
        invariant old(matchedTaken) <= matchedTaken
        invariant arrivalsReported == old(arrivalsReported) && removalsReported == old(removalsReported)
        decreases |matched|
      {
        ghost var before := matched;
        var next := NextMatched();
        if next.None? {
          break;
        }
        match probe(next.value)
        case Some(dev) =>
          p := Ready(Connected(dev));
          arrivalsReported := arrivalsReported + {matchedTaken - 1};
          return;
        case None =>
      }

      ghost var before := terminated;
      var next := NextTerminated();
      if next.Some? {
        match registryId(next.value)
        case Some(id) =>
          p := Ready(Disconnected(DeviceId(id)));
          removalsReported := removalsReported + {terminatedTaken - 1};
          return;
        case None =>
      }
      p := Pending;
    }

    /** The kernel queues a newly matched service on the arrival iterator. */
    method KernelMatched(s: ServiceHandle)
      requires Valid()
      modifies this
      ensures Valid()
      ensures matched == old(matched) + [s] && terminated == old(terminated)
      ensures matchedLog == old(matchedLog) + [s] && terminatedLog == old(terminatedLog)
      ensures matchedTaken == old(matchedTaken) && terminatedTaken == old(terminatedTaken)
      ensures arrivalsReported == old(arrivalsReported) && removalsReported == old(removalsReported)
    {
      matched := matched + [s];
      matchedLog := matchedLog + [s];
    }

    /** The kernel queues a terminated service on the termination iterator. */
    method KernelTerminated(s: ServiceHandle)
      requires Valid()
      modifies this
      ensures Valid()
      ensures terminated == old(terminated) + [s] && matched == old(matched)
      ensures terminatedLog == old(terminatedLog) + [s] && matchedLog == old(matchedLog)
      ensures matchedTaken == old(matchedTaken) && terminatedTaken == old(terminatedTaken)
      ensures arrivalsReported == old(arrivalsReported) && removalsReported == old(removalsReported)
    {
      terminated := terminated + [s];
      terminatedLog := terminatedLog + [s];
    }
  }

  /** A device present at startup is drained silently; one plugged in later is
      reported as Connected, and its removal as Disconnected with its registry id. */
  method StartupThenPlugAndUnplug(dev: DeviceInfo, id: u64)
  {
    var probe: Probe := s => if s == 1 || s == 2 then Some(dev) else None;
    var registryId: RegistryLookup := s => if s == 2 then Some(id) else None;
    var r := MacHotplugWatch.New(false, IOReturnSuccess, IOReturnSuccess, [], [1]);
    assert r.Ok?;
    var w := r.value;
    var p := w.PollNext(probe, registryId);
    assert p == Pending && w.arrivalsReported == {};
    w.KernelMatched(2);
    p := w.PollNext(probe, registryId);
    assert p == Ready(Connected(dev)) && w.arrivalsReported == {1};
    w.KernelTerminated(2);
    p := w.PollNext(probe, registryId);
    assert p == Ready(Disconnected(DeviceId(id)));
  }
}
