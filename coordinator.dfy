/** RepelBridgeDataUpdateCoordinator (custom_components/repelbridge/__init__.py,
    lines 130-177): one refresh cycle reads the system status, then the four
    sub-resources of bus 0 and of bus 1, and assembles a Snapshot. */
module Coordinator {
  import opened Wrappers
  import opened DeviceData
  import opened Calls
  import opened Api

  /** What `_async_update_data` produces: the new data, or `UpdateFailed`. */
  datatype Update = Updated(snapshot: Snapshot) | UpdateFailed

  /** What happens to one bus within a cycle: its record is stored, it is
      dropped (an `aiohttp.ClientError`, caught per bus) or the whole cycle is
      aborted (any other exception, caught by the outer handler). */
  datatype BusOutcome = Stored(record: BusRecord) | Dropped | Aborted

  /** The four reads of one bus, in the order the source awaits them. */
  function BusReads(b: int): seq<Operation> {
    [GetBusStatus(b), GetCartridgeStatus(b), GetAutoShutoff(b), GetWarnAt(b)]
  }

  /** Whether a read returns normally on this device. */
  predicate ReadOk(dev: Device, op: Operation) {
    match op
    case GetSystemStatus => dev.system.Ok?
    case GetBusStatus(b) => dev.status(b).Ok?
    case GetCartridgeStatus(b) => dev.cartridge(b).Ok?
    case GetAutoShutoff(b) => dev.autoShutoff(b).Ok?
    case GetWarnAt(b) => dev.warnAt(b).Ok?
    case _ => true
  }

  /** Whether a read raises `aiohttp.ClientError` on this device. */
  predicate ReadClientErr(dev: Device, op: Operation) {
    match op
    case GetSystemStatus => dev.system.ClientErr?
    case GetBusStatus(b) => dev.status(b).ClientErr?
    case GetCartridgeStatus(b) => dev.cartridge(b).ClientErr?
    case GetAutoShutoff(b) => dev.autoShutoff(b).ClientErr?
    case GetWarnAt(b) => dev.warnAt(b).ClientErr?
    case _ => false
  }

  /** ReadOk as a function value, for UntilFailure. */
  function ReadsOk(dev: Device): Operation -> bool {
    op => ReadOk(dev, op)
  }

  /** The reads of bus b that are actually sent: up to and including the first
      one that raises. */
  function BusTrace(dev: Device, b: int): seq<Operation> {
    UntilFailure(BusReads(b), ReadsOk(dev))
  }

  /** The per-bus block of the loop body (lines 157-172). */
  function FetchBus(dev: Device, b: int): BusOutcome {
    match dev.status(b)
    case ClientErr => Dropped
    case OtherErr => Aborted
    case Ok(status) =>
      match dev.cartridge(b)
      case ClientErr => Dropped
      case OtherErr => Aborted
      case Ok(cartridge) =>
        match dev.autoShutoff(b)
        case ClientErr => Dropped
        case OtherErr => Aborted
        case Ok(autoShutoff) =>
          match dev.warnAt(b)
          case ClientErr => Dropped
          case OtherErr => Aborted
          case Ok(warnAt) => Stored(BusRecord(status, cartridge, autoShutoff, warnAt))
  }

  /** `data["buses"]` after visiting ids in order, or None once a bus aborted. */
  function BusesAfter(dev: Device, ids: seq<int>): Option<map<int, BusRecord>>
    decreases |ids|
  {
    if ids == [] then Some(map[])
    else
      var b := ids[|ids| - 1];
      match BusesAfter(dev, ids[..|ids| - 1])
      case None => None
      case Some(buses) =>
        match FetchBus(dev, b)
        case Stored(record) => Some(buses[b := record])
        case Dropped => Some(buses)
        case Aborted => None
  }

  /** The reads sent while visiting ids in order. */
  function TraceAfter(dev: Device, ids: seq<int>): seq<Operation>
    decreases |ids|
  {
    if ids == [] then []
    else
      var prefix := ids[..|ids| - 1];
      if BusesAfter(dev, prefix).None? then TraceAfter(dev, prefix)
      else TraceAfter(dev, prefix) + BusTrace(dev, ids[|ids| - 1])
  }

  /** The buses for which a warning was logged, in order. */
  function WarningsAfter(dev: Device, ids: seq<int>): seq<int>
    decreases |ids|
  {
    if ids == [] then []
    else
      var prefix := ids[..|ids| - 1];
      var b := ids[|ids| - 1];
      if BusesAfter(dev, prefix).Some? && FetchBus(dev, b).Dropped? then WarningsAfter(dev, prefix) + [b]
      else WarningsAfter(dev, prefix)
  }

  /** The whole cycle as a function of the device's answers. */
  function RefreshSpec(dev: Device): Update {
    match dev.system
    case Ok(system) =>
      (match BusesAfter(dev, BusIds)
       case Some(buses) => Updated(Snapshot(system, buses))
       case None => UpdateFailed)
    case _ => UpdateFailed
  }

  /** The reads a cycle sends, in order. */
  function RefreshTrace(dev: Device): seq<Operation> {
    [GetSystemStatus] + (if dev.system.Ok? then TraceAfter(dev, BusIds) else [])
  }

  /** The warnings a cycle logs. */
  function RefreshWarnings(dev: Device): seq<int> {
    if dev.system.Ok? then WarningsAfter(dev, BusIds) else []
  }

  /** Visiting one more bus after a prefix that did not abort. */
  lemma VisitNext(dev: Device, prefix: seq<int>, b: int)
    requires BusesAfter(dev, prefix).Some?
    ensures var buses := BusesAfter(dev, prefix).value;
            var next := prefix + [b];
            && BusesAfter(dev, next) == (match FetchBus(dev, b)
                                         case Stored(record) => Some(buses[b := record])
                                         case Dropped => Some(buses)
                                         case Aborted => None)
            && TraceAfter(dev, next) == TraceAfter(dev, prefix) + BusTrace(dev, b)
            && WarningsAfter(dev, next) == WarningsAfter(dev, prefix) + (if FetchBus(dev, b).Dropped? then [b] else [])
  {
    assert (prefix + [b])[..|prefix|] == prefix;
  }

  /** Once a bus aborted the cycle, visiting further ids changes nothing. */
  lemma {:induction false} AbortIsFinal(dev: Device, ids: seq<int>, k: nat)
    requires k <= |ids| && BusesAfter(dev, ids[..k]).None?
    ensures BusesAfter(dev, ids).None?
    ensures TraceAfter(dev, ids) == TraceAfter(dev, ids[..k])
    ensures WarningsAfter(dev, ids) == WarningsAfter(dev, ids[..k])
    decreases |ids|
  {
    if k < |ids| {
      var prefix := ids[..|ids| - 1];
      assert ids[..k] == prefix[..k];
      AbortIsFinal(dev, prefix, k);
    } else {
      assert ids[..k] == ids;
    }
  }

  /** All four reads of bus b return normally. */
  predicate AllReadsOk(dev: Device, b: int) {
    dev.status(b).Ok? && dev.cartridge(b).Ok? && dev.autoShutoff(b).Ok? && dev.warnAt(b).Ok?
  }

  /** The record built from the four responses of bus b. */
  function RecordOf(dev: Device, b: int): BusRecord
    requires AllReadsOk(dev, b)
  {
    BusRecord(dev.status(b).value, dev.cartridge(b).value, dev.autoShutoff(b).value, dev.warnAt(b).value)
  }

  /** The reads sent for bus b, spelled out: each read is sent only after the
      previous one returned. */
  lemma BusTraceCases(dev: Device, b: int)
    ensures BusTrace(dev, b) ==
              if !dev.status(b).Ok? then [GetBusStatus(b)]
              else if !dev.cartridge(b).Ok? then [GetBusStatus(b), GetCartridgeStatus(b)]
              else if !dev.autoShutoff(b).Ok? then [GetBusStatus(b), GetCartridgeStatus(b), GetAutoShutoff(b)]
              else BusReads(b)
  {
    var ok := ReadsOk(dev);
    var four := BusReads(b);
    var tail1 := [GetCartridgeStatus(b), GetAutoShutoff(b), GetWarnAt(b)];
    var tail2 := [GetAutoShutoff(b), GetWarnAt(b)];
    var tail3 := [GetWarnAt(b)];
    assert four[1..] == tail1 && tail1[1..] == tail2 && tail2[1..] == tail3 && tail3[1..] == [];
    assert UntilFailure(tail3, ok) == tail3;
    if dev.autoShutoff(b).Ok? {
      assert UntilFailure(tail2, ok) == tail2;
    }
    if dev.cartridge(b).Ok? && dev.autoShutoff(b).Ok? {
      assert UntilFailure(tail1, ok) == tail1;
    }
  }

  /** FetchBus stores a record exactly when all four reads succeed (and the
      record holds those four responses); otherwise the last read sent is the
      one that failed, and the bus is dropped exactly when that failure is an
      `aiohttp.ClientError`. */
  lemma BusOutcomeByReads(dev: Device, b: int)
    ensures FetchBus(dev, b).Stored? <==> AllReadsOk(dev, b)
    ensures FetchBus(dev, b).Stored? ==> FetchBus(dev, b).record == RecordOf(dev, b)
    ensures var t := BusTrace(dev, b);
            !FetchBus(dev, b).Stored? ==>
              t != [] && !ReadOk(dev, t[|t| - 1]) &&
              (FetchBus(dev, b).Dropped? <==> ReadClientErr(dev, t[|t| - 1]))
  {
    BusTraceCases(dev, b);
  }

  /** The cycle fails exactly when the system status read fails or some bus
      read raises anything other than `aiohttp.ClientError`. */
  lemma RefreshFailsIff(dev: Device)
    ensures RefreshSpec(dev).UpdateFailed? <==>
              !dev.system.Ok? || FetchBus(dev, 0).Aborted? || FetchBus(dev, 1).Aborted?
  {
    assert BusIds[..1] == [0];
    assert [0][..0] == [];
  }

  /** No partial records: a bus is a key of `buses` exactly when it is 0 or 1
      and all four of its reads succeeded, and its record holds those four
      responses. Whether a bus is stored depends on its own reads only. */
  lemma StoredIffAllReadsOk(dev: Device, b: int)
    requires RefreshSpec(dev).Updated?
    ensures var buses := RefreshSpec(dev).snapshot.buses;
            (b in buses <==> (b == 0 || b == 1) && AllReadsOk(dev, b)) &&
            (b in buses ==> buses[b] == RecordOf(dev, b))
  {
    assert BusIds[..1] == [0];
    assert [0][..0] == [];
    BusOutcomeByReads(dev, b);
  }

  /** A successful cycle only ever holds buses 0 and 1. */
  lemma BusesWithinFixedIds(dev: Device)
    requires RefreshSpec(dev).Updated?
    ensures RefreshSpec(dev).snapshot.buses.Keys <= {0, 1}
  {
    forall b | b in RefreshSpec(dev).snapshot.buses ensures b in {0, 1} {
      StoredIffAllReadsOk(dev, b);
    }
  }

  /** The reads in order: the system status first; if it failed nothing else;
      otherwise bus 0's reads up to its first failure, then bus 1's unless bus
      0 aborted the cycle. */
  lemma RefreshTraceShape(dev: Device)
    ensures RefreshTrace(dev) ==
              [GetSystemStatus] +
              (if !dev.system.Ok? then []
               else BusTrace(dev, 0) + (if FetchBus(dev, 0).Aborted? then [] else BusTrace(dev, 1)))
  {
    assert BusIds[..1] == [0];
    assert [0][..0] == [];
  }

  /** No read ever names a bus other than 0 or 1. */
  lemma TraceOnlyFixedBuses(dev: Device)
    ensures forall i :: 0 <= i < |RefreshTrace(dev)| && !RefreshTrace(dev)[i].GetSystemStatus? ==>
              RefreshTrace(dev)[i].bus in {0, 1}
  {
    RefreshTraceShape(dev);
    BusTraceCases(dev, 0);
    BusTraceCases(dev, 1);
  }

  /** Warnings are logged for exactly the buses that were dropped, in order,
      when the cycle does not fail. */
  lemma WarningsAreDroppedBuses(dev: Device)
    requires RefreshSpec(dev).Updated?
    ensures RefreshWarnings(dev) ==
              (if FetchBus(dev, 0).Dropped? then [0] else []) + (if FetchBus(dev, 1).Dropped? then [1] else [])
  {
    assert BusIds[..1] == [0];
    assert [0][..0] == [];
  }

  /** Bus 0 answers every read, bus 1's cartridge read fails with a
      ClientError (an HTTP 500 through `raise_for_status`): the cycle
      succeeds with bus 0 alone and one warning, for bus 1. */
  lemma OneBusDropped(dev: Device)
    requires dev.system.Ok? && AllReadsOk(dev, 0)
    requires dev.status(1).Ok? && dev.cartridge(1).ClientErr?
    ensures RefreshSpec(dev) == Updated(Snapshot(dev.system.value, map[0 := RecordOf(dev, 0)]))
    ensures RefreshWarnings(dev) == [1]
  {
    BusOutcomeByReads(dev, 0);
    BusTraceCases(dev, 1);
    assert BusIds[..1] == [0];
    assert [0][..0] == [];
  }

  /** The coordinator as the platform runs it: the last successful data and a
      success flag. A failed cycle keeps the previous data. */
  class Coordinator {
    const host: string
    var lastUpdateSuccess: bool
    var data: Option<Snapshot>

    /** The platform starts a coordinator with no data and the flag set. */
    constructor (host: string)
      ensures this.host == host && lastUpdateSuccess && data == None
    {
      this.host := host;
      lastUpdateSuccess := true;
      data := None;
    }

    /** The `try` block for one bus (lines 157-168): the four reads in order,
        each awaited only after the previous one returned. */
    method FetchBusData(dev: Device, b: int) returns (outcome: BusOutcome, trace: seq<Operation>)
      ensures outcome == FetchBus(dev, b)
      ensures trace == BusTrace(dev, b)
    {
      BusTraceCases(dev, b);
      var status := dev.status(b);
      trace := [GetBusStatus(b)];
      if !status.Ok? {
        return if status.ClientErr? then Dropped else Aborted, trace;
      }
      var cartridge := dev.cartridge(b);
      trace := trace + [GetCartridgeStatus(b)];
      if !cartridge.Ok? {
        return if cartridge.ClientErr? then Dropped else Aborted, trace;
      }
      var autoShutoff := dev.autoShutoff(b);
      trace := trace + [GetAutoShutoff(b)];
      if !autoShutoff.Ok? {
        return if autoShutoff.ClientErr? then Dropped else Aborted, trace;
      }
      var warnAt := dev.warnAt(b);
      trace := trace + [GetWarnAt(b)];
      if !warnAt.Ok? {
        return if warnAt.ClientErr? then Dropped else Aborted, trace;
      }
      outcome := Stored(BusRecord(status.value, cartridge.value, autoShutoff.value, warnAt.value));
    }

    /** The loop `for bus_id in [0, 1]` (lines 156-172): `data["buses"]`
        filled in place; a ClientError drops that bus with a warning and the
        loop goes on, anything else ends the cycle (None). */
    method FetchBuses(dev: Device) returns (buses: Option<map<int, BusRecord>>, trace: seq<Operation>, warnings: seq<int>)
      ensures buses == BusesAfter(dev, BusIds)
      ensures trace == TraceAfter(dev, BusIds)
      ensures warnings == WarningsAfter(dev, BusIds)
    {
      var stored: map<int, BusRecord> := map[];
      trace, warnings := [], [];
      var ids := BusIds;
      var i := 0;
      while i < |ids|
        invariant 0 <= i <= |ids|
        invariant BusesAfter(dev, ids[..i]) == Some(stored)
        invariant trace == TraceAfter(dev, ids[..i])
        invariant warnings == WarningsAfter(dev, ids[..i])
      {
        var b := ids[i];
        assert ids[..i + 1] == ids[..i] + [b];
        VisitNext(dev, ids[..i], b);
        var outcome, busTrace := FetchBusData(dev, b);
        trace := trace + busTrace;
        match outcome {
          case Stored(record) =>
            stored := stored[b := record];
          case Dropped =>
            warnings := warnings + [b];
          case Aborted =>
            AbortIsFinal(dev, ids, i + 1);
            return None, trace, warnings;
        }
        i := i + 1;
      }
      assert ids[..i] == ids;
      buses := Some(stored);
    }

    /** `_async_update_data`: the system status first, where any failure is
        fatal, then the loop over the buses. */
    method FetchData(dev: Device) returns (r: Update, trace: seq<Operation>, warnings: seq<int>)
      ensures r == RefreshSpec(dev)
      ensures trace == RefreshTrace(dev)
      ensures warnings == RefreshWarnings(dev)
    {
      if !dev.system.Ok? {
        return UpdateFailed, [GetSystemStatus], [];
      }
      var system := dev.system.value;
      var buses, busTrace;
      buses, busTrace, warnings := FetchBuses(dev);
      trace := [GetSystemStatus] + busTrace;
      r := if buses.Some? then Updated(Snapshot(system, buses.value)) else UpdateFailed;
    }

    /** One cycle as the platform applies it: a result replaces the data and
        sets the flag; `UpdateFailed` clears the flag and keeps the data. */
    method Refresh(dev: Device) returns (trace: seq<Operation>)
      modifies this
      ensures trace == RefreshTrace(dev)
      ensures RefreshSpec(dev).Updated? ==> lastUpdateSuccess && data == Some(RefreshSpec(dev).snapshot)
      ensures RefreshSpec(dev).UpdateFailed? ==> !lastUpdateSuccess && data == old(data)
    {
      var r, warnings;
      r, trace, warnings := FetchData(dev);
      match r {
        case Updated(s) =>
          data := Some(s);
          lastUpdateSuccess := true;
        case UpdateFailed =>
          lastUpdateSuccess := false;
      }
    }
  }
}
