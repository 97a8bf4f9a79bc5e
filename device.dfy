/**
 * One configured device (src/device.rs): while the shared `running` flag is
 * set, it waits for a HID device with its vendor and product id, opens it,
 * and feeds every report it reads to a fresh decoder, executing the macro
 * bound to each RELEASED key.
 *
 * The HID library is an oracle `Hid`: the device list the `n`-th refresh sees,
 * whether the `n`-th open succeeds, and what the `n`-th read returns (an error
 * or the bytes delivered, of which the first 8 fit the report buffer). The
 * flag is modelled by `live`, the number of loads that still return true: it
 * starts set and, once cleared, stays cleared, so both loops end after `live`
 * loads in all. Sleeps are recorded as `Slept` effects and executed macros as
 * `Ran` effects.
 */
module Device {

  import opened Wrappers
  import opened Keys
  import opened Keyboard
  import Macros

  type U16 = x: int | 0 <= x < 0x1_0000

  /** The pause after a failed probe or a failed open. */
  const WaitMs: nat := 5000

  datatype DeviceInfo = DeviceInfo(vendorId: U16, productId: U16)

  datatype ReadResult = ReadError | Received(data: seq<Byte>)

  /** The HID library: the `n`-th device-list refresh, open and read, by call number. */
  datatype Hid = Hid(deviceListAt: nat -> seq<DeviceInfo>, openAt: nat -> bool, readAt: nat -> ReadResult)

  /** A device to listen to, with its key bindings (`MacrosBinding`). */
  datatype Device = Device(vid: U16, pid: U16, macros: map<Key, Macros.Macro>)

  predicate Matches(dev: Device, info: DeviceInfo)
  {
    info.vendorId == dev.vid && info.productId == dev.pid
  }

  /** Some enumerated device has the configured vendor and product id. */
  predicate Present(dev: Device, devices: seq<DeviceInfo>)
  {
    exists i :: 0 <= i < |devices| && Matches(dev, devices[i])
  }

  /** Searches the device list of the latest refresh for the configured ids. */
  method IsPresent(dev: Device, devices: seq<DeviceInfo>) returns (present: bool)
    ensures present <==> exists i :: 0 <= i < |devices| && devices[i].vendorId == dev.vid && devices[i].productId == dev.pid
  {
    for i := 0 to |devices|
      invariant forall j :: 0 <= j < i ==> !Matches(dev, devices[j])
    {
      if devices[i].vendorId == dev.vid && devices[i].productId == dev.pid {
        return true;
      }
    }
    return false;
  }

  // ---------------------------------------------------------------------------
  // One read
  // ---------------------------------------------------------------------------

  /** The number of bytes a read stores in the 8-byte report buffer. */
  function ReadLength(data: seq<Byte>): (n: nat)
    ensures n <= ReportLength && (n == |data| || n == ReportLength < |data|)
  {
    if |data| < ReportLength then |data| else ReportLength
  }

  /** The report buffer after a read: zeroed before the read, then overwritten by the bytes delivered. */
  function Fill(data: seq<Byte>): (buf: seq<Byte>)
    ensures |buf| == ReportLength
    ensures forall j :: 0 <= j < ReadLength(data) ==> buf[j] == data[j]
    ensures forall j :: ReadLength(data) <= j < ReportLength ==> buf[j] == 0
  {
    seq(ReportLength, j requires 0 <= j < ReportLength => if j < |data| then data[j] else 0)
  }

  /** The keys whose macro runs for a list of events: RELEASED keys that are bound, in event order. */
  function Dispatch(macros: map<Key, Macros.Macro>, events: seq<KeyEvent>): seq<Key>
  {
    if events == [] then []
    else
      var e := events[|events| - 1];
      Dispatch(macros, events[..|events| - 1]) + (if e.eventType == Released && e.key in macros then [e.key] else [])
  }

  /** The bound keys among `keys`, in order. */
  function Bound(macros: map<Key, Macros.Macro>, keys: seq<Key>): seq<Key>
  {
    if keys == [] then []
    else Bound(macros, keys[..|keys| - 1]) + (if keys[|keys| - 1] in macros then [keys[|keys| - 1]] else [])
  }

  /** The keys whose macro runs for one report: the bound keys it releases. */
  function ReportRan(macros: map<Key, Macros.Macro>, previous: seq<Key>, buf: seq<Byte>, n: nat): seq<Key>
    requires |buf| == ReportLength && n <= ReportLength
  {
    Bound(macros, ReleasedKeys(ScanReport(previous, Slots(buf, n)).previous))
  }

  /** The event loop of `process_events` (src/device.rs lines 89-97): PRESSED skipped, unbound keys ignored. */
  method DispatchEvents(macros: map<Key, Macros.Macro>, events: seq<KeyEvent>) returns (ran: seq<Key>)
    ensures ran == Dispatch(macros, events)
  {
    ran := [];
    for i := 0 to |events|
      invariant ran == Dispatch(macros, events[..i])
    {
      assert events[..i + 1][..i] == events[..i];
      var event := events[i];
      if event.eventType == Pressed {
        continue;
      }
      if event.key in macros {
        ran := ran + [event.key];
      }
    }
    assert events[..|events|] == events;
  }

  // ---------------------------------------------------------------------------
  // One connection: process_events
  // ---------------------------------------------------------------------------

  /**
   * What one connection did: the keys whose macros ran, the number of the next
   * read, the number of loads of the flag that returned true, and whether it
   * ended on a read error (otherwise it ended because the flag was cleared).
   */
  datatype Session = Session(executed: seq<Key>, nextRead: nat, loads: nat, failed: bool)

  /** A session that first ran `executed` on one more load, then continued as `s`. */
  function Later(executed: seq<Key>, s: Session): Session
  {
    Session(executed + s.executed, s.nextRead, s.loads + 1, s.failed)
  }

  /**
   * The connection from read number `next` on, with decoder state `previous`
   * and `budget` loads of the flag still returning true: it ends when the flag
   * is cleared, and otherwise reads.
   */
  function ProcessSpec(macros: map<Key, Macros.Macro>, previous: seq<Key>, readAt: nat -> ReadResult,
                       next: nat, budget: nat): (s: Session)
    ensures s.loads <= budget
    ensures s.nextRead == next + s.loads
    ensures !s.failed ==> s.loads == budget
    decreases budget, 2
  {
    if budget == 0 then Session([], next, 0, false)
    else ProcessRead(macros, previous, readAt, next, budget)
  }

  /**
   * The connection once the flag has been seen set: a read error ends it, a
   * read of no bytes is skipped, and any other report is decoded and its
   * bound RELEASED keys run.
   */
  function ProcessRead(macros: map<Key, Macros.Macro>, previous: seq<Key>, readAt: nat -> ReadResult,
                       next: nat, budget: nat): (s: Session)
    requires budget > 0
    ensures 0 < s.loads <= budget
    ensures s.nextRead == next + s.loads
    ensures !s.failed ==> s.loads == budget
    decreases budget, 1
  {
    match readAt(next)
    case ReadError => Session([], next + 1, 1, true)
    case Received(data) =>
      var n := ReadLength(data);
      if n == 0 then Later([], ProcessSpec(macros, previous, readAt, next + 1, budget - 1))
      else ProcessReport(macros, previous, readAt, next, budget, Fill(data), n)
  }

  /** The connection after read number `next` delivered the report `buf` of length `n`: it is decoded, then reading goes on. */
  function ProcessReport(macros: map<Key, Macros.Macro>, previous: seq<Key>, readAt: nat -> ReadResult,
                         next: nat, budget: nat, buf: seq<Byte>, n: nat): (s: Session)
    requires budget > 0 && |buf| == ReportLength && n <= ReportLength
    ensures 0 < s.loads <= budget
    ensures s.nextRead == next + s.loads
    ensures !s.failed ==> s.loads == budget
    decreases budget, 0
  {
    Later(ReportRan(macros, previous, buf, n),
          ProcessSpec(macros, NextPrevious(previous, buf, n), readAt, next + 1, budget - 1))
  }

  /** The prefix already done, followed by the rest of a session. */
  function After(executed: seq<Key>, loads: nat, rest: Session): Session
  {
    Session(executed + rest.executed, rest.nextRead, loads + rest.loads, rest.failed)
  }

  /** Reads and dispatches reports from an opened device, starting at read number `first`, with a fresh decoder. */
  method ProcessEvents(macros: map<Key, Macros.Macro>, readAt: nat -> ReadResult, first: nat, budget: nat)
    returns (s: Session)
    ensures s == ProcessSpec(macros, [], readAt, first, budget)
  {
    var keyboard := new Keyboard();
    var executed: seq<Key> := [];
    var next := first;
    var loads := 0;
    ghost var left := budget;
    ghost var total := ProcessSpec(macros, [], readAt, first, budget);
    while loads < budget
      invariant loads + left == budget && next == first + loads
      invariant After(executed, loads, ProcessSpec(macros, keyboard.previousEvents, readAt, next, left)) == total
      decreases left
    {
      ghost var before := ProcessSpec(macros, keyboard.previousEvents, readAt, next, left);
      var ran, failed := HandleRead(keyboard, macros, readAt, next, left);
      if failed {
        AfterFailure(executed, loads, before, next + 1, total);
        return Session(executed, next + 1, loads + 1, true);
      }
      AfterStep(executed, loads, ran, before, ProcessSpec(macros, keyboard.previousEvents, readAt, next + 1, left - 1), total);
      executed := executed + ran;
      loads := loads + 1;
      next := next + 1;
      left := left - 1;
    }
    assert executed + [] == executed;
    return Session(executed, next, loads, false);
  }

  /**
   * One iteration of the loop of `process_events` (src/device.rs lines 76-98)
   * after the flag was seen set: read number `next` either fails, delivers no
   * bytes, or delivers a report that is decoded and dispatched.
   */
  method HandleRead(keyboard: Keyboard, macros: map<Key, Macros.Macro>, readAt: nat -> ReadResult, next: nat, ghost budget: nat)
    returns (ran: seq<Key>, failed: bool)
    requires budget > 0
    modifies keyboard
    ensures failed <==> readAt(next).ReadError?
    ensures failed ==> ProcessSpec(macros, old(keyboard.previousEvents), readAt, next, budget) == Session([], next + 1, 1, true)
    ensures !failed ==> ProcessSpec(macros, old(keyboard.previousEvents), readAt, next, budget)
                        == Later(ran, ProcessSpec(macros, keyboard.previousEvents, readAt, next + 1, budget - 1))
  {
    var result := readAt(next);
    match result {
      case ReadError =>
        return [], true;
      case Received(data) =>
        var n := ReadLength(data);
        if n == 0 {
          return [], false;
        }
        var buf := Fill(data);
        ghost var previous := keyboard.previousEvents;
        assert ProcessSpec(macros, previous, readAt, next, budget) == ProcessReport(macros, previous, readAt, next, budget, buf, n);
        ran := HandleReport(keyboard, macros, buf, n);
        return ran, false;
    }
  }

  /** Decodes one report with `keyboard` and runs the macros of its RELEASED keys (src/device.rs lines 89-97). */
  method HandleReport(keyboard: Keyboard, macros: map<Key, Macros.Macro>, buf: seq<Byte>, n: nat) returns (ran: seq<Key>)
    requires |buf| == ReportLength && n <= ReportLength
    modifies keyboard
    ensures ran == ReportRan(macros, old(keyboard.previousEvents), buf, n)
    ensures keyboard.previousEvents == NextPrevious(old(keyboard.previousEvents), buf, n)
  {
    ghost var previous := keyboard.previousEvents;
    var events := keyboard.Events(buf, n);
    ran := DispatchEvents(macros, events);
    DispatchOfDecode(macros, previous, buf, n);
  }

  /** Dispatching all events of a report runs the macros of exactly its bound released keys. */
  lemma DispatchOfDecode(macros: map<Key, Macros.Macro>, previous: seq<Key>, buf: seq<Byte>, n: nat)
    requires |buf| == ReportLength && n <= ReportLength
    ensures Dispatch(macros, Decode(previous, buf, n)) == ReportRan(macros, previous, buf, n)
  {
    var s := ScanReport(previous, Slots(buf, n));
    DispatchConcat(macros, EventsOf(s.pressed, Pressed), EventsOf(ReleasedKeys(s.previous), Released));
    DispatchPressed(macros, s.pressed);
    DispatchReleased(macros, ReleasedKeys(s.previous));
  }

  lemma {:induction false} DispatchConcat(macros: map<Key, Macros.Macro>, a: seq<KeyEvent>, b: seq<KeyEvent>)
    ensures Dispatch(macros, a + b) == Dispatch(macros, a) + Dispatch(macros, b)
  {
    if b == [] {
      assert a + b == a;
    } else {
      assert (a + b)[..|a + b| - 1] == a + b[..|b| - 1];
      DispatchConcat(macros, a, b[..|b| - 1]);
    }
  }

  /** PRESSED events never run a macro. */
  lemma {:induction false} DispatchPressed(macros: map<Key, Macros.Macro>, keys: seq<Key>)
    ensures Dispatch(macros, EventsOf(keys, Pressed)) == []
  {
    if keys != [] {
      assert EventsOf(keys, Pressed)[..|keys| - 1] == EventsOf(keys[..|keys| - 1], Pressed);
      DispatchPressed(macros, keys[..|keys| - 1]);
    }
  }

  /** RELEASED events run the macros of their bound keys. */
  lemma {:induction false} DispatchReleased(macros: map<Key, Macros.Macro>, keys: seq<Key>)
    ensures Dispatch(macros, EventsOf(keys, Released)) == Bound(macros, keys)
  {
    if keys != [] {
      assert EventsOf(keys, Released)[..|keys| - 1] == EventsOf(keys[..|keys| - 1], Released);
      DispatchReleased(macros, keys[..|keys| - 1]);
    }
  }

  /** A key's macro runs for a list of events exactly when the key is bound and some event releases it. */
  lemma {:induction false} DispatchMembers(macros: map<Key, Macros.Macro>, events: seq<KeyEvent>, k: Key)
    ensures k in Dispatch(macros, events) <==> k in macros && KeyEvent(k, Released) in events
  {
    if events != [] {
      var init := events[..|events| - 1];
      DispatchMembers(macros, init, k);
      assert events == init + [events[|events| - 1]];
    }
  }

  /** Removing a PRESSED event from anywhere in the list changes nothing that runs. */
  lemma DispatchIgnoresPressed(macros: map<Key, Macros.Macro>, before: seq<KeyEvent>, k: Key, after: seq<KeyEvent>)
    ensures Dispatch(macros, before + [KeyEvent(k, Pressed)] + after) == Dispatch(macros, before + after)
  {
    var pressed := before + [KeyEvent(k, Pressed)];
    assert pressed[..|pressed| - 1] == before;
    DispatchConcat(macros, pressed, after);
    DispatchConcat(macros, before, after);
  }

  /** The keys kept by `Bound` are those of the list that are bound. */
  lemma {:induction false} BoundMembers(macros: map<Key, Macros.Macro>, keys: seq<Key>, k: Key)
    ensures k in Bound(macros, keys) <==> k in keys && k in macros
  {
    if keys != [] {
      var init := keys[..|keys| - 1];
      BoundMembers(macros, init, k);
      assert keys == init + [keys[|keys| - 1]];
    }
  }

  /** A read that delivers no bytes uses one load and one read, runs nothing and leaves the decoder alone. */
  lemma EmptyReadSkipped(macros: map<Key, Macros.Macro>, previous: seq<Key>, readAt: nat -> ReadResult, next: nat, budget: nat)
    requires budget > 0 && readAt(next).Received? && ReadLength(readAt(next).data) == 0
    ensures ProcessSpec(macros, previous, readAt, next, budget)
            == Later([], ProcessSpec(macros, previous, readAt, next + 1, budget - 1))
  {
  }

  /** A read error ends the connection at once: one load, one read, nothing run. */
  lemma ReadErrorEndsConnection(macros: map<Key, Macros.Macro>, previous: seq<Key>, readAt: nat -> ReadResult, next: nat, budget: nat)
    requires budget > 0 && readAt(next).ReadError?
    ensures ProcessSpec(macros, previous, readAt, next, budget) == Session([], next + 1, 1, true)
  {
  }

  /**
   * A connection fails exactly on its first read error: every read before
   * the last one it made delivered data, and the last one failed if and only
   * if the connection did.
   */
  lemma {:induction false} EndsAtFirstError(macros: map<Key, Macros.Macro>, previous: seq<Key>, readAt: nat -> ReadResult,
                                            next: nat, budget: nat)
    ensures var s := ProcessSpec(macros, previous, readAt, next, budget);
            (forall j :: next <= j < s.nextRead - 1 ==> readAt(j).Received?) &&
            (s.loads > 0 ==> (s.failed <==> readAt(s.nextRead - 1).ReadError?))
    decreases budget
  {
    if budget > 0 && readAt(next).Received? {
      var after := ReceivedStep(macros, previous, readAt, next, budget);
      EndsAtFirstError(macros, after, readAt, next + 1, budget - 1);
    }
  }

  /** A read that delivers data hands the rest of the connection over, with decoder state `after`, to the next read. */
  lemma ReceivedStep(macros: map<Key, Macros.Macro>, previous: seq<Key>, readAt: nat -> ReadResult, next: nat, budget: nat)
    returns (after: seq<Key>)
    requires budget > 0 && readAt(next).Received?
    ensures var s := ProcessSpec(macros, previous, readAt, next, budget);
            var rest := ProcessSpec(macros, after, readAt, next + 1, budget - 1);
            s.nextRead == rest.nextRead && s.loads == rest.loads + 1 && s.failed == rest.failed
  {
    var data := readAt(next).data;
    var n := ReadLength(data);
    if n == 0 {
      after := previous;
    } else {
      after := NextPrevious(previous, Fill(data), n);
      assert ProcessSpec(macros, previous, readAt, next, budget)
             == ProcessReport(macros, previous, readAt, next, budget, Fill(data), n);
    }
  }

  /** Only bound keys ever run during a connection. */
  lemma {:induction false} ProcessRunsOnlyBound(macros: map<Key, Macros.Macro>, previous: seq<Key>, readAt: nat -> ReadResult,
                                                next: nat, budget: nat, k: Key)
    requires k in ProcessSpec(macros, previous, readAt, next, budget).executed
    ensures k in macros
    decreases budget
  {
    match readAt(next)
    case ReadError =>
    case Received(data) =>
      var n := ReadLength(data);
      if n == 0 {
        ProcessRunsOnlyBound(macros, previous, readAt, next + 1, budget - 1, k);
      } else {
        var buf := Fill(data);
        var rest := ProcessSpec(macros, NextPrevious(previous, buf, n), readAt, next + 1, budget - 1);
        assert ProcessSpec(macros, previous, readAt, next, budget) == ProcessReport(macros, previous, readAt, next, budget, buf, n);
        if k in ReportRan(macros, previous, buf, n) {
          BoundMembers(macros, ReleasedKeys(ScanReport(previous, Slots(buf, n)).previous), k);
        } else {
          assert k in rest.executed;
          ProcessRunsOnlyBound(macros, NextPrevious(previous, buf, n), readAt, next + 1, budget - 1, k);
        }
      }
  }

  /** A fresh decoder has nothing to release: the first report of a connection runs no macro. */
  lemma FreshDecoderRunsNothing(macros: map<Key, Macros.Macro>, buf: seq<Byte>, n: nat)
    requires |buf| == ReportLength && n <= ReportLength
    ensures ReportRan(macros, [], buf, n) == []
  {
    assert ScanReport([], Slots(buf, n)).previous == [];
  }

  /** Moving one more read from the rest of a session into the prefix done keeps the whole session. */
  lemma AfterStep(executed: seq<Key>, loads: nat, ran: seq<Key>, before: Session, rest: Session, total: Session)
    requires After(executed, loads, before) == total && before == Later(ran, rest)
    ensures After(executed + ran, loads + 1, rest) == total
  {
    assert executed + (ran + rest.executed) == (executed + ran) + rest.executed;
  }

  /** A session whose rest is a single failed read ends there. */
  lemma AfterFailure(executed: seq<Key>, loads: nat, before: Session, nextRead: nat, total: Session)
    requires After(executed, loads, before) == total && before == Session([], nextRead, 1, true)
    ensures total == Session(executed, nextRead, loads + 1, true)
  {
    assert executed + [] == executed;
  }

  // ---------------------------------------------------------------------------
  // The device loop: listen
  // ---------------------------------------------------------------------------

  datatype Effect = Slept(ms: nat) | Ran(key: Key)

  /** What `listen` did: its effects in order and how many probes, opens and reads it made. */
  datatype Run = Run(effects: seq<Effect>, probes: nat, opens: nat, readCalls: nat)

  function RanAll(keys: seq<Key>): (r: seq<Effect>)
    ensures |r| == |keys| && forall i :: 0 <= i < |keys| ==> r[i] == Ran(keys[i])
  {
    seq(|keys|, i requires 0 <= i < |keys| => Ran(keys[i]))
  }

  /** One iteration with the given effects and calls, followed by the run `r`. */
  function Then(effects: seq<Effect>, probes: nat, opens: nat, readCalls: nat, r: Run): Run
  {
    Run(effects + r.effects, probes + r.probes, opens + r.opens, readCalls + r.readCalls)
  }

  /**
   * `listen` from probe `probe`, open `open` and read `read` on, with `budget`
   * loads of the flag still returning true: it ends when the flag is cleared,
   * and otherwise makes one attempt.
   */
  function ListenSpec(dev: Device, hid: Hid, probe: nat, open: nat, read: nat, budget: nat): (r: Run)
    ensures r.probes + r.readCalls == budget
    ensures r.opens <= r.probes
    decreases budget, 2
  {
    if budget == 0 then Run([], 0, 0, 0)
    else ListenStep(dev, hid, probe, open, read, budget)
  }

  /**
   * One attempt once the flag was seen set: an absent device or a failed open
   * costs a wait; an opened device is processed until its connection ends.
   */
  function ListenStep(dev: Device, hid: Hid, probe: nat, open: nat, read: nat, budget: nat): (r: Run)
    requires budget > 0
    ensures r.probes + r.readCalls == budget
    ensures r.opens <= r.probes
    decreases budget, 1
  {
    if !Present(dev, hid.deviceListAt(probe)) then
      Then([Slept(WaitMs)], 1, 0, 0, ListenSpec(dev, hid, probe + 1, open, read, budget - 1))
    else if !hid.openAt(open) then
      Then([Slept(WaitMs)], 1, 1, 0, ListenSpec(dev, hid, probe + 1, open + 1, read, budget - 1))
    else ListenConnected(dev, hid, probe, open, read, budget)
  }

  /** The attempt after a successful open: one connection with a fresh decoder, then `listen` goes on. */
  function ListenConnected(dev: Device, hid: Hid, probe: nat, open: nat, read: nat, budget: nat): (r: Run)
    requires budget > 0
    ensures r.probes + r.readCalls == budget
    ensures r.opens <= r.probes
    decreases budget, 0
  {
    var s := ProcessSpec(dev.macros, [], hid.readAt, read, budget - 1);
    Then(RanAll(s.executed), 1, 1, s.loads, ListenSpec(dev, hid, probe + 1, open + 1, read + s.loads, budget - 1 - s.loads))
  }

  /** Probes, opens and processes the device until the flag is cleared. */
  method Listen(dev: Device, hid: Hid, live: nat) returns (r: Run)
    ensures r == ListenSpec(dev, hid, 0, 0, 0, live)
  {
    var effects: seq<Effect> := [];
    var probes: nat, opens: nat, readCalls: nat := 0, 0, 0;
    var left := live;
    ghost var total := ListenSpec(dev, hid, 0, 0, 0, live);
    while left > 0
      invariant probes + readCalls + left == live
      invariant Then(effects, probes, opens, readCalls, ListenSpec(dev, hid, probes, opens, readCalls, left)) == total
    {
      var more, openCalls, readCount := ListenOnce(dev, hid, probes, opens, readCalls, left);
      ThenThen(effects, probes, opens, readCalls, more, openCalls, readCount,
               ListenSpec(dev, hid, probes + 1, opens + openCalls, readCalls + readCount, left - 1 - readCount));
      effects := effects + more;
      probes := probes + 1;
      opens := opens + openCalls;
      readCalls := readCalls + readCount;
      left := left - 1 - readCount;
    }
    assert effects + [] == effects;
    return Run(effects, probes, opens, readCalls);
  }

  /**
   * One iteration of the loop of `listen` (src/device.rs lines 39-52) after
   * the flag was seen set: it makes one probe, at most one open, and as many
   * reads as the connection used loads.
   */
  method ListenOnce(dev: Device, hid: Hid, probe: nat, open: nat, read: nat, budget: nat)
    returns (effects: seq<Effect>, openCalls: nat, readCount: nat)
    requires budget > 0
    ensures openCalls <= 1 && readCount < budget
    ensures ListenSpec(dev, hid, probe, open, read, budget)
            == Then(effects, 1, openCalls, readCount, ListenSpec(dev, hid, probe + 1, open + openCalls, read + readCount, budget - 1 - readCount))
  {
    var present := IsPresent(dev, hid.deviceListAt(probe));
    if !present {
      return [Slept(WaitMs)], 0, 0;
    }
    var isOpen := hid.openAt(open);
    if !isOpen {
      return [Slept(WaitMs)], 1, 0;
    }
    assert ListenSpec(dev, hid, probe, open, read, budget) == ListenConnected(dev, hid, probe, open, read, budget);
    var s := ProcessEvents(dev.macros, hid.readAt, read, budget - 1);
    return RanAll(s.executed), 1, s.loads;
  }

  /**
   * A read error does not end `listen`: after the failed connection it probes
   * again, with a new open and a fresh decoder.
   */
  lemma ListenAfterError(dev: Device, hid: Hid, probe: nat, open: nat, read: nat, budget: nat)
    requires budget >= 2 && Present(dev, hid.deviceListAt(probe)) && hid.openAt(open) && hid.readAt(read).ReadError?
    ensures ListenSpec(dev, hid, probe, open, read, budget)
            == Then([], 1, 1, 1, ListenSpec(dev, hid, probe + 1, open + 1, read + 1, budget - 2))
  {
    assert ListenSpec(dev, hid, probe, open, read, budget) == ListenConnected(dev, hid, probe, open, read, budget);
    ReadErrorEndsConnection(dev.macros, [], hid.readAt, read, budget - 1);
  }

  /** Every macro `listen` runs is bound to its key. */
  lemma {:induction false} ListenRunsOnlyBound(dev: Device, hid: Hid, probe: nat, open: nat, read: nat, budget: nat, k: Key)
    requires Ran(k) in ListenSpec(dev, hid, probe, open, read, budget).effects
    ensures k in dev.macros
    decreases budget
  {
    if !Present(dev, hid.deviceListAt(probe)) {
      ListenRunsOnlyBound(dev, hid, probe + 1, open, read, budget - 1, k);
    } else if !hid.openAt(open) {
      ListenRunsOnlyBound(dev, hid, probe + 1, open + 1, read, budget - 1, k);
    } else {
      assert ListenSpec(dev, hid, probe, open, read, budget) == ListenConnected(dev, hid, probe, open, read, budget);
      var s := ProcessSpec(dev.macros, [], hid.readAt, read, budget - 1);
      if Ran(k) in RanAll(s.executed) {
        var i :| 0 <= i < |s.executed| && RanAll(s.executed)[i] == Ran(k);
        ProcessRunsOnlyBound(dev.macros, [], hid.readAt, read, budget - 1, k);
      } else {
        ListenRunsOnlyBound(dev, hid, probe + 1, open + 1, read + s.loads, budget - 1 - s.loads, k);
      }
    }
  }

  lemma ThenThen(effects: seq<Effect>, probes: nat, opens: nat, readCalls: nat,
                 more: seq<Effect>, openCalls: nat, readCount: nat, r: Run)
    ensures Then(effects, probes, opens, readCalls, Then(more, 1, openCalls, readCount, r))
            == Then(effects + more, probes + 1, opens + openCalls, readCalls + readCount, r)
  {
    assert effects + (more + r.effects) == (effects + more) + r.effects;
  }
}
