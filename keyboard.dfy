/**
 * The report decoder (src/keyboard.rs, `Keyboard`): it turns one boot-protocol
 * keyboard input report (Appendix B.1 of the HID 1.11 class definition: a
 * modifier byte, a reserved byte and six usage slots) into PRESSED and
 * RELEASED events, keeping the keys it reported as pressed for the next call.
 *
 * The pure functions below say what one call computes; the class `Keyboard`
 * does it the way the source does, by loops that overwrite matched entries of
 * the retained vector with `Unknown`, and is proved to agree with them.
 */
module Keyboard {

  import opened Wrappers
  import opened Keys

  /** Usage code 0x01, ErrorRollOver: it ends the scan of a report. */
  const KeyErrOvf: Byte := 0x01
  /** A boot-protocol report has 8 bytes. */
  const ReportLength: nat := 8
  /** The usage slots start after the modifier byte and the reserved byte. */
  const FirstSlot: nat := 2
  /** The number of usage slots, and the capacity of the retained state. */
  const SlotCount: nat := 6

  datatype KeyEventType = Pressed | Released

  datatype KeyEvent = KeyEvent(key: Key, eventType: KeyEventType)

  // ---------------------------------------------------------------------------
  // One scanned slot: looking up and consuming a retained key
  // ---------------------------------------------------------------------------

  /** The first position of `k` in `s`, or `|s|` when `k` is not in `s`. */
  function FirstIndexOf(s: seq<Key>, k: Key): (i: nat)
    ensures i <= |s|
    ensures i < |s| ==> s[i] == k
    ensures forall j :: 0 <= j < i ==> s[j] != k
  {
    if s == [] then 0
    else if s[0] == k then 0
    else 1 + FirstIndexOf(s[1..], k)
  }

  /** The retained keys after looking up one key, and whether it was found. */
  datatype Consumed = Consumed(previous: seq<Key>, matched: bool)

  /**
   * What `map_previous_state` does: the first retained entry equal to `k`, if
   * any, is overwritten with `Unknown`; nothing else changes.
   */
  function Consume(previous: seq<Key>, k: Key): (c: Consumed)
    ensures c.matched <==> k in previous
    ensures |c.previous| == |previous|
    ensures c.matched ==> c.previous[FirstIndexOf(previous, k)] == Unknown
    ensures forall j :: 0 <= j < |previous| && !(c.matched && j == FirstIndexOf(previous, k))
                        ==> c.previous[j] == previous[j]
  {
    var i := FirstIndexOf(previous, k);
    if i < |previous| then Consumed(previous[i := Unknown], true) else Consumed(previous, false)
  }

  /** The state of a scan: keys reported PRESSED so far, and the retained keys. */
  datatype Scan = Scan(pressed: seq<Key>, previous: seq<Key>)

  /**
   * One slot whose byte is above ErrorRollOver: an unmapped byte is skipped;
   * a mapped key that consumes a retained entry is not reported; any other
   * mapped key is reported PRESSED.
   */
  function Step(s: Scan, v: Byte): (r: Scan)
    ensures |r.previous| == |s.previous|
    ensures r.pressed == s.pressed || (TryKeyFrom(v).Some? && r.pressed == s.pressed + [TryKeyFrom(v).value])
  {
    match TryKeyFrom(v)
    case None => s
    case Some(k) =>
      var c := Consume(s.previous, k);
      if c.matched then Scan(s.pressed, c.previous) else Scan(s.pressed + [k], c.previous)
  }

  /** Scans the slots from the first to the last (stated by peeling off the last one). */
  function ScanSlots(s: Scan, slots: seq<Byte>): (r: Scan)
    ensures |r.previous| == |s.previous|
    ensures |s.pressed| <= |r.pressed| <= |s.pressed| + |slots|
    ensures Unknown !in s.pressed ==> Unknown !in r.pressed
  {
    if slots == [] then s
    else Step(ScanSlots(s, slots[..|slots| - 1]), slots[|slots| - 1])
  }

  /** The number of leading slots scanned: the scan stops at the first byte <= ErrorRollOver. */
  function ScanEnd(slots: seq<Byte>): (n: nat)
    ensures n <= |slots|
    ensures forall j :: 0 <= j < n ==> slots[j] > KeyErrOvf
    ensures n < |slots| ==> slots[n] <= KeyErrOvf
  {
    if slots == [] || slots[0] <= KeyErrOvf then 0 else 1 + ScanEnd(slots[1..])
  }

  // ---------------------------------------------------------------------------
  // One report
  // ---------------------------------------------------------------------------

  /** The usage slots that a read of `length` bytes delivers: indices 2 .. length-1. */
  function Slots(buf: seq<Byte>, length: nat): (slots: seq<Byte>)
    requires |buf| == ReportLength && length <= ReportLength
    ensures |slots| == if length <= FirstSlot then 0 else length - FirstSlot
    ensures forall j :: 0 <= j < |slots| ==> slots[j] == buf[FirstSlot + j]
  {
    if length <= FirstSlot then [] else buf[FirstSlot..length]
  }

  /** The scan of one report's slots, starting from the retained keys. */
  function ScanReport(previous: seq<Key>, slots: seq<Byte>): Scan
  {
    ScanSlots(Scan([], previous), slots[..ScanEnd(slots)])
  }

  /** The retained entries that were not consumed, in their order. */
  function ReleasedKeys(previous: seq<Key>): (r: seq<Key>)
    ensures Unknown !in r
    ensures |r| <= |previous|
    ensures forall k :: k in r ==> k in previous
  {
    if previous == [] then []
    else
      var last := previous[|previous| - 1];
      ReleasedKeys(previous[..|previous| - 1]) + (if last == Unknown then [] else [last])
  }

  /** One event of the given type per key, in order. */
  function EventsOf(keys: seq<Key>, t: KeyEventType): (r: seq<KeyEvent>)
    ensures |r| == |keys|
    ensures forall i :: 0 <= i < |keys| ==> r[i] == KeyEvent(keys[i], t)
  {
    seq(|keys|, i requires 0 <= i < |keys| => KeyEvent(keys[i], t))
  }

  /** The events of one report's slots: PRESSED in slot order, then RELEASED in retained order. */
  function DecodeSlots(previous: seq<Key>, slots: seq<Byte>): seq<KeyEvent>
  {
    var s := ScanReport(previous, slots);
    EventsOf(s.pressed, Pressed) + EventsOf(ReleasedKeys(s.previous), Released)
  }

  /** The events of one report of `length` bytes: what `events` returns. */
  function Decode(previous: seq<Key>, buf: seq<Byte>, length: nat): seq<KeyEvent>
    requires |buf| == ReportLength && length <= ReportLength
  {
    DecodeSlots(previous, Slots(buf, length))
  }

  /** The state retained after one report: the keys reported PRESSED, and nothing else. */
  function NextPrevious(previous: seq<Key>, buf: seq<Byte>, length: nat): seq<Key>
    requires |buf| == ReportLength && length <= ReportLength
  {
    ScanReport(previous, Slots(buf, length)).pressed
  }

  /** The keys of the PRESSED events, in order. */
  function PressedKeys(events: seq<KeyEvent>): seq<Key>
  {
    if events == [] then []
    else
      var last := events[|events| - 1];
      PressedKeys(events[..|events| - 1]) + (if last.eventType == Pressed then [last.key] else [])
  }

  // ---------------------------------------------------------------------------
  // The decoder object
  // ---------------------------------------------------------------------------

  class Keyboard {

    /** The keys reported PRESSED by the previous call (entries become `Unknown` while a call consumes them). */
    var previousEvents: seq<Key>

    /** Between calls the retained state holds no sentinel and at most one key per slot. */
    ghost predicate Valid()
      reads this
    {
      |previousEvents| <= SlotCount && Unknown !in previousEvents
    }

    constructor ()
      ensures Valid() && previousEvents == []
    {
      previousEvents := [];
    }

    /** Decodes one report of `length` valid bytes and replaces the retained state. */
    method Events(buf: seq<Byte>, length: nat) returns (events: seq<KeyEvent>)
      requires |buf| == ReportLength && length <= ReportLength
      modifies this
      ensures events == Decode(old(previousEvents), buf, length)
      ensures previousEvents == NextPrevious(old(previousEvents), buf, length)
      ensures previousEvents == PressedKeys(events)
      ensures Valid()
    {
      ghost var scan := ScanReport(previousEvents, Slots(buf, length));
      events := ScanPressed(buf, length);
      events := AppendReleased(events);
      RetainPressed(events);
      PressedKeysOfDecode(scan.pressed, ReleasedKeys(scan.previous));
    }

    /**
     * The scan of `events` (keyboard.rs lines 33-60): each slot from index 2 up
     * to the first byte <= ErrorRollOver either consumes a retained entry or
     * yields a PRESSED event.
     */
    method ScanPressed(buf: seq<Byte>, length: nat) returns (events: seq<KeyEvent>)
      requires |buf| == ReportLength && length <= ReportLength
      modifies this
      ensures previousEvents == ScanReport(old(previousEvents), Slots(buf, length)).previous
      ensures events == EventsOf(ScanReport(old(previousEvents), Slots(buf, length)).pressed, Pressed)
    {
      ghost var start := Scan([], previousEvents);
      ghost var scan := start;
      events := [];
      var n := FirstSlot;
      while n < length
        invariant FirstSlot <= n <= ReportLength && (n == FirstSlot || n <= length)
        invariant forall j :: FirstSlot <= j < n ==> buf[j] > KeyErrOvf
        invariant scan == ScanSlots(start, buf[FirstSlot..n])
        invariant scan.previous == previousEvents
        invariant events == EventsOf(scan.pressed, Pressed)
      {
        var value := buf[n];
        if value <= KeyErrOvf {
          // ErrorRollOver or an empty slot: the rest of the report is not scanned
          ScannedPrefix(start.previous, buf, length, n);
          return;
        }
        ScanOneMore(start, buf, n, scan);
        AboveMarkersExtend(buf, n);
        events := ScanSlot(value, events, scan.pressed);
        scan := Step(scan, value);
        n := n + 1;
      }
      ScannedPrefix(start.previous, buf, length, n);
    }

    /** One slot of the scan (keyboard.rs lines 41-59): the `Step` of `value`, done in place. */
    method ScanSlot(value: Byte, events: seq<KeyEvent>, ghost pressed: seq<Key>) returns (result: seq<KeyEvent>)
      requires events == EventsOf(pressed, Pressed)
      modifies this
      ensures var s := Step(Scan(pressed, old(previousEvents)), value);
              result == EventsOf(s.pressed, Pressed) && previousEvents == s.previous
    {
      result := events;
      var found := TryKeyFrom(value);
      if found.Some? {
        var key := found.value;
        var matched := MapPreviousState(key);
        if !matched {
          result := result + [KeyEvent(key, Pressed)];
          assert result == EventsOf(pressed + [key], Pressed);
        }
      }
    }

    /** The release loop of `events` (keyboard.rs lines 63-72): every entry not consumed is RELEASED. */
    method AppendReleased(pressed: seq<KeyEvent>) returns (events: seq<KeyEvent>)
      ensures events == pressed + EventsOf(ReleasedKeys(previousEvents), Released)
    {
      events := pressed;
      for i := 0 to |previousEvents|
        invariant events == pressed + EventsOf(ReleasedKeys(previousEvents[..i]), Released)
      {
        assert previousEvents[..i + 1][..i] == previousEvents[..i];
        ghost var released := ReleasedKeys(previousEvents[..i]);
        if previousEvents[i] != Unknown {
          events := events + [KeyEvent(previousEvents[i], Released)];
          assert EventsOf(released + [previousEvents[i]], Released)
              == EventsOf(released, Released) + [KeyEvent(previousEvents[i], Released)];
        }
      }
      assert previousEvents[..|previousEvents|] == previousEvents;
    }

    /** The rebuild of `events` (keyboard.rs lines 75-81): the new state is the keys of the PRESSED events. */
    method RetainPressed(events: seq<KeyEvent>)
      modifies this
      ensures previousEvents == PressedKeys(events)
    {
      previousEvents := [];
      for j := 0 to |events|
        invariant previousEvents == PressedKeys(events[..j])
      {
        assert events[..j + 1][..j] == events[..j];
        if events[j].eventType == Pressed {
          previousEvents := previousEvents + [events[j].key];
        }
      }
      assert events[..|events|] == events;
    }

    /** Looks `key` up among the retained entries and overwrites the first match with `Unknown`. */
    method MapPreviousState(key: Key) returns (matched: bool)
      modifies this
      ensures Consumed(previousEvents, matched) == Consume(old(previousEvents), key)
    {
      var i := 0;
      while i < |previousEvents|
        invariant 0 <= i <= |previousEvents|
        invariant previousEvents == old(previousEvents)
        invariant forall j :: 0 <= j < i ==> previousEvents[j] != key
      {
        if previousEvents[i] == key {
          previousEvents := previousEvents[i := Unknown];
          return true;
        }
        i := i + 1;
      }
      return false;
    }
  }

  /** A loop that stops at index `n` of the report has scanned exactly the slots `ScanReport` scans. */
  lemma ScannedPrefix(previous: seq<Key>, buf: seq<Byte>, length: nat, n: nat)
    requires |buf| == ReportLength && length <= ReportLength
    requires FirstSlot <= n <= ReportLength && (n == FirstSlot || n <= length)
    requires forall j :: FirstSlot <= j < n ==> buf[j] > KeyErrOvf
    requires n >= length || buf[n] <= KeyErrOvf
    ensures ScanReport(previous, Slots(buf, length)) == ScanSlots(Scan([], previous), buf[FirstSlot..n])
  {
    var slots := Slots(buf, length);
    if length <= FirstSlot {
      assert buf[FirstSlot..n] == [];
    } else {
      ScanEndUnique(slots, n - FirstSlot);
    }
    assert slots[..ScanEnd(slots)] == buf[FirstSlot..n];
  }

  /** Scanning one more slot of the report is one more `Step`. */
  lemma ScanOneMore(start: Scan, buf: seq<Byte>, n: nat, scan: Scan)
    requires FirstSlot <= n < |buf| && scan == ScanSlots(start, buf[FirstSlot..n])
    ensures Step(scan, buf[n]) == ScanSlots(start, buf[FirstSlot..n + 1])
  {
    assert buf[FirstSlot..n + 1][..n - FirstSlot] == buf[FirstSlot..n];
  }

  /** The slots scanned so far are all above ErrorRollOver, and so is the next one. */
  lemma AboveMarkersExtend(buf: seq<Byte>, n: nat)
    requires FirstSlot <= n < |buf| && buf[n] > KeyErrOvf
    requires forall j :: FirstSlot <= j < n ==> buf[j] > KeyErrOvf
    ensures forall j :: FirstSlot <= j < n + 1 ==> buf[j] > KeyErrOvf
  {
  }

  /** `ScanEnd` is the only index with its three properties. */
  lemma ScanEndUnique(slots: seq<Byte>, m: nat)
    requires m <= |slots|
    requires forall j :: 0 <= j < m ==> slots[j] > KeyErrOvf
    requires m < |slots| ==> slots[m] <= KeyErrOvf
    ensures ScanEnd(slots) == m
  {
  }

  // ---------------------------------------------------------------------------
  // Lemmas about the event list
  // ---------------------------------------------------------------------------

  lemma {:induction false} PressedKeysConcat(a: seq<KeyEvent>, b: seq<KeyEvent>)
    ensures PressedKeys(a + b) == PressedKeys(a) + PressedKeys(b)
  {
    if b != [] {
      assert (a + b)[..|a + b| - 1] == a + b[..|b| - 1];
      PressedKeysConcat(a, b[..|b| - 1]);
    } else {
      assert a + b == a;
    }
  }

  lemma {:induction false} PressedKeysOfEvents(keys: seq<Key>, t: KeyEventType)
    ensures PressedKeys(EventsOf(keys, t)) == if t == Pressed then keys else []
  {
    if keys != [] {
      assert EventsOf(keys, t)[..|keys| - 1] == EventsOf(keys[..|keys| - 1], t);
      PressedKeysOfEvents(keys[..|keys| - 1], t);
    }
  }

  /** The PRESSED events of a decoded report name exactly the pressed keys, in order. */
  lemma PressedKeysOfDecode(pressed: seq<Key>, released: seq<Key>)
    ensures PressedKeys(EventsOf(pressed, Pressed) + EventsOf(released, Released)) == pressed
  {
    PressedKeysConcat(EventsOf(pressed, Pressed), EventsOf(released, Released));
    PressedKeysOfEvents(pressed, Pressed);
    PressedKeysOfEvents(released, Released);
  }
  // ---------------------------------------------------------------------------
  // Properties of one decoded report
  // ---------------------------------------------------------------------------

  /** The retained state after a call is the list of keys of that call's PRESSED events. */
  lemma RetainedIsPressed(previous: seq<Key>, buf: seq<Byte>, length: nat)
    requires |buf| == ReportLength && length <= ReportLength
    ensures NextPrevious(previous, buf, length) == PressedKeys(Decode(previous, buf, length))
  {
    var s := ScanReport(previous, Slots(buf, length));
    PressedKeysOfDecode(s.pressed, ReleasedKeys(s.previous));
  }

  /** At most one key per scanned slot is retained, never the sentinel. */
  lemma RetainedBound(previous: seq<Key>, buf: seq<Byte>, length: nat)
    requires |buf| == ReportLength && length <= ReportLength
    ensures |NextPrevious(previous, buf, length)| <= (if length <= FirstSlot then 0 else length - FirstSlot) <= SlotCount
    ensures Unknown !in NextPrevious(previous, buf, length)
  {
  }

  /** Every PRESSED event precedes every RELEASED event. */
  lemma PressedBeforeReleased(previous: seq<Key>, slots: seq<Byte>)
    ensures var e := DecodeSlots(previous, slots);
            forall i, j :: 0 <= i < j < |e| && e[i].eventType == Released ==> e[j].eventType == Released
  {
  }

  /** No event names the sentinel `Unknown`, whatever the retained state holds. */
  lemma NoUnknownEvent(previous: seq<Key>, slots: seq<Byte>)
    ensures forall e :: e in DecodeSlots(previous, slots) ==> e.key != Unknown
  {
    var s := ScanReport(previous, slots);
    var pressed := EventsOf(s.pressed, Pressed);
    var released := EventsOf(ReleasedKeys(s.previous), Released);
    assert DecodeSlots(previous, slots) == pressed + released;
    forall e: KeyEvent | e in pressed + released
      ensures e.key != Unknown
    {
      EventsOfMembers(s.pressed, Pressed, e);
      EventsOfMembers(ReleasedKeys(s.previous), Released, e);
    }
  }

  /** Only the bytes at indices 2 .. length-1 are read. */
  lemma ReadsOnlySlots(previous: seq<Key>, buf: seq<Byte>, other: seq<Byte>, length: nat)
    requires |buf| == ReportLength && |other| == ReportLength && length <= ReportLength
    requires forall j :: FirstSlot <= j < length ==> buf[j] == other[j]
    ensures Decode(previous, buf, length) == Decode(previous, other, length)
    ensures NextPrevious(previous, buf, length) == NextPrevious(previous, other, length)
  {
    assert Slots(buf, length) == Slots(other, length);
  }

  /**
   * A slot holding 0x00 or ErrorRollOver ends the scan: the slots after it
   * change nothing, neither the PRESSED events nor which retained keys are released.
   */
  lemma MarkerEndsScan(previous: seq<Key>, slots: seq<Byte>, m: nat)
    requires m < |slots| && slots[m] <= KeyErrOvf
    ensures ScanReport(previous, slots) == ScanReport(previous, slots[..m])
    ensures DecodeSlots(previous, slots) == DecodeSlots(previous, slots[..m])
  {
    var e := ScanEnd(slots);
    ScanEndUnique(slots[..m], e);
    assert slots[..m][..e] == slots[..e];
  }

  /** `ScanSlots` over two pieces is the scan of the second piece from the state after the first. */
  lemma {:induction false} ScanSlotsConcat(s: Scan, a: seq<Byte>, b: seq<Byte>)
    ensures ScanSlots(s, a + b) == ScanSlots(ScanSlots(s, a), b)
  {
    if b == [] {
      assert a + b == a;
    } else {
      assert (a + b)[..|a + b| - 1] == a + b[..|b| - 1];
      ScanSlotsConcat(s, a, b[..|b| - 1]);
    }
  }

  /** A byte above ErrorRollOver that names no key is skipped: the scan goes on past it as if it were absent. */
  lemma UnmappedIsSkipped(previous: seq<Key>, before: seq<Byte>, v: Byte, after: seq<Byte>)
    requires v > KeyErrOvf && TryKeyFrom(v).None?
    ensures ScanReport(previous, before + [v] + after) == ScanReport(previous, before + after)
    ensures DecodeSlots(previous, before + [v] + after) == DecodeSlots(previous, before + after)
  {
    ScannedWithoutUnmapped(previous, before, v, after);
  }

  /** The part of `UnmappedIsSkipped` about the scan itself. */
  lemma ScannedWithoutUnmapped(previous: seq<Key>, before: seq<Byte>, v: Byte, after: seq<Byte>)
    requires v > KeyErrOvf && TryKeyFrom(v).None?
    ensures ScanReport(previous, before + [v] + after) == ScanReport(previous, before + after)
  {
    var with := before + ([v] + after);
    assert before + [v] + after == with;
    if ScanEnd(before) < |before| {
      ScanStopsInPrefix(before, [v] + after);
      ScanStopsInPrefix(before, after);
    } else {
      var tail := after[..ScanEnd(after)];
      ScannedSlotsSkip(before, v, after);
      SkipInScan(Scan([], previous), before, v, tail);
    }
  }

  /** Without a marker in `before`, the slots scanned with `v` inserted are those scanned without it, plus `v`. */
  lemma ScannedSlotsSkip(before: seq<Byte>, v: Byte, after: seq<Byte>)
    requires v > KeyErrOvf && ScanEnd(before) == |before|
    ensures var with := before + [v] + after;
            with[..ScanEnd(with)] == before + [v] + after[..ScanEnd(after)]
    ensures (before + after)[..ScanEnd(before + after)] == before + after[..ScanEnd(after)]
  {
    assert before + [v] + after == before + ([v] + after);
    ScanRunsThroughPrefix(before, [v] + after);
    ScanRunsThroughPrefix(before, after);
    ScanRunsThroughPrefix([v], after);
    assert before + ([v] + after[..ScanEnd(after)]) == before + [v] + after[..ScanEnd(after)];
  }

  /** A marker in `before` ends the scan there, whatever follows. */
  lemma ScanStopsInPrefix(before: seq<Byte>, after: seq<Byte>)
    requires ScanEnd(before) < |before|
    ensures (before + after)[..ScanEnd(before + after)] == before[..ScanEnd(before)]
  {
    var e := ScanEnd(before);
    ScanEndUnique(before + after, e);
  }

  /** Without a marker in `before`, the scan runs through it and on into `after`. */
  lemma ScanRunsThroughPrefix(before: seq<Byte>, after: seq<Byte>)
    requires ScanEnd(before) == |before|
    ensures (before + after)[..ScanEnd(before + after)] == before + after[..ScanEnd(after)]
  {
    var m := |before| + ScanEnd(after);
    var all := before + after;
    forall j | 0 <= j < m ensures all[j] > KeyErrOvf {
      if j >= |before| {
        assert all[j] == after[j - |before|];
      }
    }
    if m < |all| {
      assert all[m] == after[ScanEnd(after)];
    }
    ScanEndUnique(all, m);
    assert all[..m] == before + after[..ScanEnd(after)];
  }

  lemma SkipInScan(s: Scan, before: seq<Byte>, v: Byte, rest: seq<Byte>)
    requires TryKeyFrom(v).None?
    ensures ScanSlots(s, before + [v] + rest) == ScanSlots(s, before + rest)
  {
    ScanSlotsConcat(s, before + [v], rest);
    ScanSlotsConcat(s, before, rest);
    assert (before + [v])[..|before + [v]| - 1] == before;
  }

  // ---------------------------------------------------------------------------
  // Which keys are pressed and released
  // ---------------------------------------------------------------------------

  predicate Distinct(s: seq<Key>)
  {
    forall i, j :: 0 <= i < j < |s| ==> s[i] != s[j]
  }

  /** The keys named by mapped slots, in slot order (duplicates kept). */
  function MappedKeys(slots: seq<Byte>): (r: seq<Key>)
    ensures |r| <= |slots|
    ensures Unknown !in r
  {
    if slots == [] then []
    else
      var v := slots[|slots| - 1];
      MappedKeys(slots[..|slots| - 1]) + (if TryKeyFrom(v).Some? then [TryKeyFrom(v).value] else [])
  }

  lemma {:induction false} ReleasedKeysMembers(p: seq<Key>, k: Key)
    ensures k in ReleasedKeys(p) <==> k in p && k != Unknown
  {
    if p != [] {
      ReleasedKeysMembers(p[..|p| - 1], k);
      assert p == p[..|p| - 1] + [p[|p| - 1]];
    }
  }

  /** What a scan has done to the retained entries and which keys it has reported, given a retained state of distinct keys. */
  ghost predicate ScanAccounts(previous: seq<Key>, keys: seq<Key>, s: Scan)
  {
    && |s.previous| == |previous|
    && (forall j :: 0 <= j < |previous| ==> s.previous[j] == (if previous[j] in keys then Unknown else previous[j]))
    && (forall k :: k in s.pressed ==> k in keys)
    && (Distinct(keys) ==> forall k :: k in s.pressed <==> k in keys && k !in previous)
  }

  lemma {:induction false} ScanAccounting(previous: seq<Key>, slots: seq<Byte>)
    requires Distinct(previous) && Unknown !in previous
    ensures ScanAccounts(previous, MappedKeys(slots), ScanSlots(Scan([], previous), slots))
  {
    if slots != [] {
      var init := slots[..|slots| - 1];
      ScanAccounting(previous, init);
      AccountingStep(previous, MappedKeys(init), ScanSlots(Scan([], previous), init), slots[|slots| - 1]);
    }
  }

  /** One `Step` keeps the accounting, with the slot's key (if any) added to the scanned keys. */
  lemma AccountingStep(previous: seq<Key>, keys: seq<Key>, s: Scan, v: Byte)
    requires Distinct(previous) && Unknown !in previous && Unknown !in keys
    requires ScanAccounts(previous, keys, s)
    ensures Unknown !in keys + (if TryKeyFrom(v).Some? then [TryKeyFrom(v).value] else [])
    ensures ScanAccounts(previous, keys + (if TryKeyFrom(v).Some? then [TryKeyFrom(v).value] else []), Step(s, v))
  {
    if TryKeyFrom(v).None? {
      assert keys + [] == keys;
    } else {
      var k := TryKeyFrom(v).value;
      var keys' := keys + [k];
      var c := Consume(s.previous, k);
      if Distinct(keys') {
        DistinctSnoc(keys, k);
      }
      if c.matched {
        AccountingMatched(previous, keys, s, k);
      } else {
        AccountingUnmatched(previous, keys, s, k);
      }
    }
  }

  lemma DistinctSnoc(keys: seq<Key>, k: Key)
    requires Distinct(keys + [k])
    ensures Distinct(keys) && k !in keys
  {
    var keys' := keys + [k];
    forall i | 0 <= i < |keys| ensures keys[i] != k {
      assert keys'[i] == keys[i] && keys'[|keys|] == k;
    }
    forall i, j | 0 <= i < j < |keys| ensures keys[i] != keys[j] {
      assert keys'[i] == keys[i] && keys'[j] == keys[j];
    }
  }

  lemma AccountingMatched(previous: seq<Key>, keys: seq<Key>, s: Scan, k: Key)
    requires Distinct(previous) && Unknown !in previous && k != Unknown
    requires ScanAccounts(previous, keys, s)
    requires k in s.previous
    ensures ScanAccounts(previous, keys + [k], Scan(s.pressed, Consume(s.previous, k).previous))
  {
    var keys' := keys + [k];
    var c := Consume(s.previous, k);
    var i := FirstIndexOf(s.previous, k);
    assert previous[i] == k;
    forall j | 0 <= j < |previous|
      ensures c.previous[j] == (if previous[j] in keys' then Unknown else previous[j])
    {
    }
    if Distinct(keys') {
      DistinctSnoc(keys, k);
    }
  }

  lemma AccountingUnmatched(previous: seq<Key>, keys: seq<Key>, s: Scan, k: Key)
    requires Distinct(previous) && Unknown !in previous && k != Unknown
    requires ScanAccounts(previous, keys, s)
    requires k !in s.previous
    ensures ScanAccounts(previous, keys + [k], Scan(s.pressed + [k], s.previous))
  {
    var keys' := keys + [k];
    forall j | 0 <= j < |previous| && previous[j] == k
      ensures k in keys
    {
      assert s.previous[j] != k;
    }
    if Distinct(keys') {
      DistinctSnoc(keys, k);
    }
  }

  lemma EventsOfMembers(keys: seq<Key>, t: KeyEventType, e: KeyEvent)
    ensures e in EventsOf(keys, t) <==> e.eventType == t && e.key in keys
  {
    if e.eventType == t && e.key in keys {
      var i :| 0 <= i < |keys| && keys[i] == e.key;
      assert EventsOf(keys, t)[i] == e;
    }
  }

  /**
   * With a retained state of distinct keys, a report releases exactly the
   * retained keys that no scanned slot names; when the scanned slots name
   * distinct keys, it presses exactly the named keys that were not retained.
   */
  lemma ReleasedExactlyUnconsumed(previous: seq<Key>, slots: seq<Byte>, k: Key)
    requires Distinct(previous) && Unknown !in previous
    ensures var keys := MappedKeys(slots[..ScanEnd(slots)]);
            && (KeyEvent(k, Released) in DecodeSlots(previous, slots) <==> k in previous && k !in keys)
            && (Distinct(keys) ==> (KeyEvent(k, Pressed) in DecodeSlots(previous, slots) <==> k in keys && k !in previous))
  {
    var scanned := slots[..ScanEnd(slots)];
    var s := ScanReport(previous, slots);
    ScanAccounting(previous, scanned);
    ReleasedKeysMembers(s.previous, k);
    EventsOfMembers(s.pressed, Pressed, KeyEvent(k, Released));
    EventsOfMembers(ReleasedKeys(s.previous), Released, KeyEvent(k, Released));
    EventsOfMembers(s.pressed, Pressed, KeyEvent(k, Pressed));
    EventsOfMembers(ReleasedKeys(s.previous), Released, KeyEvent(k, Pressed));
    if k in previous && k !in MappedKeys(scanned) {
      var j :| 0 <= j < |previous| && previous[j] == k;
      assert s.previous[j] == k;
    }
  }
  /**
   * For any retained state, duplicates included, a scan accounts for every key
   * by count: the entries left to release are the retained keys minus the
   * scanned keys, and the keys pressed are the scanned keys minus the retained
   * ones. Each scanned slot consumes at most one retained entry.
   */
  lemma {:induction false} ScanCounts(previous: seq<Key>, slots: seq<Byte>)
    requires Unknown !in previous
    ensures var s := ScanSlots(Scan([], previous), slots);
            && multiset(ReleasedKeys(s.previous)) == multiset(previous) - multiset(MappedKeys(slots))
            && multiset(s.pressed) == multiset(MappedKeys(slots)) - multiset(previous)
  {
    if slots == [] {
      ReleasedKeysOfKnown(previous);
    } else {
      var init := slots[..|slots| - 1];
      ScanCounts(previous, init);
      CountsStep(previous, MappedKeys(init), ScanSlots(Scan([], previous), init), slots[|slots| - 1]);
    }
  }

  /** `ScanCounts` for one report: what `events` releases and presses, by count. */
  lemma ReportCounts(previous: seq<Key>, slots: seq<Byte>)
    requires Unknown !in previous
    ensures var s := ScanReport(previous, slots); var keys := MappedKeys(slots[..ScanEnd(slots)]);
            && DecodeSlots(previous, slots) == EventsOf(s.pressed, Pressed) + EventsOf(ReleasedKeys(s.previous), Released)
            && multiset(ReleasedKeys(s.previous)) == multiset(previous) - multiset(keys)
            && multiset(s.pressed) == multiset(keys) - multiset(previous)
  {
    ScanCounts(previous, slots[..ScanEnd(slots)]);
  }

  /** A retained state without `Unknown` is released whole. */
  lemma {:induction false} ReleasedKeysOfKnown(p: seq<Key>)
    requires Unknown !in p
    ensures ReleasedKeys(p) == p
  {
    if p != [] {
      ReleasedKeysOfKnown(p[..|p| - 1]);
      assert p == p[..|p| - 1] + [p[|p| - 1]];
    }
  }

  /** One `Step` keeps the counts, with the slot's key (if any) added to the scanned keys. */
  lemma CountsStep(previous: seq<Key>, keys: seq<Key>, s: Scan, v: Byte)
    requires multiset(ReleasedKeys(s.previous)) == multiset(previous) - multiset(keys)
    requires multiset(s.pressed) == multiset(keys) - multiset(previous)
    ensures var keys' := keys + (if TryKeyFrom(v).Some? then [TryKeyFrom(v).value] else []);
            var r := Step(s, v);
            && multiset(ReleasedKeys(r.previous)) == multiset(previous) - multiset(keys')
            && multiset(r.pressed) == multiset(keys') - multiset(previous)
  {
    if TryKeyFrom(v).None? {
      assert keys + [] == keys;
    } else {
      var k := TryKeyFrom(v).value;
      assert multiset(keys + [k]) == multiset(keys) + multiset{k};
      ReleasedKeysMembers(s.previous, k);
      if k in s.previous {
        var i := FirstIndexOf(s.previous, k);
        ReleasedKeysUpdate(s.previous, i);
        assert Step(s, v) == Scan(s.pressed, s.previous[i := Unknown]);
        CountsMatched(multiset(previous), multiset(keys), multiset(ReleasedKeys(s.previous)), multiset(s.pressed), k);
      } else {
        assert Step(s, v) == Scan(s.pressed + [k], s.previous);
        CountsUnmatched(multiset(previous), multiset(keys), multiset(ReleasedKeys(s.previous)), multiset(s.pressed), k);
      }
    }
  }

  /** Consuming a retained entry removes exactly one copy of its key from what is released. */
  lemma {:induction false} ReleasedKeysUpdate(p: seq<Key>, i: nat)
    requires i < |p| && p[i] != Unknown
    ensures multiset(ReleasedKeys(p[i := Unknown])) == multiset(ReleasedKeys(p)) - multiset{p[i]}
    decreases |p|
  {
    if i == |p| - 1 {
      ReleasedKeysUpdateLast(p);
    } else {
      ReleasedKeysUpdate(p[..|p| - 1], i);
      ReleasedKeysUpdateEarlier(p, i);
    }
  }

  lemma ReleasedKeysUpdateLast(p: seq<Key>)
    requires |p| > 0 && p[|p| - 1] != Unknown
    ensures multiset(ReleasedKeys(p[|p| - 1 := Unknown])) == multiset(ReleasedKeys(p)) - multiset{p[|p| - 1]}
  {
    var n := |p| - 1;
    var q := p[n := Unknown];
    var before := ReleasedKeys(p[..n]);
    assert q[..n] == p[..n];
    assert ReleasedKeys(q) == before + [];
    assert ReleasedKeys(p) == before + [p[n]];
    assert multiset(before + [p[n]]) == multiset(before) + multiset{p[n]};
    AddThenRemove(multiset(before), p[n]);
  }

  lemma ReleasedKeysUpdateEarlier(p: seq<Key>, i: nat)
    requires i < |p| - 1 && p[i] != Unknown
    requires multiset(ReleasedKeys(p[..|p| - 1][i := Unknown])) == multiset(ReleasedKeys(p[..|p| - 1])) - multiset{p[i]}
    ensures multiset(ReleasedKeys(p[i := Unknown])) == multiset(ReleasedKeys(p)) - multiset{p[i]}
  {
    var n := |p| - 1;
    var q := p[i := Unknown];
    var last := if p[n] == Unknown then [] else [p[n]];
    var before := ReleasedKeys(p[..n]);
    var after := ReleasedKeys(p[..n][i := Unknown]);
    assert q[..n] == p[..n][i := Unknown];
    ReleasedKeysMembers(p[..n], p[i]);
    assert p[..n][i] == p[i];
    calc {
      multiset(ReleasedKeys(q));
      { assert ReleasedKeys(q) == after + last; }
      multiset(after) + multiset(last);
      (multiset(before) - multiset{p[i]}) + multiset(last);
      { RemoveThenAdd(multiset(before), multiset(last), p[i]); }
      (multiset(before) + multiset(last)) - multiset{p[i]};
      { assert ReleasedKeys(p) == before + last; }
      multiset(ReleasedKeys(p)) - multiset{p[i]};
    }
  }

  lemma AddThenRemove(a: multiset<Key>, x: Key)
    ensures (a + multiset{x}) - multiset{x} == a
  {
  }

  lemma RemoveThenAdd(a: multiset<Key>, b: multiset<Key>, x: Key)
    requires x in a
    ensures (a - multiset{x}) + b == (a + b) - multiset{x}
  {
  }

  /** The counting step of a key that finds a retained entry. */
  lemma CountsMatched(prev: multiset<Key>, keys: multiset<Key>, released: multiset<Key>, pressed: multiset<Key>, k: Key)
    requires released == prev - keys && pressed == keys - prev && k in released
    ensures released - multiset{k} == prev - (keys + multiset{k})
    ensures pressed == (keys + multiset{k}) - prev
  {
  }

  /** The counting step of a key that finds no retained entry. */
  lemma CountsUnmatched(prev: multiset<Key>, keys: multiset<Key>, released: multiset<Key>, pressed: multiset<Key>, k: Key)
    requires released == prev - keys && pressed == keys - prev && k !in released
    ensures released == prev - (keys + multiset{k})
    ensures pressed + multiset{k} == (keys + multiset{k}) - prev
  {
  }

  /** From the reachable state [A, A], a report naming A still releases the second A. */
  lemma DuplicateRetainedReleasedWhileHeld()
    ensures NextPrevious([], [0, 0, 0x04, 0x04, 0, 0, 0, 0], ReportLength) == [A, A]
    ensures Decode([A, A], SingleKeyReport(0x04), ReportLength) == [KeyEvent(A, Released)]
    ensures NextPrevious([A, A], SingleKeyReport(0x04), ReportLength) == []
  {
    ContiguousUsage(0x04);
    DuplicateSlotsPressTwice(0x04);
    DuplicateRetainedScan();
    assert ReleasedKeys([Unknown, A]) == ReleasedKeys([Unknown]) + [A];
    assert ReleasedKeys([Unknown]) == ReleasedKeys([]) + [];
    SingleEvent(A, Released);
    assert Decode([A, A], SingleKeyReport(0x04), ReportLength) == EventsOf([], Pressed) + EventsOf([A], Released);
  }

  /** The scan behind `DuplicateRetainedReleasedWhileHeld`: the slot consumes the first A only. */
  lemma DuplicateRetainedScan()
    ensures ScanReport([A, A], Slots(SingleKeyReport(0x04), ReportLength)) == Scan([], [Unknown, A])
  {
    ContiguousUsage(0x04);
    var slots := [0x04, 0, 0, 0, 0, 0];
    assert Slots(SingleKeyReport(0x04), ReportLength) == slots;
    ScanEndUnique(slots, 1);
    assert slots[..1] == [0x04];
    assert ScanSlots(Scan([], [A, A]), [0x04]) == Step(Scan([], [A, A]), 0x04);
    StepConsumes(Scan([], [A, A]), 0x04);
    assert Consume([A, A], A).previous == [Unknown, A];
  }

  /** The same key in two slots while it is held: one slot consumes it, the other presses it again. */
  lemma HeldKeyPressedByDuplicateSlot()
    ensures Decode([A], [0, 0, 0x04, 0x04, 0, 0, 0, 0], ReportLength) == [KeyEvent(A, Pressed)]
    ensures NextPrevious([A], [0, 0, 0x04, 0x04, 0, 0, 0, 0], ReportLength) == [A]
  {
    ContiguousUsage(0x04);
    TwoSlotReport([A], 0x04, 0x04);
    ScanTwo(Scan([], [A]), 0x04, 0x04);
    StepConsumes(Scan([], [A]), 0x04);
    assert Consume([A], A).previous == [Unknown];
    StepPresses(Scan([], [Unknown]), 0x04);
    assert ReleasedKeys([Unknown]) == ReleasedKeys([]) + [];
    SingleEvent(A, Pressed);
    assert Decode([A], [0, 0, 0x04, 0x04, 0, 0, 0, 0], ReportLength) == EventsOf([A], Pressed) + EventsOf([], Released);
  }

  // ---------------------------------------------------------------------------
  // Event sequences across reports
  // ---------------------------------------------------------------------------

  /** The report that holds only the usage byte `v` in its first slot. */
  function SingleKeyReport(v: Byte): (r: seq<Byte>)
    ensures |r| == ReportLength && r[FirstSlot] == v
    ensures forall j :: 0 <= j < ReportLength && j != FirstSlot ==> r[j] == 0
  {
    [0, 0, v, 0, 0, 0, 0, 0]
  }

  /** The report with no key down. */
  const EmptyReport: seq<Byte> := [0, 0, 0, 0, 0, 0, 0, 0]

  /**
   * A held key reported again is neither pressed nor released, but it drops out
   * of the retained state, so the third identical report presses it anew.
   */
  lemma HeldKeyIsPressedAgain(v: Byte)
    requires TryKeyFrom(v).Some?
    ensures var k := TryKeyFrom(v).value; var r := SingleKeyReport(v);
            && Decode([], r, ReportLength) == [KeyEvent(k, Pressed)]
            && NextPrevious([], r, ReportLength) == [k]
            && Decode([k], r, ReportLength) == []
            && NextPrevious([k], r, ReportLength) == []
  {
    var k := TryKeyFrom(v).value;
    var r := SingleKeyReport(v);
    assert Slots(r, ReportLength) == [v, 0, 0, 0, 0, 0];
    ScanEndUnique([v, 0, 0, 0, 0, 0], 1);
    assert [v, 0, 0, 0, 0, 0][..1] == [v];
    assert ScanSlots(Scan([], []), [v]) == Step(Scan([], []), v);
    assert ScanSlots(Scan([], [k]), [v]) == Step(Scan([], [k]), v);
    assert ReleasedKeys([Unknown]) == ReleasedKeys([]) + [];
  }

  /** The empty report releases every retained key, in retained order, and empties the state. */
  lemma EmptyReportReleasesAll(previous: seq<Key>)
    ensures Decode(previous, EmptyReport, ReportLength) == EventsOf(ReleasedKeys(previous), Released)
    ensures NextPrevious(previous, EmptyReport, ReportLength) == []
  {
    assert Slots(EmptyReport, ReportLength) == [0, 0, 0, 0, 0, 0];
    assert ScanEnd([0, 0, 0, 0, 0, 0]) == 0;
    assert EventsOf([], Pressed) + EventsOf(ReleasedKeys(previous), Released) == EventsOf(ReleasedKeys(previous), Released);
  }

  /** A fresh decoder given the report [A] and then the empty report yields [PRESSED A] and then [RELEASED A]. */
  lemma PressThenRelease()
    ensures Decode([], SingleKeyReport(0x04), ReportLength) == [KeyEvent(A, Pressed)]
    ensures NextPrevious([], SingleKeyReport(0x04), ReportLength) == [A]
    ensures Decode([A], EmptyReport, ReportLength) == [KeyEvent(A, Released)]
    ensures NextPrevious([A], EmptyReport, ReportLength) == []
  {
    ContiguousUsage(0x04);
    HeldKeyIsPressedAgain(0x04);
    EmptyReportReleasesAll([A]);
    assert ReleasedKeys([A]) == ReleasedKeys([]) + [A];
    SingleEvent(A, Released);
  }

  /** A held key reported again together with a new key is never released: the state keeps only the new key. */
  lemma ReconfirmedKeyNeverReleased(u: Byte, v: Byte, held: Key, added: Key)
    requires TryKeyFrom(u) == Some(held) && TryKeyFrom(v) == Some(added) && held != added
    ensures var r := [0, 0, u, v, 0, 0, 0, 0];
            && Decode([held], r, ReportLength) == [KeyEvent(added, Pressed)]
            && NextPrevious([held], r, ReportLength) == [added]
            && Decode([added], EmptyReport, ReportLength) == [KeyEvent(added, Released)]
  {
    var r := [0, 0, u, v, 0, 0, 0, 0];
    HeldThenNewScan(u, v, held, added);
    assert ReleasedKeys([Unknown]) == ReleasedKeys([]) + [];
    SingleEvent(added, Pressed);
    assert Decode([held], r, ReportLength) == EventsOf([added], Pressed) + EventsOf([], Released);
    EmptyReportReleasesAll([added]);
    assert ReleasedKeys([added]) == ReleasedKeys([]) + [added];
    SingleEvent(added, Released);
  }

  lemma SingleEvent(k: Key, t: KeyEventType)
    ensures EventsOf([k], t) == [KeyEvent(k, t)]
  {
  }

  /** The scan behind `ReconfirmedKeyNeverReleased`: the held key is consumed, the new one pressed. */
  lemma HeldThenNewScan(u: Byte, v: Byte, held: Key, added: Key)
    requires TryKeyFrom(u) == Some(held) && TryKeyFrom(v) == Some(added) && held != added
    ensures ScanReport([held], Slots([0, 0, u, v, 0, 0, 0, 0], ReportLength)) == Scan([added], [Unknown])
  {
    TwoSlotReport([held], u, v);
    ScanTwo(Scan([], [held]), u, v);
    StepConsumes(Scan([], [held]), u);
    assert Consume([held], held).previous == [Unknown];
    StepPresses(Scan([], [Unknown]), v);
  }

  /** A report whose first two slots are keys and whose others are empty scans exactly those two. */
  lemma TwoSlotReport(previous: seq<Key>, u: Byte, v: Byte)
    requires u > KeyErrOvf && v > KeyErrOvf
    ensures ScanReport(previous, Slots([0, 0, u, v, 0, 0, 0, 0], ReportLength)) == ScanSlots(Scan([], previous), [u, v])
  {
    var slots := [u, v, 0, 0, 0, 0];
    assert Slots([0, 0, u, v, 0, 0, 0, 0], ReportLength) == slots;
    ScanEndUnique(slots, 2);
    assert slots[..2] == [u, v];
  }

  lemma ScanTwo(s: Scan, u: Byte, v: Byte)
    ensures ScanSlots(s, [u, v]) == Step(Step(s, u), v)
  {
    assert [u, v][..1] == [u];
    assert [u][..0] == [];
    assert ScanSlots(s, [u]) == Step(ScanSlots(s, []), u);
    assert ScanSlots(s, [u, v]) == Step(ScanSlots(s, [u]), v);
  }

  /** A mapped slot whose key is retained consumes it. */
  lemma StepConsumes(s: Scan, v: Byte)
    requires TryKeyFrom(v).Some? && TryKeyFrom(v).value in s.previous
    ensures Step(s, v) == Scan(s.pressed, Consume(s.previous, TryKeyFrom(v).value).previous)
  {
  }

  /** A mapped slot whose key is not retained is pressed. */
  lemma StepPresses(s: Scan, v: Byte)
    requires TryKeyFrom(v).Some? && TryKeyFrom(v).value !in s.previous
    ensures Step(s, v) == Scan(s.pressed + [TryKeyFrom(v).value], s.previous)
  {
  }

  /** The same byte in two slots is pressed twice: lookups consult only the retained state. */
  lemma DuplicateSlotsPressTwice(v: Byte)
    requires TryKeyFrom(v).Some?
    ensures var k := TryKeyFrom(v).value; var r := [0, 0, v, v, 0, 0, 0, 0];
            && Decode([], r, ReportLength) == [KeyEvent(k, Pressed), KeyEvent(k, Pressed)]
            && NextPrevious([], r, ReportLength) == [k, k]
  {
    TwoSlotReport([], v, v);
    ScanTwo(Scan([], []), v, v);
    StepPresses(Scan([], []), v);
    StepPresses(Scan([TryKeyFrom(v).value], []), v);
  }

  /** ErrorRollOver in the second slot hides the third slot; a retained key not consumed is released. */
  lemma RollOverHidesLaterSlots(u: Byte, w: Byte, held: Key)
    requires TryKeyFrom(u).Some? && held != Unknown && held != TryKeyFrom(u).value
    ensures var r := [0, 0, u, KeyErrOvf, w, 0, 0, 0];
            Decode([held], r, ReportLength) == [KeyEvent(TryKeyFrom(u).value, Pressed), KeyEvent(held, Released)]
  {
    var k := TryKeyFrom(u).value;
    var slots := [u, KeyErrOvf, w, 0, 0, 0];
    assert Slots([0, 0, u, KeyErrOvf, w, 0, 0, 0], ReportLength) == slots;
    ScanEndUnique(slots, 1);
    assert slots[..1] == [u];
    assert ScanSlots(Scan([], [held]), [u]) == Scan([k], [held]);
    assert ReleasedKeys([held]) == ReleasedKeys([]) + [held];
  }
}
