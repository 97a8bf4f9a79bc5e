/**
 * The keyboard-shortcut macro (src/macros/shortcut.rs): a list of injection
 * targets, validated once when the configuration is read, and replayed as all
 * key-downs followed by all key-ups.
 *
 * Each injected event is a call into the input-simulation library that may
 * fail; its outcome is the oracle `simulate`, indexed by the number of the
 * call, and the output is the trace of calls and sleeps in order.
 */
module Shortcut {

  import opened Wrappers
  import opened Keys
  import Rdev

  /** The pause after every injected event. */
  const SendDelayMs: nat := 20

  datatype EventType = KeyPress(key: Rdev.RdevKey) | KeyRelease(key: Rdev.RdevKey)

  /** One observable step of a macro: an injection attempt and its outcome, or a sleep. */
  datatype Output = Simulated(event: EventType, ok: bool) | Slept(ms: nat)

  datatype ShortCut = ShortCut(keys: seq<Rdev.RdevKey>)

  /** The result of building a shortcut: the source panics on the first unsupported key, at `index`. */
  datatype Construction = Built(shortcut: ShortCut) | Unsupported(index: nat)

  /** Every key of the list has an injection target. */
  predicate AllSupported(keys: seq<Key>)
  {
    forall i :: 0 <= i < |keys| ==> TryIntoRdev(keys[i]).Some?
  }

  /** Builds a shortcut from configured keys, converting each in order. */
  method New(keys: seq<Key>) returns (c: Construction)
    ensures c.Built? <==> AllSupported(keys)
    ensures c.Built? ==> |c.shortcut.keys| == |keys| &&
                         forall i :: 0 <= i < |keys| ==> Some(c.shortcut.keys[i]) == TryIntoRdev(keys[i])
    ensures c.Unsupported? ==> c.index < |keys| && TryIntoRdev(keys[c.index]).None? &&
                               forall j :: 0 <= j < c.index ==> TryIntoRdev(keys[j]).Some?
  {
    var parsed: seq<Rdev.RdevKey> := [];
    for i := 0 to |keys|
      invariant |parsed| == i
      invariant forall j :: 0 <= j < i ==> Some(parsed[j]) == TryIntoRdev(keys[j])
    {
      match TryIntoRdev(keys[i]) {
        case Some(k) =>
          parsed := parsed + [k];
        case None =>
          return Unsupported(i);
      }
    }
    return Built(ShortCut(parsed));
  }

  /** One injection: the call is made, then the thread sleeps whatever the call returned. */
  method Send(event: EventType, ok: bool) returns (out: seq<Output>)
    ensures out == [Simulated(event, ok), Slept(SendDelayMs)]
  {
    out := [Simulated(event, ok)];
    out := out + [Slept(SendDelayMs)];
  }

  /** The key-downs of a shortcut, in key order. */
  function Presses(keys: seq<Rdev.RdevKey>): (r: seq<EventType>)
    ensures |r| == |keys| && forall i :: 0 <= i < |keys| ==> r[i] == KeyPress(keys[i])
  {
    seq(|keys|, i requires 0 <= i < |keys| => KeyPress(keys[i]))
  }

  /** The key-ups of a shortcut, in key order. */
  function Releases(keys: seq<Rdev.RdevKey>): (r: seq<EventType>)
    ensures |r| == |keys| && forall i :: 0 <= i < |keys| ==> r[i] == KeyRelease(keys[i])
  {
    seq(|keys|, i requires 0 <= i < |keys| => KeyRelease(keys[i]))
  }

  /** The injection attempts of a trace, with the sleeps left out. */
  function Attempts(trace: seq<Output>): seq<EventType>
  {
    if trace == [] then []
    else
      var last := trace[|trace| - 1];
      Attempts(trace[..|trace| - 1]) + (if last.Simulated? then [last.event] else [])
  }

  /**
   * Replays a shortcut: key-down for every key in order, then key-up for every
   * key in the same order; the `n`-th injection has outcome `simulate(n)`.
   */
  method Execute(sc: ShortCut, simulate: nat -> bool) returns (trace: seq<Output>)
    ensures |trace| == 4 * |sc.keys|
    ensures forall i :: 0 <= i < |sc.keys| ==>
              trace[2 * i] == Simulated(KeyPress(sc.keys[i]), simulate(i)) && trace[2 * i + 1] == Slept(SendDelayMs)
    ensures forall i :: 0 <= i < |sc.keys| ==>
              trace[2 * |sc.keys| + 2 * i] == Simulated(KeyRelease(sc.keys[i]), simulate(|sc.keys| + i)) &&
              trace[2 * |sc.keys| + 2 * i + 1] == Slept(SendDelayMs)
    ensures Attempts(trace) == Presses(sc.keys) + Releases(sc.keys)
  {
    var n := |sc.keys|;
    var down := SendAll(Presses(sc.keys), simulate, 0);
    var up := SendAll(Releases(sc.keys), simulate, n);
    trace := down + up;
    AttemptsConcat(down, up);
  }

  /** One of the two loops of `execute`: each event is sent in order, the `i`-th with outcome `simulate(first + i)`. */
  method SendAll(events: seq<EventType>, simulate: nat -> bool, first: nat) returns (trace: seq<Output>)
    ensures |trace| == 2 * |events|
    ensures forall i :: 0 <= i < |events| ==>
              trace[2 * i] == Simulated(events[i], simulate(first + i)) && trace[2 * i + 1] == Slept(SendDelayMs)
    ensures Attempts(trace) == events
  {
    trace := [];
    for i := 0 to |events|
      invariant |trace| == 2 * i
      invariant forall j :: 0 <= j < i ==>
                  trace[2 * j] == Simulated(events[j], simulate(first + j)) && trace[2 * j + 1] == Slept(SendDelayMs)
      invariant Attempts(trace) == events[..i]
    {
      var out := Send(events[i], simulate(first + i));
      AttemptsOfSend(trace, events[i], simulate(first + i));
      assert events[..i + 1] == events[..i] + [events[i]];
      trace := trace + out;
    }
    assert events[..|events|] == events;
  }

  lemma {:induction false} AttemptsConcat(a: seq<Output>, b: seq<Output>)
    ensures Attempts(a + b) == Attempts(a) + Attempts(b)
  {
    if b == [] {
      assert a + b == a;
    } else {
      assert (a + b)[..|a + b| - 1] == a + b[..|b| - 1];
      AttemptsConcat(a, b[..|b| - 1]);
    }
  }

  /** One send adds exactly its event to the attempts. */
  lemma AttemptsOfSend(trace: seq<Output>, event: EventType, ok: bool)
    ensures Attempts(trace + [Simulated(event, ok), Slept(SendDelayMs)]) == Attempts(trace) + [event]
  {
    var t := trace + [Simulated(event, ok), Slept(SendDelayMs)];
    assert t[..|t| - 1] == trace + [Simulated(event, ok)];
    assert (trace + [Simulated(event, ok)])[..|trace|] == trace;
  }

  /** A built shortcut names, through the inverse table, the configured keys up to Alt and backquote aliasing. */
  lemma BuiltKeysRoundTrip(keys: seq<Key>, sc: ShortCut)
    requires |sc.keys| == |keys|
    requires forall i :: 0 <= i < |keys| ==> Some(sc.keys[i]) == TryIntoRdev(keys[i])
    ensures forall i :: 0 <= i < |keys| ==> KeyOfRdev(sc.keys[i]) == Canonical(keys[i])
  {
    forall i | 0 <= i < |keys|
      ensures KeyOfRdev(sc.keys[i]) == Canonical(keys[i])
    {
      IntoRdevInverse(keys[i]);
    }
  }
}
