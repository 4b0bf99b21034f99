/**
 * The kernel input interface as seen through libevdev: event-code constants of
 * <linux/input-event-codes.h>, input events, absolute-axis descriptors, a
 * device profile (what `struct libevdev` describes) and a uinput device that
 * records what is written to it.
 */
module Evdev {
  import opened Wrappers

  const EV_SYN: nat := 0
  const EV_REL: nat := 2
  const EV_ABS: nat := 3
  const SYN_REPORT: nat := 0

  const REL_X: nat := 0
  const REL_Y: nat := 1
  const REL_Z: nat := 2
  const REL_RX: nat := 3
  const REL_RY: nat := 4
  const REL_RZ: nat := 5
  const REL_WHEEL: nat := 8
  const REL_MISC: nat := 9
  const REL_MAX: nat := 0x0f

  const ABS_X: nat := 0
  const ABS_Y: nat := 1
  const ABS_Z: nat := 2
  const ABS_RX: nat := 3
  const ABS_RY: nat := 4
  const ABS_RZ: nat := 5
  const ABS_WHEEL: nat := 8
  const ABS_MISC: nat := 0x28
  const ABS_MAX: nat := 0x3f

  /** `struct input_event` without its timestamp. */
  datatype Event = Event(evType: nat, code: nat, value: int)

  /** `struct input_absinfo`. */
  datatype AbsInfo = AbsInfo(value: int, minimum: int, maximum: int, fuzz: int, flat: int, resolution: int)

  /**
   * A libevdev device profile: its name, the event types it supports and, for
   * each supported (type, code) pair, the absolute-axis descriptor if any.
   */
  class Libevdev {
    var name: string
    var eventTypes: set<nat>
    var codes: map<(nat, nat), Option<AbsInfo>>

    constructor (name: string, eventTypes: set<nat>, codes: map<(nat, nat), Option<AbsInfo>>)
      ensures this.name == name && this.eventTypes == eventTypes && this.codes == codes
    {
      this.name := name;
      this.eventTypes := eventTypes;
      this.codes := codes;
    }

    /** `libevdev_has_event_type`. */
    predicate HasEventType(t: nat)
      reads this
    {
      t in eventTypes
    }

    /** `libevdev_has_event_code`: the type and the code are both enabled. */
    predicate HasEventCode(t: nat, c: nat)
      reads this
    {
      t in eventTypes && (t, c) in codes
    }

    /** `libevdev_enable_event_type`. */
    method EnableEventType(t: nat)
      modifies this
      ensures eventTypes == old(eventTypes) + {t}
      ensures name == old(name) && codes == old(codes)
    {
      eventTypes := eventTypes + {t};
    }

    /** `libevdev_enable_event_code`, which enables the type as well. */
    method EnableEventCode(t: nat, c: nat, info: Option<AbsInfo>)
      modifies this
      ensures eventTypes == old(eventTypes) + {t}
      ensures codes == old(codes)[(t, c) := info]
      ensures name == old(name)
    {
      eventTypes := eventTypes + {t};
      codes := codes[(t, c) := info];
    }

    /** `libevdev_disable_event_code`. */
    method DisableEventCode(t: nat, c: nat)
      modifies this
      ensures codes == old(codes) - {(t, c)}
      ensures name == old(name) && eventTypes == old(eventTypes)
    {
      codes := codes - {(t, c)};
    }

    /** `libevdev_set_name`, which copies the string. */
    method SetName(n: string)
      modifies this
      ensures name == n
      ensures eventTypes == old(eventTypes) && codes == old(codes)
    {
      name := n;
    }
  }

  /**
   * A uinput device: `attempts` holds every event written to it and `log`
   * every event the kernel accepted, in order. `faults` scripts the outcome
   * of the writes to come (true: that write fails); once it is exhausted
   * every write succeeds.
   */
  /** The faults still pending after `n` more writes. */
  function Remaining(faults: seq<bool>, n: nat): (r: seq<bool>)
    ensures |r| == if n <= |faults| then |faults| - n else 0
  {
    if n <= |faults| then faults[n..] else []
  }

  /** What one write of `e` delivers against the pending `faults`. */
  function Accepted(e: Event, faults: seq<bool>): (r: seq<Event>)
    ensures r == [] <==> faults != [] && faults[0]
    ensures r != [] ==> r == [e]
  {
    if faults != [] && faults[0] then [] else [e]
  }

  /**
   * The events of `events`, written one after another, that a device with
   * the pending `faults` accepts: the k-th write fails exactly when the k-th
   * fault is set.
   */
  function Delivered(events: seq<Event>, faults: seq<bool>): (r: seq<Event>)
    ensures |r| <= |events|
  {
    if events == [] then []
    else Accepted(events[0], faults) + Delivered(events[1..], Remaining(faults, 1))
  }

  /** With no fault pending, every event written is delivered. */
  lemma {:induction false} DeliveredWithoutFaults(events: seq<Event>, faults: seq<bool>)
    requires forall k :: 0 <= k < |faults| ==> !faults[k]
    ensures Delivered(events, faults) == events
    decreases |events|
  {
    if events != [] {
      var later := Remaining(faults, 1);
      assert forall k :: 0 <= k < |later| ==> later[k] == faults[k + 1];
      DeliveredWithoutFaults(events[1..], later);
      assert events == [events[0]] + events[1..];
    }
  }

  /** One write, then the rest. */
  lemma DeliveredCons(e: Event, rest: seq<Event>, faults: seq<bool>)
    ensures Delivered([e] + rest, faults) == Accepted(e, faults) + Delivered(rest, Remaining(faults, 1))
  {
    assert ([e] + rest)[0] == e;
    assert ([e] + rest)[1..] == rest;
  }

  /** Writing `a` then `b` delivers what `a` delivers, then what `b` delivers against the faults `a` left. */
  lemma {:induction false} DeliveredAppend(a: seq<Event>, b: seq<Event>, faults: seq<bool>)
    ensures Delivered(a + b, faults) == Delivered(a, faults) + Delivered(b, Remaining(faults, |a|))
    decreases |a|
  {
    if a == [] {
      assert a + b == b;
      assert Remaining(faults, 0) == faults;
    } else {
      var rest := a[1..];
      var later := Remaining(faults, 1);
      assert a == [a[0]] + rest;
      assert a + b == [a[0]] + (rest + b);
      DeliveredCons(a[0], rest + b, faults);
      DeliveredCons(a[0], rest, faults);
      DeliveredAppend(rest, b, later);
      RemainingTwice(faults, 1, |rest|);
      var x, y, z := Accepted(a[0], faults), Delivered(rest, later), Delivered(b, Remaining(faults, |a|));
      assert Delivered(a, faults) == x + y;
      assert Delivered(a + b, faults) == x + (y + z);
      assert x + (y + z) == (x + y) + z;
    }
  }

  /** A log that received `done` and then `next` is the log of writing `done + next` at once. */
  lemma DeliveredExtends(log: seq<Event>, done: seq<Event>, next: seq<Event>, faults: seq<bool>)
    ensures log + Delivered(done, faults) + Delivered(next, Remaining(faults, |done|))
            == log + Delivered(done + next, faults)
    ensures Remaining(Remaining(faults, |done|), |next|) == Remaining(faults, |done + next|)
  {
    var x, y := Delivered(done, faults), Delivered(next, Remaining(faults, |done|));
    assert Delivered(done + next, faults) == x + y by {
      DeliveredAppend(done, next, faults);
    }
    assert log + x + y == log + (x + y) by {
      Regrouped(log, x, y);
    }
    assert |done + next| == |done| + |next|;
    RemainingTwice(faults, |done|, |next|);
  }

  /** Appending twice to a log is appending the two at once. */
  lemma Regrouped(log: seq<Event>, x: seq<Event>, y: seq<Event>)
    ensures log + x + y == log + (x + y)
  {
  }

  /** Faults pending after `m` writes and then `n` more. */
  lemma RemainingTwice(faults: seq<bool>, m: nat, n: nat)
    ensures Remaining(Remaining(faults, m), n) == Remaining(faults, m + n)
  {
  }

  class UInput {
    var attempts: seq<Event>
    var log: seq<Event>
    var faults: seq<bool>

    constructor (faults: seq<bool>)
      ensures attempts == [] && log == [] && this.faults == faults
    {
      attempts := [];
      log := [];
      this.faults := faults;
    }

    /** Whether the next write fails. */
    predicate NextFails()
      reads this
    {
      faults != [] && faults[0]
    }

    /** `libevdev_uinput_write_event`: 0 on success, a negative errno otherwise. */
    method WriteEvent(t: nat, c: nat, v: int) returns (err: int)
      modifies this
      ensures err == 0 <==> !old(NextFails())
      ensures attempts == old(attempts) + [Event(t, c, v)]
      ensures log == if err == 0 then old(log) + [Event(t, c, v)] else old(log)
      ensures faults == if old(faults) == [] then [] else old(faults)[1..]
      ensures log == old(log) + Delivered([Event(t, c, v)], old(faults))
      ensures faults == Remaining(old(faults), 1)
    {
      attempts := attempts + [Event(t, c, v)];
      if faults != [] && faults[0] {
        err := -5;
      } else {
        err := 0;
        log := log + [Event(t, c, v)];
      }
      if faults != [] {
        faults := faults[1..];
      }
    }
  }
}
