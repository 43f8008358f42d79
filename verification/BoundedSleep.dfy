/** Sleeping in parts while a condition holds. */
module BoundedSleep {

  /** A clock that never goes back. What happens outside is fixed beforehand: how much time passes
      before each reading and how much longer than asked each sleep takes. */
  class Clock {
    var now: nat
    var readings: nat
    var slept: seq<nat>
    const delay: nat -> nat
    const oversleep: nat -> nat

    constructor (now: nat, delay: nat -> nat, oversleep: nat -> nat)
      ensures this.now == now && readings == 0 && slept == []
    {
      this.now, readings, slept := now, 0, [];
      this.delay, this.oversleep := delay, oversleep;
    }

    method Now() returns (t: nat)
      modifies this`now, this`readings
      ensures t == now && now >= old(now)
    {
      now := now + delay(readings);
      readings := readings + 1;
      t := now;
    }

    method SleepFor(time: nat)
      modifies this`now, this`slept
      ensures slept == old(slept) + [time]
      ensures now >= old(now) + time
    {
      now := now + time + oversleep(|slept|);
      slept := slept + [time];
    }
  }

  function Sum(xs: seq<nat>): nat {
    if xs == [] then 0 else Sum(xs[..|xs| - 1]) + xs[|xs| - 1]
  }

  /** All sleeps are full parts but perhaps the last, which is not empty. */
  ghost predicate InParts(slept: seq<nat>, part: nat) {
    forall k | 0 <= k < |slept| :: 0 < slept[k] <= part && (k < |slept| - 1 ==> slept[k] == part)
  }

  lemma {:induction false} SumSnoc(xs: seq<nat>, x: nat)
    ensures Sum(xs + [x]) == Sum(xs) + x
  {
    assert (xs + [x])[..|xs|] == xs;
  }

  /** One more sleep after full ones. */
  lemma {:induction false} SleepsMore(slept: seq<nat>, time: nat, part: nat)
    requires InParts(slept, part) && (slept != [] ==> slept[|slept| - 1] == part) && 0 < time <= part
    ensures InParts(slept + [time], part) && Sum(slept + [time]) == Sum(slept) + time
  {
    SumSnoc(slept, time);
    var more := slept + [time];
    forall k | 0 <= k < |more| ensures 0 < more[k] <= part && (k < |more| - 1 ==> more[k] == part) {
      if k < |slept| {
        assert more[k] == slept[k];
      }
    }
  }

  lemma {:induction false} FullParts(slept: seq<nat>, part: nat)
    requires forall k | 0 <= k < |slept| :: slept[k] == part
    ensures Sum(slept) == |slept| * part
  {
    if slept != [] {
      FullParts(slept[..|slept| - 1], part);
    }
  }

  /** With at most `time` slept in all, the number of sleeps is at most `time / part` rounded up. */
  lemma {:induction false} SleepsAreFew(slept: seq<nat>, time: nat, part: nat)
    requires InParts(slept, part) && Sum(slept) <= time
    ensures slept != [] ==> (|slept| - 1) * part < time
  {
    if slept != [] {
      FullParts(slept[..|slept| - 1], part);
    }
  }

  datatype End = Stopped | Elapsed | NoPart

  /** `condition(k)` is what the condition says when it is checked for the time `k`. The sleeps come in
      parts, take `time` at most, and each follows a check that held. */
  method SleepInParts(clock: Clock, time: nat, part: nat, condition: nat -> bool) returns (end: End)
    requires clock.slept == []
    modifies clock
    ensures InParts(clock.slept, part) && Sum(clock.slept) <= time
    ensures clock.slept != [] ==> (|clock.slept| - 1) * part < time
    ensures forall k | 0 <= k < |clock.slept| :: condition(k)
    ensures match end
            case Stopped => !condition(|clock.slept|)
            case Elapsed => clock.now >= old(clock.now) + time
            case NoPart => part == 0 && clock.slept == []
  {
    var sleepStart := clock.Now();
    var sleepEnd := sleepStart + time;
    var checks := 0;
    end := Stopped;
    while condition(checks)
      invariant checks == |clock.slept| && end == Stopped
      invariant InParts(clock.slept, part)
      invariant clock.slept != [] && clock.slept[checks - 1] < part ==> clock.now >= sleepEnd
      invariant Sum(clock.slept) <= time && sleepStart + Sum(clock.slept) <= clock.now
      invariant forall k | 0 <= k < checks :: condition(k)
      decreases sleepEnd - clock.now
    {
      var now := clock.Now();
      var remains := if now < sleepEnd then sleepEnd - now else 0;
      if remains > part {
        remains := part;
      }
      if remains > 0 {
        SleepsMore(clock.slept, remains, part);
        clock.SleepFor(remains);
      } else {
        end := if part == 0 && now < sleepEnd then NoPart else Elapsed;
        break;
      }
      checks := checks + 1;
    }
    SleepsAreFew(clock.slept, time, part);
  }
}
