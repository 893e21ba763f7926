/** One active deadline and the `#wait` loops that sleep on behalf of it. */
module PendingDecisions {
  import opened Common

  class HostClock {
    var now: real

    constructor (start: real)
      ensures now == start
    {
      now := start;
    }

    method AdvanceTo(to: real)
      requires to >= now
      modifies this
      ensures now == to
    {
      now := to;
    }
  }

  /** `payload` is the identity of the domain entry, `abort` that of the current AbortController. */
  datatype Active = Active(payload: nat, expiresAt: real, held: bool, abort: nat)

  /** A `#wait` call suspended in `clock.sleep`. */
  datatype Sleeper = Sleeper(payload: nat, due: real)

  function Max(a: real, b: real): real {
    if a >= b then a else b
  }

  class PendingDecision {
    const clock: HostClock
    var current: Option<Active>
    var sleepers: map<nat, Sleeper>
    var aborted: set<nat>
    var nextAbort: nat

    /**
     * A deadline that runs has its own sleeper; every other sleeper, left from before a hold, a
     * release or a displacement, carries an aborted signal.
     */
    ghost predicate Valid()
      reads this
    {
      && (forall s | s in sleepers :: s < nextAbort)
      && (forall s | s in aborted :: s < nextAbort)
      && (forall s | s in sleepers :: s in aborted || IsLive(s))
      && (current.Some? ==>
            && current.value.abort < nextAbort
            && (current.value.held <==> current.value.abort in aborted)
            && (!current.value.held ==>
                  && current.value.abort in sleepers
                  && sleepers[current.value.abort].payload == current.value.payload
                  && sleepers[current.value.abort].due >= current.value.expiresAt))
    }

    predicate IsLive(signal: nat)
      reads this
    {
      current.Some? && !current.value.held && current.value.abort == signal
    }

    predicate Holds(payload: nat)
      reads this
    {
      current.Some? && current.value.payload == payload
    }

    constructor (clock: HostClock)
      ensures Valid() && this.clock == clock && current == None && sleepers == map[]
    {
      this.clock := clock;
      current := None;
      sleepers := map[];
      aborted := {};
      nextAbort := 0;
    }

    method Wait(signal: nat, payload: nat, expiresAt: real)
      modifies this`sleepers
      ensures sleepers == old(sleepers)[signal := Sleeper(payload, Max(clock.now, expiresAt))]
    {
      sleepers := sleepers[signal := Sleeper(payload, clock.now + Max(0.0, expiresAt - clock.now))];
    }

    method Offer(payload: nat, expiresAt: real) returns (displaced: Option<nat>)
      requires Valid()
      modifies this
      ensures Valid()
      ensures current == Some(Active(payload, expiresAt, false, old(nextAbort)))
      ensures sleepers == old(sleepers)[old(nextAbort) := Sleeper(payload, Max(clock.now, expiresAt))]
      ensures displaced == if old(current).Some? then Some(old(current).value.payload) else None
    {
      displaced := None;
      if current.Some? {
        displaced := Some(current.value.payload);
        var _ := Consume(current.value.payload);
      }
      current := Some(Active(payload, expiresAt, false, nextAbort));
      nextAbort := nextAbort + 1;
      Wait(current.value.abort, payload, expiresAt);
    }

    method Hold(payload: nat) returns (held: bool)
      requires Valid()
      modifies this
      ensures Valid() && sleepers == old(sleepers)
      ensures held == (old(Holds(payload)) && !old(current).value.held)
      ensures current == if held then Some(old(current).value.(held := true)) else old(current)
    {
      if !Holds(payload) || current.value.held { return false; }
      current := Some(current.value.(held := true));
      aborted := aborted + {current.value.abort};
      return true;
    }

    method Release(payload: nat, expiresAt: real) returns (released: bool)
      requires Valid()
      modifies this
      ensures Valid()
      ensures released == (old(Holds(payload)) && old(current).value.held)
      ensures !released ==> current == old(current) && sleepers == old(sleepers)
      ensures released ==>
                && current == Some(Active(payload, expiresAt, false, old(nextAbort)))
                && sleepers == old(sleepers)[old(nextAbort) := Sleeper(payload, Max(clock.now, expiresAt))]
    {
      if !Holds(payload) || !current.value.held { return false; }
      current := Some(Active(payload, expiresAt, false, nextAbort));
      nextAbort := nextAbort + 1;
      Wait(current.value.abort, payload, expiresAt);
      return true;
    }

    method Consume(payload: nat) returns (consumed: bool)
      requires Valid()
      modifies this
      ensures Valid() && sleepers == old(sleepers) && nextAbort == old(nextAbort)
      ensures consumed == old(Holds(payload))
      ensures current == if consumed then None else old(current)
    {
      if !Holds(payload) { return false; }
      aborted := aborted + {current.value.abort};
      current := None;
      return true;
    }

    /**
     * The sleep behind `signal` returns, at whatever time. Only the live sleeper of a deadline that
     * has been reached expires its entry; the caller then runs the entry's `onExpire`.
     */
    method Wake(signal: nat) returns (expired: Option<nat>)
      requires Valid() && signal in sleepers
      modifies this
      ensures Valid()
      ensures expired == if old(IsLive(signal)) && clock.now >= old(current).value.expiresAt
                         then Some(old(current).value.payload) else None
      ensures current == if expired.Some? then None else old(current)
      ensures old(IsLive(signal)) && expired.None? ==>
                sleepers == old(sleepers)[signal := Sleeper(old(current).value.payload, old(current).value.expiresAt)]
      ensures !old(IsLive(signal)) ==> sleepers == old(sleepers) - {signal}
    {
      var payload := sleepers[signal].payload;
      if signal in aborted || !Holds(payload) || current.value.held {
        sleepers := sleepers - {signal};
        return None;
      }
      if clock.now < current.value.expiresAt {
        Wait(signal, payload, current.value.expiresAt);
        return None;
      }
      var _ := Consume(payload);
      sleepers := sleepers - {signal};
      return Some(payload);
    }

    /** An aborted sleep rejects and its loop ends. */
    method Reject(signal: nat)
      requires Valid() && signal in sleepers && signal in aborted
      modifies this`sleepers
      ensures Valid() && sleepers == old(sleepers) - {signal}
    {
      sleepers := sleepers - {signal};
    }
  }
}
