/**
 * Request limits per model: a sliding window of one minute, and a counter per day shared by all processes.
 */
module RateLimit {
  const WINDOW := 60.0
  const MARGIN := 0.05

  function Min(a: real, b: real): real { if a < b then a else b }

  // ----- the sliding window ----------------------------------------------------------------------------------------

  /** Entries that left the window are dropped from the front. */
  function Dropped(q: seq<real>, now: real): seq<real> {
    if q != [] && q[0] <= now - WINDOW then Dropped(q[1..], now) else q
  }

  /** Times in order, none in the future. */
  ghost predicate InOrder(ts: seq<real>, now: real) {
    ts == [] || (ts[|ts| - 1] <= now && InOrder(ts[..|ts| - 1], ts[|ts| - 1]))
  }

  lemma {:induction false} InOrderAt(ts: seq<real>, now: real, i: nat, j: nat)
    requires InOrder(ts, now) && i <= j < |ts|
    ensures ts[i] <= ts[j] <= now
    decreases |ts|
  {
    if i < |ts| - 1 { InOrderAt(ts[..|ts| - 1], ts[|ts| - 1], i, if j < |ts| - 1 then j else i); }
    if j < |ts| - 1 { InOrderAt(ts[..|ts| - 1], ts[|ts| - 1], j, j); }
  }

  /** Each grant comes at least the window after the one `limit` places before it. */
  ghost predicate Spaced(ts: seq<real>, limit: nat) {
    ts == []
    || ((|ts| > limit ==> ts[|ts| - 1] >= ts[|ts| - 1 - limit] + WINDOW) && Spaced(ts[..|ts| - 1], limit))
  }

  /** The queue holds the last grants; those no longer in it have left the window. */
  ghost predicate Tracks(q: seq<real>, grants: seq<real>, limit: nat, now: real) {
    && |q| <= limit && |q| <= |grants| && q == grants[|grants| - |q|..]
    && InOrder(grants, now) && Spaced(grants, limit)
    && (|grants| > |q| ==> grants[|grants| - |q| - 1] <= now - WINDOW)
  }

  lemma {:induction false} DroppedTracks(q: seq<real>, grants: seq<real>, limit: nat, before: real, now: real)
    requires Tracks(q, grants, limit, before) && before <= now
    ensures Tracks(Dropped(q, now), grants, limit, now)
    ensures Dropped(q, now) != [] ==> Dropped(q, now)[0] > now - WINDOW
    ensures q != [] && q[0] <= now - WINDOW ==> |Dropped(q, now)| < |q|
    decreases |q|
  {
    if q != [] && q[0] <= now - WINDOW {
      assert grants[|grants| - |q|] == q[0];
      assert q[1..] == grants[|grants| - |q[1..]|..];
      DroppedTracks(q[1..], grants, limit, now, now);
    }
  }

  lemma {:induction false} GrantTracks(q: seq<real>, grants: seq<real>, limit: nat, now: real)
    requires Tracks(q, grants, limit, now) && |q| < limit
    ensures Tracks(q + [now], grants + [now], limit, now)
  {
    var ts := grants + [now];
    assert q + [now] == ts[|ts| - |q| - 1..];
    assert ts[..|grants|] == grants;
    if |grants| >= limit { InOrderAt(grants, now, |grants| - limit, |grants| - |q| - 1); }
  }

  /** Fewer than `limit` slots were taken in the last minute. */
  predicate Free(grants: seq<real>, limit: nat, now: real) {
    |grants| < limit || (limit > 0 && grants[|grants| - limit] <= now - 60.0)
  }

  lemma {:induction false} RoomIffFree(q: seq<real>, grants: seq<real>, limit: nat, now: real)
    requires Tracks(q, grants, limit, now) && limit > 0 && (q != [] ==> q[0] > now - WINDOW)
    ensures |q| < limit <==> Free(grants, limit, now)
    ensures |q| >= limit ==> |grants| >= limit && q[0] == grants[|grants| - limit] && now - WINDOW < q[0] <= now
  {
    if |q| < limit <= |grants| { InOrderAt(grants, now, |grants| - limit, |grants| - |q| - 1); }
    if |q| >= limit { InOrderAt(grants, now, |grants| - limit, |grants| - limit); }
  }

  lemma {:induction false} DropLeaves(q: seq<real>, grants: seq<real>, limit: nat, before: real, now: real)
    requires Tracks(q, grants, limit, before) && before <= now && limit > 0
    ensures var r := Dropped(q, now);
            && Tracks(r, grants, limit, now)
            && (|r| < limit <==> Free(grants, limit, now))
            && (|r| >= limit ==> |grants| >= limit && r[0] == grants[|grants| - limit] && now - WINDOW < r[0] <= now)
            && (q != [] && q[0] + WINDOW <= now ==> |r| < limit)
  {
    DroppedTracks(q, grants, limit, before, now);
    RoomIffFree(Dropped(q, now), grants, limit, now);
  }

  method Drop(q0: seq<real>, now: real) returns (q: seq<real>)
    ensures q == Dropped(q0, now)
  {
    q := q0;
    while q != [] && q[0] <= now - WINDOW
      invariant Dropped(q, now) == Dropped(q0, now)
      decreases |q|
    {
      q := q[1..];
    }
  }

  /** One attempt on one model's queue. */
  method TakeSlot(q0: seq<real>, limit: nat, now: real, ghost grants0: seq<real>, ghost before: real)
    returns (q: seq<real>, wait: real, ghost grants: seq<real>)
    requires Tracks(q0, grants0, limit, before) && before <= now && limit > 0
    ensures Tracks(q, grants, limit, now)
    ensures 0.0 <= wait <= WINDOW
    ensures grants == grants0 + if wait == 0.0 then [now] else []
    ensures wait > 0.0 ==> q != [] && q[0] + WINDOW == now + wait
    ensures q0 != [] && q0[0] + WINDOW <= now ==> wait == 0.0
    ensures wait == if Free(grants0, limit, now) then 0.0 else grants0[|grants0| - limit] + 60.0 - now
  {
    grants := grants0;
    q := Drop(q0, now);
    DropLeaves(q0, grants0, limit, before, now);
    if |q| < limit {
      GrantTracks(q, grants, limit, now);
      q, grants, wait := q + [now], grants + [now], 0.0;
    } else {
      wait := q[0] + WINDOW - now;
    }
  }

  /** The queue of one model (queues of different models share nothing); a limit of 0 stands for an unlisted model. */
  class Limiter {
    const limit: nat
    var q: seq<real>
    var now: real               // the last reading of the clock
    ghost var grants: seq<real> // every slot taken

    ghost predicate Valid() reads this { Tracks(q, grants, limit, now) }

    constructor (limit: nat, now: real)
      ensures Valid() && this.limit == limit && this.now == now && grants == []
    {
      this.limit, this.q, this.now, this.grants := limit, [], now, [];
    }

    /** _try without Redis: a slot is taken, or the result is how long until the oldest entry leaves the window. */
    method Try(reading: real) returns (wait: real)
      requires Valid() && limit > 0 && now <= reading
      modifies this
      ensures Valid() && now == reading && |q| <= limit
      ensures 0.0 <= wait <= WINDOW
      ensures grants == old(grants) + if wait == 0.0 then [reading] else []
      ensures wait > 0.0 ==> q != [] && q[0] + WINDOW == reading + wait
      ensures old(q) != [] && old(q)[0] + WINDOW <= reading ==> wait == 0.0
      ensures wait == if Free(old(grants), limit, reading) then 0.0
                      else old(grants)[|old(grants)| - limit] + 60.0 - reading
    {
      q, wait, grants := TakeSlot(q, limit, reading, grants, now);
      now := reading;
    }

    /**
     * acquire: one waiter at a time, so nobody takes a slot between the attempts.  `wake(t, w)` is what the clock says
     * after a sleep of w asked for at t.
     */
    method Acquire(reading: real, wake: (real, real) -> real) returns (waited: real, ghost sleeps: nat)
      requires Valid() && now <= reading
      requires forall t, w :: w > 0.0 ==> wake(t, w) >= t + w  // sleep waits at least as long as asked
      modifies this
      ensures Valid()
      ensures sleeps <= 1 && 0.0 <= waited <= WINDOW && (sleeps == 0 <==> waited == 0.0)
      ensures sleeps == 0 <==> limit == 0 || Free(old(grants), limit, reading)
      ensures sleeps == 1 ==> waited == Min(old(grants)[|old(grants)| - limit] + 60.0 - reading + 0.05, 60.0)
      ensures if limit == 0 then sleeps == 0 && grants == old(grants)
              else grants == old(grants) + [now] && now == if sleeps == 0 then reading else wake(reading, waited)
    {
      waited, sleeps := 0.0, 0;
      if limit == 0 { return; }
      var t := reading;
      while true
        invariant Valid() && sleeps <= 1 && now <= t && grants == old(grants)
        invariant sleeps == 0 ==> waited == 0.0 && t == reading
        invariant sleeps == 1 ==> && !Free(old(grants), limit, reading)
                                  && waited == Min(old(grants)[|old(grants)| - limit] + 60.0 - reading + 0.05, 60.0)
                                  && 0.0 < waited <= WINDOW && t == wake(reading, waited)
                                  && q != [] && q[0] + WINDOW <= t
        decreases 1 - sleeps
      {
        var wait := Try(t);
        if wait <= 0.0 { break; }
        wait := Min(wait + MARGIN, WINDOW);
        waited := waited + wait;
        sleeps := sleeps + 1;
        t := wake(t, wait);
      }
    }
  }

  /** So every grant comes at least the window after the one `limit` places before it, and after all earlier ones. */
  lemma {:induction false} GrantsApart(ts: seq<real>, limit: nat, now: real, i: nat, j: nat)
    requires InOrder(ts, now) && Spaced(ts, limit) && i + limit <= j < |ts|
    ensures ts[j] >= ts[i] + WINDOW
    decreases |ts|
  {
    if j < |ts| - 1 {
      GrantsApart(ts[..|ts| - 1], limit, ts[|ts| - 1], i, j);
    } else {
      InOrderAt(ts, now, i, j - limit);
    }
  }

  // ----- the daily counter -----------------------------------------------------------------------------------------

  /** One model's counter for one day: the stored value, and what the processes have done with their turns. */
  datatype Day = Day(counter: int, admitted: nat, refusing: nat, leaked: nat)

  datatype CountStep =
    | Incr   // INCR, and the comparison of its answer with the cap
    | Decr   // a refused request takes its count back
    | Crash  // a process dies between the two

  predicate CountEnabled(d: Day, s: CountStep) {
    s.Incr? || d.refusing > 0
  }

  function CountApply(d: Day, cap: int, s: CountStep): Day
    requires CountEnabled(d, s)
  {
    match s
    case Incr =>
      var n := d.counter + 1;
      if n > cap then d.(counter := n, refusing := d.refusing + 1) else d.(counter := n, admitted := d.admitted + 1)
    case Decr => d.(counter := d.counter - 1, refusing := d.refusing - 1)
    case Crash => d.(refusing := d.refusing - 1, leaked := d.leaked + 1)
  }

  type DayKey = (string, string)  // model and Pacific-time day

  function At(days: map<DayKey, Day>, key: DayKey): Day { if key in days then days[key] else Day(0, 0, 0, 0) }

  predicate CountsValid(days: map<DayKey, Day>, cap: int, run: seq<(DayKey, CountStep)>)
    decreases |run|
  {
    run == []
    || (CountEnabled(At(days, run[0].0), run[0].1)
        && CountsValid(days[run[0].0 := CountApply(At(days, run[0].0), cap, run[0].1)], cap, run[1..]))
  }

  function CountsAfter(days: map<DayKey, Day>, cap: int, run: seq<(DayKey, CountStep)>): map<DayKey, Day>
    requires CountsValid(days, cap, run)
    decreases |run|
  {
    if run == [] then days
    else CountsAfter(days[run[0].0 := CountApply(At(days, run[0].0), cap, run[0].1)], cap, run[1..])
  }

  ghost predicate Counted(d: Day, cap: int) {
    d.counter == d.admitted + d.refusing + d.leaked && (d.admitted == 0 || d.admitted <= cap)
  }

  lemma {:induction false} CountsStay(days: map<DayKey, Day>, cap: int, run: seq<(DayKey, CountStep)>, key: DayKey)
    requires CountsValid(days, cap, run) && Counted(At(days, key), cap)
    ensures Counted(At(CountsAfter(days, cap, run), key), cap)
    decreases |run|
  {
    if run != [] {
      CountsStay(days[run[0].0 := CountApply(At(days, run[0].0), cap, run[0].1)], cap, run[1..], key);
    }
  }

  /**
   * However the processes' INCRs, refusals and late DECRs interleave, no more requests are sent on a day than the cap
   * allows; and with no refusal under way the counter is the number of requests sent, plus one for each process that
   * died between its INCR and its DECR.
   */
  lemma {:induction false} DailyCapHolds(cap: nat, run: seq<(DayKey, CountStep)>, key: DayKey)
    requires CountsValid(map[], cap, run)
    ensures var d := At(CountsAfter(map[], cap, run), key);
            d.admitted <= cap && (d.refusing == 0 ==> d.counter == d.admitted + d.leaked)
  {
    CountsStay(map[], cap, run, key);
  }

  /** A request is sent exactly while the counts not taken back, its own aside, are below the cap. */
  lemma {:induction false} AdmittedIff(cap: nat, run: seq<(DayKey, CountStep)>, key: DayKey)
    requires CountsValid(map[], cap, run)
    ensures var d := At(CountsAfter(map[], cap, run), key);
            var next := CountApply(d, cap, Incr);
            if d.admitted + d.refusing + d.leaked < cap
            then next.admitted == d.admitted + 1 && next.refusing == d.refusing
            else next.admitted == d.admitted && next.refusing == d.refusing + 1
  {
    CountsStay(map[], cap, run, key);
  }
}
