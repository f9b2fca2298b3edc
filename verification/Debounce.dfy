/** The debounced rescan over a timed sequence of tree signals: one scan per burst, after its last signal. */
module Debounce {
  import opened Basics
  import opened Environment
  import opened Watches

  predicate Ordered(times: seq<int>) {
    forall i :: 0 < i < |times| ==> times[i - 1] <= times[i]
  }

  /** When the rescan timer goes off, signals arriving at `times`; a timer due by the next signal goes off first. */
  function TimerScans(mac: string, replies: int -> Option<seq<BusObject>>, v: WatchState, times: seq<int>): seq<int>
    decreases |times|, v.timer.Some?
  {
    match v.timer
    case Some(due) =>
      if times == [] || due <= times[0] then
        [due] + TimerScans(mac, replies, RescanFires(mac, v, replies(due)), times)
      else TimerScans(mac, replies, RescanSoon(v, times[0]), times[1..])
    case None =>
      if times == [] then [] else TimerScans(mac, replies, RescanSoon(v, times[0]), times[1..])
  }

  /** Signal `i` ends a burst: nothing follows it within the window. */
  predicate EndsBurst(times: seq<int>, i: nat)
    requires i < |times|
  {
    i == |times| - 1 || times[i + 1] >= times[i] + 200
  }

  function BurstScans(times: seq<int>): seq<int> {
    if times == [] then []
    else (if EndsBurst(times, 0) then [times[0] + 200] else []) + BurstScans(times[1..])
  }

  /** `s` is the window's end after some burst. */
  predicate AfterBurst(times: seq<int>, s: int) {
    exists i: nat :: i < |times| && EndsBurst(times, i) && s == times[i] + 200
  }

  lemma AfterBurstTail(times: seq<int>, s: int)
    requires times != []
    ensures AfterBurst(times, s) <==>
            AfterBurst(times[1..], s) || (EndsBurst(times, 0) && s == times[0] + 200)
  {
    var rest := times[1..];
    if AfterBurst(rest, s) {
      var i: nat :| i < |rest| && EndsBurst(rest, i) && s == rest[i] + 200;
      assert EndsBurst(times, i + 1) && rest[i] == times[i + 1];
    }
    if AfterBurst(times, s) {
      var i: nat :| i < |times| && EndsBurst(times, i) && s == times[i] + 200;
      if i > 0 {
        assert EndsBurst(rest, i - 1) && rest[i - 1] == times[i];
      }
    }
  }

  /** The scans are the ends of the bursts, each a window later. */
  lemma {:induction false} BurstScansExact(times: seq<int>)
    ensures forall s :: s in BurstScans(times) <==> AfterBurst(times, s)
  {
    if times != [] {
      BurstScansExact(times[1..]);
      forall s
        ensures s in BurstScans(times) <==> AfterBurst(times, s)
      {
        AfterBurstTail(times, s);
      }
    }
  }

  /** They come in order and without repeats. */
  lemma {:induction false} BurstScansOrdered(times: seq<int>)
    requires Ordered(times)
    ensures forall j :: 0 < j < |BurstScans(times)| ==> BurstScans(times)[j - 1] < BurstScans(times)[j]
    ensures times != [] ==> BurstScans(times) != [] && BurstScans(times)[0] >= times[0] + 200
  {
    if times != [] {
      BurstScansOrdered(times[1..]);
    }
  }

  lemma {:induction false} ScansFrom(mac: string, replies: int -> Option<seq<BusObject>>, v: WatchState,
                                     times: seq<int>)
    ensures TimerScans(mac, replies, v, times) ==
            (if v.timer.Some? && (times == [] || v.timer.value <= times[0]) then [v.timer.value] else [])
            + BurstScans(times)
    decreases |times|, v.timer.Some?
  {
    if v.timer.Some? && (times == [] || v.timer.value <= times[0]) {
      ScansFrom(mac, replies, RescanFires(mac, v, replies(v.timer.value)), times);
    } else if times != [] {
      ScansFrom(mac, replies, RescanSoon(v, times[0]), times[1..]);
    }
  }

  /** With no rescan pending, a sequence of signals causes exactly the scans of its bursts, whatever the scans find. */
  lemma DebounceRefinesBursts(mac: string, replies: int -> Option<seq<BusObject>>, v: WatchState, times: seq<int>)
    requires v.timer.None? && Ordered(times)
    ensures var scans := TimerScans(mac, replies, v, times);
            && (forall s :: s in scans <==> AfterBurst(times, s))
            && (forall j :: 0 < j < |scans| ==> scans[j - 1] < scans[j])
  {
    ScansFrom(mac, replies, v, times);
    BurstScansExact(times);
    BurstScansOrdered(times);
  }
}
