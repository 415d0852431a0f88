/**
 * The scroll sampler of AeroWireframe: a throttled scroll listener that
 * schedules one animation-frame callback, and the callback that turns the
 * page's scroll geometry into a progress value in [0, 1] stored in the
 * shared scroll state.
 *
 * Date.now() is the parameter `now` (integer milliseconds); the host's
 * requestAnimationFrame / cancelAnimationFrame are modelled by the set of
 * frame requests that are still scheduled and the ids the host hands out.
 */
module ScrollSampler {
  import opened Numeric

  /** An event closer than this to the last accepted one is dropped. */
  const ThrottleMs: int := 16

  /** updateScroll: scrollY over the scrollable range, 0 when there is no
      range, then clamped into [0, 1]. */
  function Progress(scrollY: real, scrollHeight: real, innerHeight: real): (p: real)
    ensures 0.0 <= p <= 1.0
    ensures scrollHeight - innerHeight <= 0.0 ==> p == 0.0
    ensures scrollY <= 0.0 ==> p == 0.0
    ensures scrollHeight - innerHeight > 0.0 && scrollY >= scrollHeight - innerHeight ==> p == 1.0
    ensures scrollHeight - innerHeight > 0.0 && 0.0 <= scrollY <= scrollHeight - innerHeight ==>
              p * (scrollHeight - innerHeight) == scrollY
  {
    var range := scrollHeight - innerHeight;
    var raw := if range > 0.0 then scrollY / range else 0.0;
    assert range > 0.0 ==> raw * range == scrollY;
    assert range > 0.0 && 0.0 <= scrollY <= range ==> 0.0 <= raw <= 1.0 by {
      if range > 0.0 && 0.0 <= scrollY <= range {
        RatioInUnit(scrollY, range);
      }
    }
    Max(0.0, Min(1.0, raw))
  }

  /** Scrolling further down never lowers the progress. */
  lemma ProgressMonotone(y1: real, y2: real, scrollHeight: real, innerHeight: real)
    requires y1 <= y2
    ensures Progress(y1, scrollHeight, innerHeight) <= Progress(y2, scrollHeight, innerHeight)
  {
    var range := scrollHeight - innerHeight;
    if range > 0.0 {
      assert y1 / range <= y2 / range by {
        assert y2 / range - y1 / range == (y2 - y1) / range;
      }
    }
  }

  /** The worked example: 600 px down a 2000 px page in an 800 px window is half way. */
  lemma ProgressHalfWay()
    ensures Progress(600.0, 2000.0, 800.0) == 0.5
  {
  }

  /** The throttle test of handleScroll. */
  predicate Accepts(lastUpdate: int, now: int)
  {
    now - lastUpdate >= ThrottleMs
  }

  /** The times, among successive scroll events, that pass the throttle when
      the last accepted event was at `last`. */
  function AcceptedTimes(last: int, times: seq<int>): (acc: seq<int>)
    ensures |acc| <= |times|
    ensures forall k :: 0 <= k < |acc| ==> acc[k] in times
    decreases |times|
  {
    if times == [] then []
    else if Accepts(last, times[0]) then [times[0]] + AcceptedTimes(times[0], times[1..])
    else AcceptedTimes(last, times[1..])
  }

  /** Every accepted time is at least ThrottleMs after its predecessor. */
  predicate Spaced(last: int, acc: seq<int>)
  {
    (|acc| > 0 ==> Accepts(last, acc[0])) &&
    forall k :: 0 <= k < |acc| - 1 ==> Accepts(acc[k], acc[k + 1])
  }

  /** The throttle never lets two updates through within ThrottleMs. */
  lemma {:induction false} AcceptedAreSpaced(last: int, times: seq<int>)
    ensures Spaced(last, AcceptedTimes(last, times))
    decreases |times|
  {
    if times != [] {
      AcceptedAreSpaced(if Accepts(last, times[0]) then times[0] else last, times[1..]);
    }
  }

  /** Events that are already ThrottleMs apart are all accepted. */
  lemma {:induction false} SpacedAreAccepted(last: int, times: seq<int>)
    requires Spaced(last, times)
    ensures AcceptedTimes(last, times) == times
    decreases |times|
  {
    if times != [] {
      assert Spaced(times[0], times[1..]);
      SpacedAreAccepted(times[0], times[1..]);
    }
  }

  /** The time the throttle compares the next event with: the last kept
      time, or `last` when nothing has been kept. */
  function LastKept(last: int, acc: seq<int>): (t: int)
    ensures acc == [] ==> t == last
    ensures acc != [] ==> t == acc[|acc| - 1]
  {
    if acc == [] then last else acc[|acc| - 1]
  }

  /** The drop rule, one event at a time: a new event is kept exactly when
      it comes ThrottleMs or more after the last kept time (or after `last`
      when none was kept); otherwise it is dropped and the kept times stay
      as they were. */
  lemma {:induction false} AcceptedSnoc(last: int, times: seq<int>, t: int)
    ensures var acc := AcceptedTimes(last, times);
      AcceptedTimes(last, times + [t]) == acc + (if Accepts(LastKept(last, acc), t) then [t] else [])
    decreases |times|
  {
    if times == [] {
      assert times + [t] == [t];
      assert [t][1..] == [];
    } else {
      var t0, rest := times[0], times[1..];
      assert (times + [t])[0] == t0;
      assert (times + [t])[1..] == rest + [t];
      var next := if Accepts(last, t0) then t0 else last;
      AcceptedSnoc(next, rest, t);
      var tail := AcceptedTimes(next, rest);
      assert LastKept(last, AcceptedTimes(last, times)) == LastKept(next, tail);
      if Accepts(last, t0) {
        var x := if Accepts(LastKept(next, tail), t) then [t] else [];
        assert [t0] + (tail + x) == ([t0] + tail) + x;
      }
    }
  }

  /** An event 14 ms after a kept one is dropped, and the next is measured
      from the kept one, not from the dropped one. */
  lemma ThrottleExample()
    ensures AcceptedTimes(0, [16, 30, 40]) == [16, 40]
  {
    assert [16, 30, 40][1..] == [30, 40];
    assert [30, 40][1..] == [40];
    assert [40][1..] == [];
  }

  /** a is b with some elements left out, the rest in their order. */
  predicate IsSubsequence(a: seq<int>, b: seq<int>)
    decreases |b|
  {
    if a == [] then true
    else if b == [] then false
    else (a[0] == b[0] && IsSubsequence(a[1..], b[1..])) || IsSubsequence(a, b[1..])
  }

  /** The kept times are the arrival times with some left out, in arrival order. */
  lemma {:induction false} AcceptedIsSubsequence(last: int, times: seq<int>)
    ensures IsSubsequence(AcceptedTimes(last, times), times)
    decreases |times|
  {
    if times != [] {
      var acc := AcceptedTimes(last, times);
      if Accepts(last, times[0]) {
        AcceptedIsSubsequence(times[0], times[1..]);
        assert acc[0] == times[0] && acc[1..] == AcceptedTimes(times[0], times[1..]);
      } else {
        AcceptedIsSubsequence(last, times[1..]);
      }
    }
  }

  /** Of two events less than ThrottleMs apart, the later one is dropped,
      not substituted for the earlier one. */
  lemma BurstKeepsFirst(last: int, t1: int, t2: int)
    requires Accepts(last, t1) && t2 - t1 < ThrottleMs
    ensures AcceptedTimes(last, [t1, t2]) == [t1]
  {
    assert [t1, t2][1..] == [t2];
    assert [t2][1..] == [];
  }

  /** The listener's refs and the host's frame scheduler. */
  class Sampler {
    var lastUpdate: int      // lastUpdate.current, ms
    var rafRef: nat          // rafRef.current: id of the latest frame request
    var nextFrameId: nat     // the id the host's requestAnimationFrame returns next
    var scheduled: set<nat>  // frame requests neither run nor cancelled
    var progress: real       // scrollState.progress

    /** At most one update is ever pending, and it is the latest request. */
    ghost predicate Valid()
      reads this
    {
      scheduled <= {rafRef} && rafRef < nextFrameId && 0.0 <= progress <= 1.0
    }

    /** Mounting: the refs start at 0, the shared progress at 0, and the
        listener runs once straight away. */
    constructor (now: int)
      ensures Valid()
      ensures progress == 0.0
      ensures lastUpdate == (if Accepts(0, now) then now else 0)
      ensures scheduled == (if Accepts(0, now) then {rafRef} else {})
    {
      lastUpdate, rafRef, nextFrameId := 0, 0, 1;
      scheduled, progress := {}, 0.0;
      new;
      var _ := HandleScroll(now);
    }

    /** handleScroll: drop the event if it is too soon after the last
        accepted one; otherwise record its time, cancel the pending frame
        request and issue a new one. */
    method HandleScroll(now: int) returns (accepted: bool)
      requires Valid()
      modifies this
      ensures Valid()
      ensures accepted == Accepts(old(lastUpdate), now)
      ensures !accepted ==> lastUpdate == old(lastUpdate) && rafRef == old(rafRef) &&
                            nextFrameId == old(nextFrameId) && scheduled == old(scheduled)
      ensures accepted ==> lastUpdate == now && rafRef == old(nextFrameId) &&
                           nextFrameId == old(nextFrameId) + 1 && scheduled == {rafRef}
      ensures progress == old(progress)
    {
      if now - lastUpdate < ThrottleMs {
        return false;
      }
      lastUpdate := now;
      scheduled := scheduled - {rafRef};          // cancelAnimationFrame(rafRef.current)
      rafRef, nextFrameId := nextFrameId, nextFrameId + 1;
      scheduled := scheduled + {rafRef};          // requestAnimationFrame(updateScroll)
      accepted := true;
    }

    /** The host runs a scheduled frame request: updateScroll samples the
        scroll geometry of that moment. */
    method RunFrame(id: nat, scrollY: real, scrollHeight: real, innerHeight: real)
      requires Valid() && id in scheduled
      modifies this
      ensures Valid()
      ensures progress == Progress(scrollY, scrollHeight, innerHeight)
      ensures scheduled == {} && id == rafRef
      ensures lastUpdate == old(lastUpdate) && rafRef == old(rafRef) && nextFrameId == old(nextFrameId)
    {
      progress := Progress(scrollY, scrollHeight, innerHeight);
      scheduled := scheduled - {id};
    }

    /** Unmounting cancels the pending frame request. */
    method Unmount()
      requires Valid()
      modifies this
      ensures Valid()
      ensures scheduled == {}
      ensures lastUpdate == old(lastUpdate) && rafRef == old(rafRef) &&
              nextFrameId == old(nextFrameId) && progress == old(progress)
    {
      scheduled := scheduled - {rafRef};
    }
  }
}
