/** `relayoutWires`: the single-flight scheduler that lays out both columns
    on the next animation frame. The browser's frame queue is part of the
    state: `requestAnimationFrame` hands out increasing non-zero ids and
    `cancelAnimationFrame` withdraws one. */
module Scheduler {

  import opened Surface

  /** The variable `raf`, the ids whose callbacks are still queued, the
      last id handed out, and the `layoutStation` passes run so far. */
  datatype Frames = Frames(raf: nat, pending: set<nat>, lastId: nat, passes: seq<Side>)

  /** No frame pending and `raf == 0`, as at page load. */
  const Start: Frames := Frames(0, {}, 0, [])

  /** The scheduler's invariant: at most one frame is queued, and `raf`
      names it (or is 0 when none is). */
  predicate Coalesced(f: Frames) {
    && (f.raf == 0 ==> f.pending == {})
    && (f.raf != 0 ==> f.pending == {f.raf})
    && f.raf <= f.lastId
  }

  /** One run of the frame callback: `layoutStation("left")`, then
      `layoutStation("right")`; `n` runs in a row. */
  function Passes(n: nat): (r: seq<Side>)
    ensures |r| == 2 * n
  {
    if n == 0 then [] else Passes(n - 1) + [Left, Right]
  }

  /** The passes alternate: left at every even position, right at every
      odd one, so each run lays out the left column and then the right. */
  lemma {:induction false} PassesAlternate(n: nat, i: nat)
    requires i < 2 * n
    ensures Passes(n)[i] == if i % 2 == 0 then Left else Right
  {
    if i < 2 * (n - 1) {
      PassesAlternate(n - 1, i);
      assert Passes(n)[i] == Passes(n - 1)[i];
    }
  }

  /** `relayoutWires()`: cancel the frame `raf` names, if any, and request a
      fresh one, whose id becomes `raf`. */
  function Trigger(f: Frames): (g: Frames)
    ensures g.raf != 0 && g.raf in g.pending && g.raf > f.lastId
    ensures f.raf != 0 && f.raf != g.raf ==> f.raf !in g.pending
    ensures g.passes == f.passes
  {
    var kept := if f.raf != 0 then f.pending - {f.raf} else f.pending;
    var id := f.lastId + 1;
    Frames(id, kept + {id}, id, f.passes)
  }

  /** An animation frame: every queued callback runs once, each laying out
      both columns and resetting `raf` to 0. */
  function Fire(f: Frames): (g: Frames)
    ensures g.pending == {} && g.lastId == f.lastId
    ensures f.pending != {} ==> g.raf == 0
    ensures g.passes == f.passes + Passes(|f.pending|)
  {
    Frames(if f.pending == {} then f.raf else 0, {}, f.lastId, f.passes + Passes(|f.pending|))
  }

  lemma TriggerCoalesced(f: Frames)
    requires Coalesced(f)
    ensures Coalesced(Trigger(f))
  {
    var g := Trigger(f);
    assert g.pending == {g.raf};
  }

  lemma FireCoalesced(f: Frames)
    requires Coalesced(f)
    ensures Coalesced(Fire(f))
    ensures |Fire(f).passes| <= |f.passes| + 2
  {
    if f.raf != 0 {
      assert |f.pending| == 1;
    }
  }

  /** `n` calls of `relayoutWires` in a row. */
  function Triggers(f: Frames, n: nat): Frames {
    if n == 0 then f else Trigger(Triggers(f, n - 1))
  }

  /** However many times `relayoutWires` is called before a frame, exactly
      one frame is queued and no layout has run yet. */
  lemma {:induction false} TriggersCoalesce(f: Frames, n: nat)
    requires Coalesced(f) && n >= 1
    ensures var g := Triggers(f, n);
      Coalesced(g) && g.raf != 0 && g.pending == {g.raf} && g.passes == f.passes
  {
    if n == 1 {
      TriggerCoalesced(f);
    } else {
      TriggersCoalesce(f, n - 1);
      TriggerCoalesced(Triggers(f, n - 1));
    }
  }

  /** A burst of `relayoutWires` calls followed by a frame lays out each
      column exactly once, left then right, and leaves `raf` at 0. */
  lemma BurstRunsOnce(f: Frames, n: nat)
    requires Coalesced(f) && n >= 1
    ensures var g := Fire(Triggers(f, n));
      g.passes == f.passes + [Left, Right] && g.raf == 0 && g.pending == {} && Coalesced(g)
  {
    TriggersCoalesce(f, n);
    var g := Triggers(f, n);
    assert |g.pending| == 1;
    assert Passes(1) == [Left, Right];
  }

  /** A frame with nothing queued changes nothing. */
  lemma IdleFrame(f: Frames)
    requires Coalesced(f) && f.raf == 0
    ensures Fire(f) == f
  {
  }

  /** What can happen: a `relayoutWires` call (page load, a resize) or an
      animation frame. */
  datatype Event = Relayout | AnimationFrame

  function Step(f: Frames, e: Event): Frames {
    match e
    case Relayout => Trigger(f)
    case AnimationFrame => Fire(f)
  }

  function Run(f: Frames, events: seq<Event>): Frames
    decreases |events|
  {
    if events == [] then f else Run(Step(f, events[0]), events[1..])
  }

  function CountFrames(events: seq<Event>): nat
    decreases |events|
  {
    if events == [] then 0 else (if events[0] == AnimationFrame then 1 else 0) + CountFrames(events[1..])
  }

  lemma {:induction false} PassesAdd(m: nat, n: nat)
    ensures Passes(m) + Passes(n) == Passes(m + n)
    decreases n
  {
    if n == 0 {
      assert Passes(m) + [] == Passes(m);
    } else {
      PassesAdd(m, n - 1);
      assert Passes(m) + (Passes(n - 1) + [Left, Right]) == (Passes(m) + Passes(n - 1)) + [Left, Right];
    }
  }

  lemma ConcatAssoc(a: seq<Side>, b: seq<Side>, c: seq<Side>)
    ensures (a + b) + c == a + (b + c)
  {
  }

  /** One event keeps the invariant and runs the callback at most once,
      and only if it is a frame. */
  lemma StepCoalesced(f: Frames, e: Event) returns (j: nat)
    requires Coalesced(f)
    ensures Coalesced(Step(f, e))
    ensures j <= (if e == AnimationFrame then 1 else 0)
    ensures Step(f, e).passes == f.passes + Passes(j)
  {
    if e == Relayout {
      TriggerCoalesced(f);
      j := 0;
      assert f.passes + Passes(0) == f.passes;
    } else {
      FireCoalesced(f);
      j := |f.pending|;
      if f.raf != 0 {
        assert f.pending == {f.raf};
      }
    }
  }

  /** Along any sequence of calls and frames the invariant holds, and the
      layout passes come in whole left-then-right pairs, at most one pair
      per frame. */
  lemma {:induction false} RunCoalesced(f: Frames, events: seq<Event>) returns (k: nat)
    requires Coalesced(f)
    ensures Coalesced(Run(f, events))
    ensures k <= CountFrames(events) && Run(f, events).passes == f.passes + Passes(k)
    decreases |events|
  {
    if events == [] {
      k := 0;
      assert f.passes + Passes(0) == f.passes;
    } else {
      var e, rest := events[0], events[1..];
      var g := Step(f, e);
      var j := StepCoalesced(f, e);
      var k' := RunCoalesced(g, rest);
      k := j + k';
      PassesAdd(j, k');
      ConcatAssoc(f.passes, Passes(j), Passes(k'));
    }
  }

  /** The module variable `raf` with the browser's frame queue. */
  class LayoutScheduler {
    var raf: nat
    var pending: set<nat>
    var lastId: nat
    var passes: seq<Side>

    function State(): Frames
      reads this
    {
      Frames(raf, pending, lastId, passes)
    }

    constructor ()
      ensures State() == Start
    {
      raf, pending, lastId, passes := 0, {}, 0, [];
    }

    method RelayoutWires()
      modifies this
      ensures State() == Trigger(old(State()))
    {
      if raf != 0 {
        pending := pending - {raf};
      }
      lastId := lastId + 1;
      pending := pending + {lastId};
      raf := lastId;
    }

    /** The browser runs each queued callback once. */
    method AnimationFrame()
      modifies this
      ensures State() == Fire(old(State()))
    {
      while pending != {}
        invariant pending <= old(pending)
        invariant passes == old(passes) + Passes(|old(pending)| - |pending|)
        invariant raf == if |pending| == |old(pending)| then old(raf) else 0
        invariant lastId == old(lastId)
        decreases |pending|
      {
        var id :| id in pending;
        pending := pending - {id};
        passes := passes + [Left, Right];
        raf := 0;
      }
      assert |pending| == |old(pending)| ==> old(pending) == {} by {
        if |pending| == |old(pending)| {
          assert |old(pending)| == 0;
        }
      }
    }
  }
}
