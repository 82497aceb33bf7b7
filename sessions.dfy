/**
 * Runs of the recording loop: key presses, audio blocks and loop iterations
 * interleaved in one schedule, and what holds over any such run.
 */
module Sessions {
  import opened Wrappers
  import opened Text
  import opened Transitions

  /** One thing that happens between two loop iterations, or one iteration itself. */
  datatype Event = KeyPress(key: Key) | Audio(block: Block) | Tick

  /**
   * The effect of one event. Once the listener has stopped (after `q`) a
   * key press no longer reaches the handler.
   */
  function Fire(e: Engine, s: Loop, ev: Event): (r: (Loop, seq<Outcome>))
    ensures ev.Tick? ==> r == (Iterate(e, s).0, [Iterate(e, s).1])
    ensures !ev.Tick? ==> r.1 == [] && r.0.fullResult == s.fullResult && r.0.heard == s.heard
    ensures ev.Audio? ==> r.0 == Put(s, ev.block)
    ensures ev.KeyPress? && s.listening ==> r.0 == Press(s, ev.key).0
    ensures ev.KeyPress? && !s.listening ==> r.0 == s
  {
    match ev
    case KeyPress(key) => (if s.listening then Press(s, key).0 else s, [])
    case Audio(block) => (Put(s, block), [])
    case Tick => var (t, out) := Iterate(e, s); (t, [out])
  }

  /** How many loop iterations a schedule holds. */
  function TickCount(evs: seq<Event>): nat
    decreases |evs|
  {
    if evs == [] then 0 else (if evs[0].Tick? then 1 else 0) + TickCount(evs[1..])
  }

  /** The final state of a schedule and the outcomes of its iterations, in order. */
  function Run(e: Engine, s: Loop, evs: seq<Event>): (r: (Loop, seq<Outcome>))
    ensures |r.1| == TickCount(evs)
    ensures s.breakLoop ==> r.0.breakLoop && forall i :: 0 <= i < |r.1| ==> r.1[i] == Exited
    decreases |evs|
  {
    if evs == [] then (s, [])
    else
      var (t, outs) := Fire(e, s, evs[0]);
      var (u, rest) := Run(e, t, evs[1..]);
      (u, outs + rest)
  }

  /** The blocks the audio callback queued during a schedule. */
  function Arrivals(evs: seq<Event>): seq<Block>
    decreases |evs|
  {
    if evs == [] then []
    else ArrivalOf(evs[0]) + Arrivals(evs[1..])
  }

  /** The blocks the loop took from the queue, in the order it took them. */
  function Taken(outs: seq<Outcome>): seq<Block>
    decreases |outs|
  {
    if outs == [] then []
    else (if outs[0].Consumed? then [outs[0].block] else []) + Taken(outs[1..])
  }

  /** How many iterations flushed a transcription. */
  function Flushes(outs: seq<Outcome>): nat
    decreases |outs|
  {
    if outs == [] then 0 else (if outs[0].Flushed? then 1 else 0) + Flushes(outs[1..])
  }

  /** How many times `s` was pressed. */
  function StartStopPresses(evs: seq<Event>): nat
    decreases |evs|
  {
    if evs == [] then 0 else (if evs[0] == KeyPress(Char('s')) then 1 else 0) + StartStopPresses(evs[1..])
  }

  /** How many presses of `s` reached the handler while recording: the presses that stop a recording. */
  function Stops(e: Engine, s: Loop, evs: seq<Event>): (n: nat)
    ensures n <= StartStopPresses(evs)
    decreases |evs|
  {
    if evs == [] then 0
    else
      (if evs[0] == KeyPress(Char('s')) && s.listening && s.recording then 1 else 0)
      + Stops(e, Fire(e, s, evs[0]).0, evs[1..])
  }

  /** Whether a falling edge is waiting for the next iteration to flush it. */
  function Pending(s: Loop): nat
  {
    if s.prevRecording && !s.recording then 1 else 0
  }

  /** A schedule of `n` loop iterations and nothing else. */
  function Ticks(n: nat): (evs: seq<Event>)
    ensures |evs| == n && forall i :: 0 <= i < n ==> evs[i] == Tick
  {
    seq(n, _ => Tick)
  }

  lemma {:induction false} TakenAppend(a: seq<Outcome>, b: seq<Outcome>)
    ensures Taken(a + b) == Taken(a) + Taken(b)
    decreases |a|
  {
    if a != [] {
      var head: seq<Block> := if a[0].Consumed? then [a[0].block] else [];
      assert (a + b)[0] == a[0];
      assert (a + b)[1..] == a[1..] + b;
      TakenAppend(a[1..], b);
      calc {
        Taken(a + b);
        head + Taken(a[1..] + b);
        head + (Taken(a[1..]) + Taken(b));
        (head + Taken(a[1..])) + Taken(b);
        Taken(a) + Taken(b);
      }
    } else {
      assert a + b == b;
    }
  }

  lemma {:induction false} FlushesAppend(a: seq<Outcome>, b: seq<Outcome>)
    ensures Flushes(a + b) == Flushes(a) + Flushes(b)
    decreases |a|
  {
    if a != [] {
      assert (a + b)[0] == a[0];
      assert (a + b)[1..] == a[1..] + b;
      FlushesAppend(a[1..], b);
    } else {
      assert a + b == b;
    }
  }

  /** Running two schedules one after the other is running their concatenation. */
  lemma {:induction false} RunAppend(e: Engine, s: Loop, a: seq<Event>, b: seq<Event>)
    ensures var (t, outsA) := Run(e, s, a);
      var (u, outsB) := Run(e, t, b);
      Run(e, s, a + b) == (u, outsA + outsB)
    decreases |a|
  {
    if a != [] {
      assert (a + b)[0] == a[0];
      assert (a + b)[1..] == a[1..] + b;
      var (t1, outs1) := Fire(e, s, a[0]);
      RunAppend(e, t1, a[1..], b);
      var (t2, outs2) := Run(e, t1, a[1..]);
      var (u, outsB) := Run(e, t2, b);
      assert Run(e, s, a) == (t2, outs1 + outs2);
      assert Run(e, s, a + b) == (u, outs1 + (outs2 + outsB));
      assert outs1 + (outs2 + outsB) == (outs1 + outs2) + outsB;
    } else {
      assert a + b == b;
      var outsB := Run(e, s, b).1;
      assert [] + outsB == outsB;
    }
  }

  lemma FireCoherent(e: Engine, s: Loop, ev: Event)
    requires Coherent(e, s)
    ensures Coherent(e, Fire(e, s, ev).0)
  {
  }

  /** Every state a run reaches from a coherent state is coherent. */
  lemma {:induction false} RunCoherent(e: Engine, s: Loop, evs: seq<Event>)
    requires Coherent(e, s)
    ensures Coherent(e, Run(e, s, evs).0)
    decreases |evs|
  {
    if evs != [] {
      FireCoherent(e, s, evs[0]);
      RunCoherent(e, Fire(e, s, evs[0]).0, evs[1..]);
    }
  }

  /** The blocks one event queues. */
  function ArrivalOf(ev: Event): seq<Block>
  {
    if ev.Audio? then [ev.block] else []
  }

  lemma Regroup<T>(a: seq<T>, b: seq<T>, c: seq<T>)
    ensures a + (b + c) == (a + b) + c
  {
  }

  lemma FireFifo(e: Engine, s: Loop, ev: Event)
    ensures var (t, outs) := Fire(e, s, ev);
      s.queue + ArrivalOf(ev) == Taken(outs) + t.queue
  {
  }

  /**
   * The queue is first-in first-out and loses nothing: what was queued at the
   * start, followed by what arrived, is exactly what the loop took, in order,
   * followed by what is still queued.
   */
  lemma {:induction false} RunFifo(e: Engine, s: Loop, evs: seq<Event>)
    ensures var (t, outs) := Run(e, s, evs);
      s.queue + Arrivals(evs) == Taken(outs) + t.queue
    decreases |evs|
  {
    if evs == [] {
      assert s.queue + [] == [] + s.queue;
    } else {
      var (t1, outs1) := Fire(e, s, evs[0]);
      var (u, rest) := Run(e, t1, evs[1..]);
      FireFifo(e, s, evs[0]);
      RunFifo(e, t1, evs[1..]);
      TakenAppend(outs1, rest);
      var head, later := Taken(outs1), Arrivals(evs[1..]);
      Regroup(s.queue, ArrivalOf(evs[0]), later);
      Regroup(head, t1.queue, later);
      Regroup(head, Taken(rest), u.queue);
    }
  }

  lemma FireDump(e: Engine, s: Loop, ev: Event)
    ensures var (t, outs) := Fire(e, s, ev);
      t.dumped == (if s.dumped.Some? then Some(s.dumped.value + Taken(outs)) else None)
  {
    var (t, outs) := Fire(e, s, ev);
    if ev.Tick? {
      var out := Iterate(e, s).1;
      assert outs == [out];
      assert outs[1..] == [];
      if out.Consumed? {
        assert Taken(outs) == [out.block];
      } else {
        assert Taken(outs) == [];
        assert s.dumped.Some? ==> s.dumped.value + [] == s.dumped.value;
      }
    } else {
      assert Taken(outs) == [];
      assert s.dumped.Some? ==> s.dumped.value + [] == s.dumped.value;
    }
  }

  /**
   * The dump file receives exactly the blocks the loop took, in the order it
   * took them; without a dump file nothing is written.
   */
  lemma {:induction false} RunDump(e: Engine, s: Loop, evs: seq<Event>)
    ensures var (t, outs) := Run(e, s, evs);
      t.dumped == (if s.dumped.Some? then Some(s.dumped.value + Taken(outs)) else None)
    decreases |evs|
  {
    if evs == [] {
      assert s.dumped.Some? ==> s.dumped.value + [] == s.dumped.value;
    } else {
      var (t1, outs1) := Fire(e, s, evs[0]);
      var (u, rest) := Run(e, t1, evs[1..]);
      FireDump(e, s, evs[0]);
      RunDump(e, t1, evs[1..]);
      TakenAppend(outs1, rest);
      if s.dumped.Some? {
        Regroup(s.dumped.value, Taken(outs1), Taken(rest));
      }
    }
  }

  /**
   * The flush fires at most once per stop: over any run, the flushes and the
   * falling edge still pending at the end never outnumber the presses of `s`
   * that stopped a recording and the falling edge pending at the start.
   */
  lemma {:induction false} RunFlushBound(e: Engine, s: Loop, evs: seq<Event>)
    ensures var (t, outs) := Run(e, s, evs);
      Flushes(outs) + Pending(t) <= Stops(e, s, evs) + Pending(s)
    decreases |evs|
  {
    if evs != [] {
      var (t1, outs1) := Fire(e, s, evs[0]);
      var (u, rest) := Run(e, t1, evs[1..]);
      RunFlushBound(e, t1, evs[1..]);
      FlushesAppend(outs1, rest);
      if evs[0].Tick? {
        var out := Iterate(e, s).1;
        assert Flushes(outs1) == if out.Flushed? then 1 else 0;
      }
    }
  }

  lemma {:induction false} IdleTakesNothing(e: Engine, s: Loop, evs: seq<Event>)
    requires !s.recording && StartStopPresses(evs) == 0
    ensures Taken(Run(e, s, evs).1) == [] && !Run(e, s, evs).0.recording
    decreases |evs|
  {
    if evs != [] {
      var (t1, outs1) := Fire(e, s, evs[0]);
      var (u, rest) := Run(e, t1, evs[1..]);
      IdleTakesNothing(e, t1, evs[1..]);
      TakenAppend(outs1, rest);
      if evs[0].Tick? {
        assert outs1 == [Iterate(e, s).1];
        assert outs1[1..] == [];
      }
      assert Taken(outs1) == [];
    }
  }

  /**
   * Audio queued while idle is kept: with recording off and `s` never
   * pressed, nothing is taken and every block that arrives stays queued, in order.
   */
  lemma IdleKeepsAudio(e: Engine, s: Loop, evs: seq<Event>)
    requires !s.recording && StartStopPresses(evs) == 0
    ensures var (t, outs) := Run(e, s, evs);
      Taken(outs) == [] && t.queue == s.queue + Arrivals(evs) && !t.recording
  {
    IdleTakesNothing(e, s, evs);
    RunFifo(e, s, evs);
    assert [] + Run(e, s, evs).0.queue == Run(e, s, evs).0.queue;
  }

  lemma RunOne(e: Engine, s: Loop, ev: Event)
    ensures Run(e, s, [ev]) == Fire(e, s, ev)
  {
    assert [ev][1..] == [];
    var outs := Fire(e, s, ev).1;
    assert outs + [] == outs;
  }

  /** One iteration while recording with a block queued feeds exactly the oldest block. */
  lemma RecordingTick(e: Engine, s: Loop)
    requires s.recording && !s.breakLoop && s.queue != []
    ensures var t := Iterate(e, s).0;
      t.heard == s.heard + s.queue[..1] && t.queue == s.queue[1..] &&
      t.dumped == (if s.dumped.Some? then Some(s.dumped.value + s.queue[..1]) else None) &&
      t.recording && !t.breakLoop && t.listening == s.listening && t.prevRecording &&
      !Iterate(e, s).1.Flushed?
  {
  }

  /**
   * `n` iterations while recording, with at least `n` blocks queued, feed the
   * oldest `n` blocks to the recognizer, write them to the dump file and
   * flush nothing.
   */
  lemma {:induction false} RecordingTicks(e: Engine, s: Loop, n: nat)
    requires s.recording && !s.breakLoop && n <= |s.queue|
    ensures var (t, outs) := Run(e, s, Ticks(n));
      t.heard == s.heard + s.queue[..n] && t.queue == s.queue[n..] &&
      t.dumped == (if s.dumped.Some? then Some(s.dumped.value + s.queue[..n]) else None) &&
      t.recording && !t.breakLoop && t.listening == s.listening &&
      t.prevRecording == (n > 0 || s.prevRecording) &&
      |outs| == n && Flushes(outs) == 0
    decreases n
  {
    if n == 0 {
      assert s.queue[..0] == [];
      assert s.heard + [] == s.heard;
      assert s.dumped.Some? ==> s.dumped.value + [] == s.dumped.value;
    } else {
      var (t1, out1) := Iterate(e, s);
      RecordingTick(e, s);
      assert Ticks(n)[0] == Tick;
      assert Ticks(n)[1..] == Ticks(n - 1);
      assert Fire(e, s, Tick) == (t1, [out1]);
      RecordingTicks(e, t1, n - 1);
      var (u, rest) := Run(e, t1, Ticks(n - 1));
      assert Run(e, s, Ticks(n)) == (u, [out1] + rest);
      assert ([out1] + rest)[1..] == rest;
      assert s.queue[..1] + t1.queue[..n - 1] == s.queue[..n];
      Regroup(s.heard, s.queue[..1], t1.queue[..n - 1]);
      if s.dumped.Some? {
        Regroup(s.dumped.value, s.queue[..1], t1.queue[..n - 1]);
      }
    }
  }

  /**
   * Pressing `s` while recording and running one iteration flushes exactly
   * when the previous iteration recorded: the transcription is one answer per
   * block heard and the final result, and the list and recognizer are emptied.
   */
  lemma StopRecording(e: Engine, s: Loop)
    requires Coherent(e, s) && s.recording && !s.breakLoop && s.listening
    ensures var (t, outs) := Run(e, s, [KeyPress(Char('s')), Tick]);
      outs == [if s.heard == [] then Slept else Flushed(Join(" ", Answers(e, s.heard) + [e.final(s.heard)]))] &&
      t.fullResult == [] && t.heard == [] && t.queue == s.queue && t.dumped == s.dumped &&
      !t.recording && !t.prevRecording && !t.breakLoop
  {
  }

  /**
   * One whole session from a settled idle state: press `s`, run `n`
   * iterations, press `s` again, run one more iteration. The first `n` queued
   * blocks are fed and dumped; the last iteration prints the space-join of
   * one answer per block and the final result, exactly when at least one
   * block was fed; the session leaves the list empty and the recognizer reset.
   */
  lemma {:induction false} Session(e: Engine, s: Loop, n: nat)
    requires Coherent(e, s)
    requires !s.recording && !s.prevRecording && !s.breakLoop && s.listening
    requires n <= |s.queue|
    ensures var (t, outs) := Run(e, s, [KeyPress(Char('s'))] + Ticks(n) + [KeyPress(Char('s')), Tick]);
      var fed := s.queue[..n];
      |outs| == n + 1 &&
      outs[n] == (if n == 0 then Slept else Flushed(Join(" ", Answers(e, fed) + [e.final(fed)]))) &&
      Flushes(outs) == (if n == 0 then 0 else 1) &&
      t.fullResult == [] && t.heard == [] && t.queue == s.queue[n..] &&
      !t.recording && !t.prevRecording && !t.breakLoop &&
      t.dumped == (if s.dumped.Some? then Some(s.dumped.value + fed) else None)
  {
    var start := [KeyPress(Char('s'))];
    var stop := [KeyPress(Char('s')), Tick];
    var s1 := Press(s, Char('s')).0;
    RunOne(e, s, KeyPress(Char('s')));
    PressCoherent(e, s, Char('s'));
    RecordingTicks(e, s1, n);
    RunCoherent(e, s1, Ticks(n));
    var (s2, outs2) := Run(e, s1, Ticks(n));
    assert s2.heard == s.queue[..n];
    StopRecording(e, s2);
    var (t, outs3) := Run(e, s2, stop);
    RunAppend(e, s, start, Ticks(n));
    RunAppend(e, s, start + Ticks(n), stop);
    assert Run(e, s, start + Ticks(n) + stop) == (t, [] + outs2 + outs3);
    assert [] + outs2 + outs3 == outs2 + outs3;
    FlushesAppend(outs2, outs3);
    assert Flushes(outs3) == (if n == 0 then 0 else 1);
  }
}
