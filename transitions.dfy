/**
 * The hotkey-driven recording loop of `record()` as a transition system over
 * values. The recognizer is an oracle, the audio queue a sequence of blocks,
 * and a key press is one atomic step taken between two loop iterations.
 */
module Transitions {
  import opened Wrappers
  import opened Text

  newtype byte = x: int | 0 <= x < 256

  /** One block of raw 16-bit PCM, as the audio callback queues it (`bytes(indata)`). */
  type Block = seq<byte>

  /**
   * The speech recognizer seen from outside. Each answer depends only on the
   * audio fed to it since it was created or last reset (`heard`):
   * `accepts` is what `AcceptWaveform` returns once the newest block is fed,
   * and `result`, `partial` and `final` are the opaque strings that
   * `Result()`, `PartialResult()` and `FinalResult()` return.
   */
  datatype Engine = Engine(
    accepts: seq<Block> -> bool,
    result: seq<Block> -> string,
    partial: seq<Block> -> string,
    final: seq<Block> -> string)

  /** The one result a recording iteration appends after feeding the last block of `heard`. */
  function Answer(e: Engine, heard: seq<Block>): (r: string)
    ensures e.accepts(heard) ==> r == e.result(heard)
    ensures !e.accepts(heard) ==> r == e.partial(heard)
  {
    if e.accepts(heard) then e.result(heard) else e.partial(heard)
  }

  /** The results the recognizer gives, block by block, while it is fed `heard`. */
  function Answers(e: Engine, heard: seq<Block>): (r: seq<string>)
    ensures |r| == |heard|
    ensures forall i :: 0 <= i < |heard| ==> r[i] == Answer(e, heard[..i + 1])
    decreases |heard|
  {
    if heard == [] then []
    else
      var before := heard[..|heard| - 1];
      var r := Answers(e, before) + [Answer(e, heard)];
      assert forall i :: 0 <= i < |heard| ==> r[i] == Answer(e, heard[..i + 1]) by {
        forall i | 0 <= i < |heard| ensures r[i] == Answer(e, heard[..i + 1]) {
          if i < |before| {
            assert before[..i + 1] == heard[..i + 1];
          } else {
            assert heard[..i + 1] == heard;
          }
        }
      }
      r
  }

  /** A key event: a key with a character, or one without (`key.char` raises `AttributeError`). */
  datatype Key = Char(ch: char) | NoChar

  /** The variables of `record()` that the loop and the key handler share. */
  datatype Loop = Loop(
    recording: bool,
    prevRecording: bool,
    breakLoop: bool,
    listening: bool,              // the key listener has not been stopped
    queue: seq<Block>,            // the FIFO audio queue `q`, oldest first
    fullResult: seq<string>,      // the global list `full_result`
    heard: seq<Block>,            // the recognizer's audio since it was created or reset
    dumped: Option<seq<Block>>)   // what was written to the dump file, when one is open

  /** The state just before the loop starts: a fresh recognizer and nothing recorded. */
  function Initial(dumping: bool): (s: Loop)
    ensures !s.recording && !s.prevRecording && !s.breakLoop && s.listening
    ensures s.queue == [] && s.fullResult == [] && s.heard == []
    ensures s.dumped.Some? <==> dumping
    ensures s.dumped.Some? ==> s.dumped.value == []
  {
    Loop(false, false, false, true, [], [], [], if dumping then Some([]) else None)
  }

  /** The audio callback's `q.put(...)`: the block joins the back of the queue. */
  function Put(s: Loop, block: Block): (r: Loop)
    ensures |r.queue| == |s.queue| + 1
    ensures r.queue[..|s.queue|] == s.queue && r.queue[|s.queue|] == block
    ensures r.(queue := s.queue) == s
  {
    s.(queue := s.queue + [block])
  }

  /**
   * `on_press(key)`: the new state, and whether the listener keeps running
   * (the handler returns `False` only for `q`).
   */
  function Press(s: Loop, key: Key): (r: (Loop, bool))
    requires s.listening
    ensures r.0.recording == (s.recording != (key == Char('s')))
    ensures r.0.breakLoop == (s.breakLoop || key == Char('q'))
    ensures r.1 == (key != Char('q')) && r.0.listening == r.1
    ensures r.0.(recording := s.recording, breakLoop := s.breakLoop, listening := true) == s
  {
    match key
    case Char(c) =>
      if c == 's' then (s.(recording := !s.recording), true)
      else if c == 'q' then (s.(breakLoop := true, listening := false), false)
      else (s, true)
    case NoChar => (s, true)
  }

  /** What one evaluation of `while not break_loop:` and its body did. */
  datatype Outcome =
    | Exited                               // `break_loop` was set: the loop ends
    | Waiting                              // recording, but the queue has no block yet
    | Consumed(block: Block, answer: string)
    | Flushed(transcription: string)
    | Slept

  /** One evaluation of the loop condition and, unless it fails, one iteration of the body. */
  function Iterate(e: Engine, s: Loop): (r: (Loop, Outcome))
    // the loop ends once `break_loop` is set, changing nothing
    ensures s.breakLoop <==> r.1 == Exited
    ensures s.breakLoop ==> r.0 == s
    // the key handler's flags are never written by the loop
    ensures r.0.recording == s.recording && r.0.breakLoop == s.breakLoop
    ensures r.0.listening == s.listening
    // every iteration that runs ends with `prev_recording = recording`
    ensures r.1 != Exited && r.1 != Waiting ==> r.0.prevRecording == s.recording
    // a recording iteration takes the oldest block and appends exactly one result for it
    ensures r.1.Consumed? <==> !s.breakLoop && s.recording && s.queue != []
    ensures r.1 == Waiting <==> !s.breakLoop && s.recording && s.queue == []
    ensures r.1.Consumed? ==>
      [r.1.block] + r.0.queue == s.queue &&
      r.0.heard == s.heard + [r.1.block] &&
      r.0.fullResult == s.fullResult + [r.1.answer] &&
      (r.1.answer == if e.accepts(r.0.heard) then e.result(r.0.heard) else e.partial(r.0.heard)) &&
      r.0.dumped == (if s.dumped.Some? then Some(s.dumped.value + [r.1.block]) else None)
    // the falling edge appends one final result, joins, empties the list and resets the recognizer
    ensures r.1.Flushed? <==> !s.breakLoop && !s.recording && s.prevRecording
    ensures r.1.Flushed? ==>
      r.1.transcription == Join(" ", s.fullResult + [e.final(s.heard)]) &&
      r.0.fullResult == [] && r.0.heard == [] &&
      r.0.queue == s.queue && r.0.dumped == s.dumped
    // waiting for audio and idling leave the queue, the results and the recognizer alone
    ensures r.1 == Waiting ==> r.0 == s
    ensures r.1 == Slept ==> r.0 == s.(prevRecording := false)
  {
    if s.breakLoop then (s, Exited)
    else if s.recording then
      if s.queue == [] then (s, Waiting)
      else
        var data := s.queue[0];
        var heard := s.heard + [data];
        var answer := Answer(e, heard);
        var dumped := if s.dumped.Some? then Some(s.dumped.value + [data]) else None;
        (s.(queue := s.queue[1..], heard := heard, fullResult := s.fullResult + [answer],
            dumped := dumped, prevRecording := s.recording),
         Consumed(data, answer))
    else if s.prevRecording then
      var transcription := Join(" ", s.fullResult + [e.final(s.heard)]);
      (s.(fullResult := [], heard := [], prevRecording := s.recording), Flushed(transcription))
    else
      (s.(prevRecording := s.recording), Slept)
  }

  /**
   * The invariant of every state the loop reaches: `full_result` holds one
   * recognizer answer per block fed since the last reset, in feeding order
   * (partial results are appended, never replaced), and it is non-empty
   * exactly when the previous iteration was recording.
   */
  ghost predicate Coherent(e: Engine, s: Loop)
  {
    s.fullResult == Answers(e, s.heard) &&
    (s.prevRecording <==> s.heard != [])
  }

  lemma InitialCoherent(e: Engine, dumping: bool)
    ensures Coherent(e, Initial(dumping))
  {
  }

  lemma IterateCoherent(e: Engine, s: Loop)
    requires Coherent(e, s)
    ensures Coherent(e, Iterate(e, s).0)
  {
  }

  lemma PressCoherent(e: Engine, s: Loop, key: Key)
    requires s.listening && Coherent(e, s)
    ensures Coherent(e, Press(s, key).0)
  {
  }

  lemma PutCoherent(e: Engine, s: Loop, block: Block)
    requires Coherent(e, s)
    ensures Coherent(e, Put(s, block))
  {
  }

  /**
   * In a coherent state the transcription printed on a falling edge is the
   * space-join of one answer per block fed in the session, then one space
   * and the single final result; at least one block was fed.
   */
  lemma FlushTranscript(e: Engine, s: Loop)
    requires Coherent(e, s) && Iterate(e, s).1.Flushed?
    ensures s.heard != []
    ensures Iterate(e, s).1.transcription == Join(" ", Answers(e, s.heard) + [e.final(s.heard)])
    ensures Iterate(e, s).1.transcription == Join(" ", Answers(e, s.heard)) + " " + e.final(s.heard)
  {
    JoinSnoc(" ", Answers(e, s.heard), e.final(s.heard));
  }

  /** Two presses of `s` give back the original state. */
  lemma PressTwiceRestores(s: Loop)
    requires s.listening
    ensures Press(Press(s, Char('s')).0, Char('s')).0 == s
  {
  }

  /** A flush empties the session, so the iteration after it cannot flush again. */
  lemma NoSecondFlush(e: Engine, s: Loop)
    requires Iterate(e, s).1.Flushed?
    ensures Iterate(e, Iterate(e, s).0).1 == Slept
  {
  }

  /**
   * `q` pressed while recording ends the loop at its next check without the
   * final flush: the results stay in `full_result` and the recognizer is not reset.
   */
  lemma QuitSkipsFlush(e: Engine, s: Loop)
    requires s.listening && s.recording
    ensures var t := Press(s, Char('q')).0;
      Iterate(e, t) == (t, Exited) && t.fullResult == s.fullResult && t.heard == s.heard
  {
  }
}
