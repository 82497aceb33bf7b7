/**
 * `record()` as objects: the recognizer it creates once, and the loop state
 * that the main loop and the key handler update in place. Each method is
 * proved against the transition it performs in module Transitions, and
 * keeps the loop's invariant.
 */
module Recording {
  import opened Wrappers
  import opened Text
  import opened Transitions
  import opened Sessions

  /**
   * The `KaldiRecognizer`, created once before the loop. Its answers come from
   * the oracle `engine`, applied to the audio fed since creation or the last reset.
   */
  class Recognizer {
    const engine: Engine
    var heard: seq<Block>

    constructor (engine: Engine)
      ensures this.engine == engine && heard == []
    {
      this.engine := engine;
      heard := [];
    }

    /** Feeds one block; true when the recognizer reports an utterance boundary. */
    method AcceptWaveform(data: Block) returns (complete: bool)
      modifies this
      ensures heard == old(heard) + [data]
      ensures complete == engine.accepts(heard)
    {
      heard := heard + [data];
      complete := engine.accepts(heard);
    }

    /** The text of the utterance just completed; the answer appended after a boundary. */
    function Result(): (r: string)
      reads this
      ensures r == engine.result(heard)
      ensures engine.accepts(heard) ==> r == Answer(engine, heard)
    {
      engine.result(heard)
    }

    /** The tentative text so far; the answer appended when there was no boundary. */
    function PartialResult(): (r: string)
      reads this
      ensures r == engine.partial(heard)
      ensures !engine.accepts(heard) ==> r == Answer(engine, heard)
    {
      engine.partial(heard)
    }

    /** The closing text of the session; the last part of the transcription. */
    function FinalResult(): (r: string)
      reads this
      ensures r == engine.final(heard)
    {
      engine.final(heard)
    }

    /** Forgets all audio fed so far. */
    method Reset()
      modifies this
      ensures heard == []
    {
      heard := [];
    }
  }

  /**
   * The state of `record()` from the moment the loop is set up: the flags
   * the key handler and the loop share, the audio queue, the global
   * `full_result`, the recognizer and the dump file (the blocks written to it,
   * or `None` when no file name was given).
   */
  class Recorder {
    const rec: Recognizer
    var recording: bool
    var prevRecording: bool
    var breakLoop: bool
    var listening: bool
    var queue: seq<Block>
    var fullResult: seq<string>
    var dumpFile: Option<seq<Block>>

    /** The whole state as a value of the transition system. */
    function State(): Loop
      reads this, rec
    {
      Loop(recording, prevRecording, breakLoop, listening, queue, fullResult, rec.heard, dumpFile)
    }

    /** The loop invariant: one recognizer answer per block fed since the last reset. */
    ghost predicate Valid()
      reads this, rec
    {
      Coherent(rec.engine, State())
    }

    /** Sets up the loop: a fresh recognizer, both flags off, the listener started. */
    constructor (engine: Engine, dumping: bool)
      ensures fresh(rec) && rec.engine == engine
      ensures State() == Initial(dumping) && Valid()
    {
      rec := new Recognizer(engine);
      recording, prevRecording, breakLoop, listening := false, false, false, true;
      queue, fullResult := [], [];
      dumpFile := if dumping then Some([]) else None;
    }

    /** The audio callback's `q.put(bytes(indata))`. */
    method Callback(data: Block)
      requires Valid()
      modifies this
      ensures Valid() && State() == Put(old(State()), data)
    {
      queue := queue + [data];
    }

    /** `on_press(key)`; the result is false when the listener must stop. */
    method OnPress(key: Key) returns (keepListening: bool)
      requires Valid() && listening
      modifies this
      ensures Valid() && (State(), keepListening) == Press(old(State()), key)
    {
      PressCoherent(rec.engine, State(), key);
      keepListening := true;
      match key {
        case Char(c) =>
          if c == 's' {
            recording := !recording;
          } else if c == 'q' {
            breakLoop := true;
            listening := false;
            keepListening := false;
          }
        case NoChar =>
      }
    }

    /** One check of `while not break_loop:` and, unless it ends the loop, one pass of its body. */
    method Step() returns (outcome: Outcome)
      requires Valid()
      modifies this, rec
      ensures Valid() && (State(), outcome) == Iterate(rec.engine, old(State()))
    {
      IterateCoherent(rec.engine, State());
      if breakLoop {
        return Exited;
      }
      if recording {
        if queue == [] {
          return Waiting;
        }
        var data := queue[0];
        queue := queue[1..];
        var complete := rec.AcceptWaveform(data);
        var answer := if complete then rec.Result() else rec.PartialResult();
        fullResult := fullResult + [answer];
        if dumpFile.Some? {
          dumpFile := Some(dumpFile.value + [data]);
        }
        outcome := Consumed(data, answer);
      } else if prevRecording {
        fullResult := fullResult + [rec.FinalResult()];
        var transcription := Join(" ", fullResult);
        fullResult := [];
        rec.Reset();
        outcome := Flushed(transcription);
      } else {
        outcome := Slept;
      }
      prevRecording := recording;
    }

    /**
     * Drives the loop through a schedule of key presses, audio blocks and
     * iterations, in order; a key press after the listener stopped is not
     * delivered. Returns the outcome of every iteration.
     */
    method Record(schedule: seq<Event>) returns (outcomes: seq<Outcome>)
      requires Valid()
      modifies this, rec
      ensures Valid() && (State(), outcomes) == Run(rec.engine, old(State()), schedule)
    {
      outcomes := [];
      var i := 0;
      assert schedule[0..] == schedule;
      assert outcomes + Run(rec.engine, State(), schedule).1 == Run(rec.engine, State(), schedule).1;
      while i < |schedule|
        invariant 0 <= i <= |schedule| && Valid()
        invariant Run(rec.engine, old(State()), schedule) ==
          (Run(rec.engine, State(), schedule[i..]).0, outcomes + Run(rec.engine, State(), schedule[i..]).1)
        decreases |schedule| - i
      {
        ghost var before := State();
        ghost var rest := Run(rec.engine, Fire(rec.engine, before, schedule[i]).0, schedule[i + 1..]);
        assert schedule[i..][1..] == schedule[i + 1..];
        assert Run(rec.engine, before, schedule[i..]) ==
          (rest.0, Fire(rec.engine, before, schedule[i]).1 + rest.1);
        var produced: seq<Outcome> := [];
        match schedule[i] {
          case KeyPress(key) =>
            if listening {
              var _ := OnPress(key);
            }
          case Audio(block) =>
            Callback(block);
          case Tick =>
            var outcome := Step();
            produced := [outcome];
        }
        assert (State(), produced) == Fire(rec.engine, before, schedule[i]);
        Regroup(outcomes, produced, rest.1);
        outcomes := outcomes + produced;
        i := i + 1;
      }
      assert schedule[i..] == [];
      assert outcomes + [] == outcomes;
    }
  }
}
