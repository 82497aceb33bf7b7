# Parspeak recording loop, in Dafny

This project models the core of Parspeak's `main.py`: the hotkey-driven recording loop.
Pressing `s` starts and stops recording, and pressing `q` quits. While recording, the loop
takes raw audio blocks from a FIFO queue, feeds them to the Vosk recognizer and collects one
result string per block in the global list `full_result`. When recording stops, the loop adds
the recognizer's final result, prints the space-joined transcription, empties the list and
resets the recognizer. The project also models the command-line helper `int_or_str`.

The model rests on three abstractions:

- The recognizer is an oracle (`Transitions.Engine`). Its answers are total functions of the
  audio it has been fed since it was created or last reset: `AcceptWaveform` returns a bool,
  and `Result`, `PartialResult` and `FinalResult` return opaque strings.
- The audio queue is a sequence of byte blocks. The audio callback's `q.put` is one event.
- A key press is an atomic event between two loop iterations. Once the listener has stopped,
  key presses are no longer delivered.

Modules:

- `Text` models Python's `" ".join`.
- `Args` models `int_or_str` over a simplified `int()`.
- `Transitions` is the loop as a transition system over values:
  - `Press` is `on_press`.
  - `Iterate` is one check of the loop condition plus one pass of the body.
  - `Put` is the audio callback.
  - `Coherent` is the invariant of every reachable state.
- `Sessions` covers runs over interleaved schedules of events and the properties that hold
  across them.
- `Recording` holds the classes `Recognizer` and `Recorder`. Their fields are updated in place,
  as in `record()`. Each method is proved against the matching transition and keeps the
  invariant.

The model follows the code as written, with these consequences:

- Partial results are appended to `full_result`, not replaced (main.py:85).
- Audio queued while idle is not discarded. `q` is not cleared when recording starts, so
  that audio is fed to the recognizer in the next session (`Sessions.IdleKeepsAudio`,
  `Sessions.RunFifo`).
- One recognizer serves every session. It is reset only when recording stops.
- Pressing `q` while recording ends the loop without the final flush
  (`Transitions.QuitSkipsFlush`).
- `main.py` has no audio gain, no noise gate, no minimum recording duration, no configurable
  key combinations, and no clipboard or UI output. The model has none of these either.

## Model

| member | source | states |
|---|---|---|
| `Text.Join` | main.py:92 | `" ".join(parts)`: its length is the parts' total length plus one separator between each pair of neighbours, and it starts with the first part |
| `Text.JoinSnoc` | main.py:91-92 | joining a list after appending an element gives the old join, then the separator, then the element (or just the element for an empty list) |
| `Args.ParseInt` | main.py:24 | `int(text)` succeeds only on a non-empty text that does not end in a sign; every character after the first is a digit; a negative value needs a leading `-` and a leading `-` gives no positive value; a text of digits alone gives their decimal value |
| `Args.IntOrStr` | main.py:21-26 | the result is an integer exactly when `int(text)` succeeds, and then it is that value; otherwise it is `text` unchanged |
| `Args.Digits` | main.py:21-26 | the decimal digits of a natural number are non-empty, all digits, read back as the number, and have no leading zero except for zero itself |
| `Args.ShowIsNumber` | main.py:21-26 | any integer written in decimal, as a numeric device ID is given, comes back from `int_or_str` as that integer |
| `Args.NameIsKept` | main.py:21-26 | a text containing a character that is neither a digit nor a sign, such as a device name, comes back unchanged as text |
| `Args.SignedIsNumber` | main.py:24 | a `+` or `-` followed by one or more digits (leading zeros allowed) gives the digits' value, negated after `-` |
| `Args.EmptyIsName` | main.py:21-26 | the empty text is not a number and comes back as text |
| `Transitions.Answer` | main.py:82-85 | the result appended after feeding a block: `Result()` when `AcceptWaveform` reported a boundary, else `PartialResult()` |
| `Transitions.Answers` | main.py:82-85 | the results for a sequence of fed blocks: one per block, in order; each is `Result()` when `AcceptWaveform` reported a boundary at that block, else `PartialResult()` |
| `Transitions.Initial` | main.py:47-77 | the state once the listener has started (main.py:77): both flags are off, the loop has not been told to quit, the listener runs, the queue, the list and the recognizer's audio are empty, and the dump file is empty exactly when a file name was given. Blocks the stream queues before the loop starts at main.py:79 are `Audio` events at the head of a schedule |
| `Transitions.Put` | main.py:28-32 | the audio callback puts its block at the back of the queue and changes nothing else |
| `Transitions.Press` | main.py:63-74 | `s` flips `recording`; `q` sets `break_loop` and stops the listener (returns False); every other key, and a key without a character, changes nothing and keeps the listener running; the queue, results and recognizer are never touched |
| `Transitions.Iterate` | main.py:79-97 | once `break_loop` is set the loop ends and nothing changes. A recording iteration takes the head block, feeds it, appends exactly one result (`Result()` on a boundary, else `PartialResult()`) and writes the block to the dump file when there is one. A falling edge appends one `FinalResult()`, yields the space-join, empties the list and resets the recognizer. Otherwise only `prev_recording` is updated. Every iteration ends with `prev_recording = recording` |
| `Transitions.InitialCoherent` | main.py:18-61 | the state before the loop (empty `q` and `full_result` at main.py:18-19, flags and a fresh recognizer at main.py:58-61) satisfies the loop invariant |
| `Transitions.IterateCoherent` | main.py:79-97 | one iteration keeps the invariant: `full_result` holds one answer per block fed since the last reset, in order, and is non-empty exactly when the previous iteration recorded |
| `Transitions.PressCoherent` | main.py:63-74 | a key press keeps the invariant |
| `Transitions.PutCoherent` | main.py:28-32 | queuing audio keeps the invariant |
| `Transitions.FlushTranscript` | main.py:89-95 | in a reachable state, the printed transcription is the space-join of one answer per block of the session, then one space and the single final result; at least one block was fed |
| `Transitions.PressTwiceRestores` | main.py:66-67 | two consecutive `s` presses restore the original state |
| `Transitions.NoSecondFlush` | main.py:89-97 | the iteration after a flush cannot flush again: it only sleeps |
| `Transitions.QuitSkipsFlush` | main.py:69-72 | `q` pressed while recording ends the loop at its next check; the session's results stay in the list and the recognizer is not reset |
| `Sessions.Fire` | main.py:28-97 | one event: a loop iteration moves to exactly the state and outcome `Iterate` gives; queued audio is `Put`; a key press reaching the handler performs `Press`; a key press after the listener stopped changes nothing; no event but an iteration touches the list or the recognizer |
| `Sessions.Run` | main.py:28-97 | a schedule of interleaved events yields one outcome per loop iteration in it; once `break_loop` is set, every later iteration only reports that the loop has ended |
| `Sessions.RunAppend` | main.py:79-97 | running two schedules one after the other is the same as running their concatenation |
| `Sessions.RunCoherent` | main.py:79-97 | every state reached from a reachable state, by any interleaving of key presses, audio and iterations, satisfies the invariant |
| `Sessions.RunFifo` | main.py:80-81 | the queue is FIFO and loses nothing: the blocks queued at the start, then the blocks that arrived, equal the blocks taken (in order) followed by the blocks still queued |
| `Sessions.RunDump` | main.py:86-87 | the dump file receives exactly the blocks taken, in the order they were taken; without a dump file nothing is written |
| `Sessions.RunFlushBound` | main.py:89-97 | over any run, the flushes plus a falling edge still pending at the end never exceed the `s` presses that stopped a recording (delivered while recording) plus a falling edge pending at the start: at most one flush per stop |
| `Sessions.IdleKeepsAudio` | main.py:88-96 | with recording off and no `s` pressed, nothing is taken and every block that arrives stays queued, in order |
| `Sessions.RecordingTick` | main.py:80-87 | one recording iteration with audio queued feeds exactly the oldest block, dumps it, sets `prev_recording` and does not flush |
| `Sessions.RecordingTicks` | main.py:80-87 | `n` recording iterations with at least `n` blocks queued feed and dump exactly the oldest `n` blocks, leave the rest queued and flush nothing |
| `Sessions.StopRecording` | main.py:66-67 | pressing `s` between two iterations while recording, then running one iteration, flushes exactly when audio was fed: it yields the space-join of the session's answers and the final result, and leaves the list and the recognizer empty |
| `Sessions.Session` | main.py:79-97 | a whole session from idle (press `s`, `n` iterations, press `s`, one iteration, each press landing between iterations) feeds and dumps the first `n` queued blocks. Its last iteration flushes exactly once, printing one answer per block followed by the final result, exactly when `n > 0`. Afterwards the list and the recognizer are empty |
| `Recording.Recognizer.constructor` | main.py:58 | a new recognizer has heard no audio |
| `Recording.Recognizer.AcceptWaveform` | main.py:82 | feeding a block appends it to the recognizer's audio and returns the oracle's boundary answer for it |
| `Recording.Recognizer.Result` | main.py:83 | the recognizer's text for the audio heard since the last reset; after a boundary it is the answer the loop appends |
| `Recording.Recognizer.PartialResult` | main.py:85 | the recognizer's tentative text for the audio heard since the last reset; without a boundary it is the answer the loop appends |
| `Recording.Recognizer.FinalResult` | main.py:91 | the recognizer's closing text for the audio heard since the last reset |
| `Recording.Recognizer.Reset` | main.py:95 | a reset forgets all audio fed so far |
| `Recording.Recorder.constructor` | main.py:58-61 | the loop starts in the initial state, with a fresh recognizer, and the invariant holds |
| `Recording.Recorder.Callback` | main.py:28-32 | the in-place `q.put` performs `Put` and keeps the invariant |
| `Recording.Recorder.OnPress` | main.py:63-74 | the in-place key handler performs `Press`, including its return value, and keeps the invariant |
| `Recording.Recorder.Step` | main.py:79-97 | one in-place loop iteration performs `Iterate`, with the same outcome, and keeps the invariant |
| `Recording.Recorder.Record` | main.py:76-97 | driving the loop through a schedule of events performs `Run`, returns every iteration's outcome in order, and keeps the invariant |

## Left out

- Threads: the audio callback thread and the `pynput` listener thread are not modelled. Each
  callback or key press is one atomic event between two loop iterations.
- Transitions.Iterate: a key press happens only between two iterations, and the blocking
  `q.get()` is not modelled. A recording iteration that finds the queue empty returns
  `Waiting` and changes nothing, as if the iteration had not started. In the source, the
  iteration has already read `recording` (main.py:80) and waits inside `q.get()` (main.py:81).
  A new block comes only every 8000 frames (main.py:52), so a recording iteration spends most
  of its time there, and a stop press usually lands inside the recording branch
  (main.py:81-87). Such a stop does not flush:
  - main.py:97 copies the new `recording == False` into `prev_recording`, so main.py:89 never
    sees the falling edge;
  - there is no `FinalResult()` and no transcription;
  - `full_result` and the recognizer's audio carry over into the next session.
- Sessions.StopRecording, Sessions.Session: "a stop flushes exactly when audio was fed" holds
  only for a press that lands between main.py:97 and main.py:80. The model has no other kind of
  press. The usual stop in the source, described in the line above, is not captured.
- Transitions.Coherent: holds because iterations are atomic. In the source, a key press can
  also land during `time.sleep(0.1)` (main.py:96), before `prev_recording = recording`. So two
  quick `s` presses can flush a session in which no block was fed. A stop inside the recording
  branch can also leave the list non-empty while `prev_recording` is false. The model does not
  capture these races, and `FlushTranscript`'s "at least one block was fed" depends on them
  not happening.
- `time.sleep(0.1)` is not modelled: an idle iteration is one step.
- All `print` calls, including the printing of the transcription and the final
  `" ".join(full_result)` after the loop, are not modelled. `Iterate` returns the transcription
  as its outcome instead.
- Vosk: model loading and the recognizer's internals are not modelled. Its answers are opaque
  strings from an oracle and are never parsed.
- The sample rate taken from the device, opening the dump file, and the
  `sounddevice.RawInputStream` setup are not modelled: they are device and file I/O. The dump
  file is the sequence of blocks written to it.
- The `KeyboardInterrupt` and generic exception handlers that call `parser.exit` are not
  modelled: they are process exit and error reporting.
- Argument parsing with `argparse`, `--list-devices` and the re-run under `sudo` are not
  modelled: they are process plumbing.
- Args.IntOrStr: models `int()` only on an optional sign followed by ASCII decimal digits.
  - Python also strips surrounding whitespace, allows underscores between digits and accepts
    non-ASCII decimal digits. For such texts the model returns the text, where Python returns
    a number.
  - With CPython's default limit on integer strings, `int()` raises `ValueError` on a text of
    more than 4300 digits. There `int_or_str` returns the text, where the model returns a
    number.
- The files `gui/transcription_window.py`, `gui/settings_window.py` and `build_mac.py` are not
  part of this model: they are user interface and packaging code.
