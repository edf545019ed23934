# ctxopt-core in Dafny

A verified model of the core of `ctxopt-core`, the Rust crate that hosts an
interactive CLI child process on a pseudo-terminal. Three parts are modelled:

- **The output-history ring buffer** (`StreamBuffer`, `buffer.dfy`). `RingBuffer`
  is a class whose `data` field is the byte vector that `push` changes one byte at
  a time. The invariant is `|data| <= capacity`. `Push` is proved to leave exactly
  `Retained(capacity, old(data) + bytes)`, the longest suffix that fits.
  `PushLoop` is the loop as a value and makes the zero-capacity panic explicit.
- **The injection throttle** (`InjectorTriggers`, `triggers.dfy`). `ContextInjector`
  is a class holding the interval and the time of the last injection. The
  monotonic clock is an explicit reading `now` in whole milliseconds. `MayInject`
  is the decision that `can_inject` makes. The lemmas cover the two states, the
  if-and-only-if after an injection, monotonicity in time, and the spacing the
  throttle guarantees between guarded injections.
- **The decision logic of the PTY session manager** (`Pty`, `pty.dfy`, with the
  UTF-8 encoding of `str::as_bytes` in `utf8.dfy`). This covers `PtySize` and its
  conversion, the command line built from the arguments, and the phased
  construction with its error mapping. It also covers how a raw read outcome
  becomes a result in `read` and in `read_async`, and the `write_all`-then-`flush`
  sequence. Finally it covers `is_running`, `wait`, `resize`, `size` and `kill`.
  Every call into the PTY library or the operating system is an outcome value
  passed in as a parameter. `New` and `Write` also return the sequence of calls
  they made, so the contracts can say which calls ran and which did not.

`base.dfy` holds the shared machine-integer newtypes (`byte`, `u16`, `u32`) and
`Option`/`Result`.

Notes on what `pty/manager.rs` does, which the model follows:

- `resize` never updates the cached size (`size` is a `const` of `PtyManager`).
  So after a successful resize, `size()` still returns the size given to `new`,
  although its doc comment calls it the current size
  (packages/ctxopt-core/src/pty/manager.rs:229-240).
- `read_async` has no would-block arm: would-block becomes a `ReadError` there,
  while `read` turns it into an empty success (`Pty.ReadAsyncVersusRead`).
- A `flush` failure is the same `WriteError` variant as a `write_all` failure.
  The tests in packages/ctxopt-core/src/tests/pty_tests.rs:97 and :109 call
  `PtyError::write` and `PtyError::flush` constructors, which `manager.rs` does
  not define.
- `resize` failures are `CreateError`. `wait` and `kill` failures are `SpawnError`.

## Model

| member | source | states |
|---|---|---|
| `StreamBuffer.Retained` | packages/ctxopt-core/src/stream/buffer.rs:23-27 | the window kept of a stream is a suffix of it, no longer than the capacity, and as long as possible (the whole stream or exactly `capacity` bytes) |
| `StreamBuffer.PushByte` | packages/ctxopt-core/src/stream/buffer.rs:24-27 | one iteration panics exactly when the vector is empty and the capacity is 0; otherwise the new vector ends with `b`, is a suffix of `data ++ [b]`, is `data ++ [b]` below capacity and keeps its length when full |
| `StreamBuffer.PushLoop` | packages/ctxopt-core/src/stream/buffer.rs:22-29 | the loop panics only on a non-empty input and a zero capacity; otherwise its result is a suffix of `data ++ bytes` |
| `StreamBuffer.RetainedSnoc` | packages/ctxopt-core/src/stream/buffer.rs:24-27 | one loop iteration (remove the oldest byte when full, then append) turns the window of `s` into the window of `s + [b]` when the capacity is positive |
| `StreamBuffer.PushLoopRetains` | packages/ctxopt-core/src/stream/buffer.rs:22-29 | the byte-by-byte loop panics exactly when the capacity is 0 and the input is non-empty; otherwise it yields the last `min(capacity, |old|+|bytes|)` bytes of `old ++ bytes` |
| `StreamBuffer.PushConcat` | packages/ctxopt-core/src/stream/buffer.rs:22-29 | `push(a)` then `push(b)` leaves the same contents as `push(a ++ b)` |
| `StreamBuffer.PushEmptyUnchanged` | packages/ctxopt-core/src/stream/buffer.rs:22-29 | pushing an empty slice leaves any valid buffer unchanged |
| `StreamBuffer.RingBuffer.constructor` | packages/ctxopt-core/src/stream/buffer.rs:14-19 | `new(c)` is an empty buffer of capacity `c` |
| `StreamBuffer.RingBuffer.Push` | packages/ctxopt-core/src/stream/buffer.rs:22-29 | keeps `|data| <= capacity` and leaves `data` equal to the retained window of `old(data) ++ bytes`; the capacity is a constant |
| `StreamBuffer.RingBuffer.AsSlice` | packages/ctxopt-core/src/stream/buffer.rs:32-34 | returns exactly `data` and changes nothing |
| `StreamBuffer.RingBuffer.Clear` | packages/ctxopt-core/src/stream/buffer.rs:37-39 | empties `data` and keeps the invariant; the capacity is unchanged |
| `InjectorTriggers.Elapsed` | packages/ctxopt-core/src/injector/triggers.rs:26 | the elapsed time is `now - last` when the clock has not gone back, and 0 (saturated) when it has |
| `InjectorTriggers.MayInject` | packages/ctxopt-core/src/injector/triggers.rs:24-26 | with no last injection or a zero interval injection is allowed; after an injection at `t` with a positive interval it is allowed if and only if `t + interval <= now` |
| `InjectorTriggers.NeverInjectedMayInject` | packages/ctxopt-core/src/injector/triggers.rs:24-25 | with no last injection, injection is allowed for every interval and time |
| `InjectorTriggers.MayInjectAfterMark` | packages/ctxopt-core/src/injector/triggers.rs:26 | after an injection at `t`, injection at `now >= t` is allowed if and only if `now - t >= interval` |
| `InjectorTriggers.BlockedRightAfterMark` | packages/ctxopt-core/src/injector/triggers.rs:26 | with elapsed time 0 a positive interval blocks; a zero interval never blocks |
| `InjectorTriggers.MayInjectMonotone` | packages/ctxopt-core/src/injector/triggers.rs:26 | once allowed, injection stays allowed at every later time until the next mark |
| `InjectorTriggers.DefaultMatchesConfig` | packages/ctxopt-core/src/injector/triggers.rs:36-39 | the default interval is 5000 ms, the same value `Config::new` uses |
| `InjectorTriggers.Replay` | packages/ctxopt-core/src/injector/triggers.rs:31-33 | the state after a run of `mark_injected` calls is the starting state when there were none, and otherwise one of the marked times |
| `InjectorTriggers.ReplayLast` | packages/ctxopt-core/src/injector/triggers.rs:31-33 | after a run of `mark_injected` calls only the latest time is remembered |
| `InjectorTriggers.MayInjectAfterRun` | packages/ctxopt-core/src/injector/triggers.rs:22-33 | on a monotonic clock, after a run of injections, injection is allowed if and only if the interval has passed since every one of them |
| `InjectorTriggers.ThrottleSpacing` | packages/ctxopt-core/src/injector/triggers.rs:22-33 | injections each made only when `can_inject` allowed them are at least the interval apart |
| `InjectorTriggers.ContextInjector.constructor` | packages/ctxopt-core/src/injector/triggers.rs:15-20 | a new injector has the given interval and no last injection |
| `InjectorTriggers.ContextInjector.Default` | packages/ctxopt-core/src/injector/triggers.rs:36-39 | the default injector has a 5000 ms interval and no last injection |
| `InjectorTriggers.ContextInjector.CanInject` | packages/ctxopt-core/src/injector/triggers.rs:23-28 | returns the throttle decision for the current state and clock reading, and changes nothing |
| `InjectorTriggers.ContextInjector.MarkInjected` | packages/ctxopt-core/src/injector/triggers.rs:31-33 | sets the last injection to the current time and changes nothing else (the interval is a constant) |
| `Utf8.EncodeChar` | packages/ctxopt-core/src/pty/manager.rs:208-210 | a character encodes to 1 to 4 bytes whose lead byte announces the length and whose other bytes are continuation bytes; ASCII is one byte equal to the code point |
| `Utf8.DecodeEncodeChar` | packages/ctxopt-core/src/pty/manager.rs:208-210 | the payload bits of a character's bytes (lead byte, then six bits per continuation byte) give back its scalar value |
| `Utf8.Encode` | packages/ctxopt-core/src/pty/manager.rs:209 | a string of `n` characters has between `n` and `4n` bytes |
| `Utf8.EncodeAppend` | packages/ctxopt-core/src/pty/manager.rs:208-210 | the bytes of `a + b` are the bytes of `a` followed by the bytes of `b` |
| `Utf8.EncodeAscii` | packages/ctxopt-core/src/pty/manager.rs:208-210 | an ASCII string's bytes are its characters' code points, one per character |
| `Pty.DefaultSize` | packages/ctxopt-core/src/pty/manager.rs:43-47 | the default size is 24 rows by 80 columns |
| `Pty.ToPortable` | packages/ctxopt-core/src/pty/manager.rs:49-58 | the library size keeps rows and columns and has zero pixel width and height |
| `Pty.Command.Arg` | packages/ctxopt-core/src/pty/manager.rs:101-103 | adding an argument keeps the program and puts the argument after the others |
| `Pty.BuildCommand` | packages/ctxopt-core/src/pty/manager.rs:100-103 | the command line is the program with every argument in the given order |
| `Pty.FirstFailed` | packages/ctxopt-core/src/pty/manager.rs:95-130 | the index of the first failed call: every earlier call succeeded and the call at that index failed |
| `Pty.FirstFailedPhase` | packages/ctxopt-core/src/pty/manager.rs:95-130 | the first failed construction phase is openpty, spawn, take_writer or try_clone_reader, in that order of precedence |
| `Pty.PhaseError` | packages/ctxopt-core/src/pty/manager.rs:95-130 | the spawn phase maps to `SpawnError` and every other phase to `CreateError`, each keeping the failure's text |
| `Pty.New` | packages/ctxopt-core/src/pty/manager.rs:90-139 | runs openpty, spawn, take_writer and try_clone_reader in order, stopping at the first failure and mapping it to its phase's error; on success the session holds the given size and the built command line |
| `Pty.SpawnClaude` | packages/ctxopt-core/src/pty/manager.rs:142-144 | constructs exactly as `new("claude", [], size)` |
| `Pty.SpawnClaudeWithProfile` | packages/ctxopt-core/src/pty/manager.rs:147-149 | constructs exactly as `new("claude", ["--profile", profile], size)` |
| `Pty.ConstructionSucceedsIff` | packages/ctxopt-core/src/pty/manager.rs:95-138 | construction succeeds if and only if all four library calls succeed |
| `Pty.ConstructionErrorByPhase` | packages/ctxopt-core/src/pty/manager.rs:95-130 | a failed spawn is a `SpawnError` and a failed openpty, writer or reader is a `CreateError`; the failed call is the last one made and all earlier calls succeeded |
| `Pty.WindowAfterRead` | packages/ctxopt-core/src/pty/manager.rs:156-158 | the zeroed 8192-byte window after a read holds the stored bytes at its start and zeros after them |
| `Pty.Truncate` | packages/ctxopt-core/src/pty/manager.rs:161 | `truncate(n)` keeps the first `min(n, len)` elements |
| `Pty.Delivered` | packages/ctxopt-core/src/pty/manager.rs:155-162 | a read of `Ok(n)` delivers at most the 8192-byte window, nothing at end of stream, and exactly the first `n` stored bytes when the reader stored at least `n` |
| `Pty.ReadResult` | packages/ctxopt-core/src/pty/manager.rs:157-165 | a successful `read` never returns more than the 8192-byte window |
| `Pty.ReadAsyncResult` | packages/ctxopt-core/src/pty/manager.rs:176-190 | a successful `read_async` never returns more than the window, and every failure, including a failed join, is a `ReadError` |
| `Pty.ReadDeliversChunk` | packages/ctxopt-core/src/pty/manager.rs:157-162 | `read` of `Ok(n)` returns exactly the first `n` bytes read; end of stream is an empty success |
| `Pty.ReadFailsOnlyOnHardErrors` | packages/ctxopt-core/src/pty/manager.rs:158-166 | `read` fails if and only if the reader failed with something other than would-block, and then with a `ReadError` carrying the failure's text |
| `Pty.ReadAsyncVersusRead` | packages/ctxopt-core/src/pty/manager.rs:158-190 | once joined, `read_async` agrees with `read` except on would-block, where `read` gives an empty success and `read_async` a `ReadError` |
| `Pty.ReadAsyncSucceedsOnlyWhenJoined` | packages/ctxopt-core/src/pty/manager.rs:176-190 | `read_async` succeeds if and only if the task was joined and the read returned `Ok`; a failed join is a `ReadError` with the join's text |
| `Pty.ReadIntoWindow` | packages/ctxopt-core/src/pty/manager.rs:155-162 | filling a zeroed 8 KiB array with what the reader stored and truncating it to `n` yields the delivered bytes |
| `Pty.WriteSucceedsIff` | packages/ctxopt-core/src/pty/manager.rs:196-205 | a write succeeds if and only if `write_all` and `flush` both do; `flush` is attempted if and only if `write_all` succeeded; every failure is a `WriteError` |
| `Pty.PtyManager.constructor` | packages/ctxopt-core/src/pty/manager.rs:132-138 | the session records the size and the spawned command line |
| `Pty.PtyManager.Read` | packages/ctxopt-core/src/pty/manager.rs:154-167 | the result is the read normalisation of the reader's outcome |
| `Pty.PtyManager.ReadAsync` | packages/ctxopt-core/src/pty/manager.rs:172-193 | the result is the `read_async` normalisation of the join and reader outcomes |
| `Pty.PtyManager.Write` | packages/ctxopt-core/src/pty/manager.rs:196-205 | `write_all` of the whole buffer, then `flush` only after it succeeded; either failure is a `WriteError` with the failure's text |
| `Pty.PtyManager.WriteStr` | packages/ctxopt-core/src/pty/manager.rs:208-210 | behaves as `write` of the string's UTF-8 bytes |
| `Pty.PtyManager.IsRunning` | packages/ctxopt-core/src/pty/manager.rs:213-217 | running if and only if `try_wait` reports no exit status; an exit status or a probe failure both give false |
| `Pty.PtyManager.Wait` | packages/ctxopt-core/src/pty/manager.rs:220-226 | returns the child's exit code; a failed wait is a `SpawnError` |
| `Pty.PtyManager.Resize` | packages/ctxopt-core/src/pty/manager.rs:229-235 | asks the master for the converted new size; succeeds if and only if the master does; a failure is a `CreateError`; the cached size is not touched |
| `Pty.PtyManager.Size` | packages/ctxopt-core/src/pty/manager.rs:238-240 | returns the size given at construction |
| `Pty.PtyManager.Kill` | packages/ctxopt-core/src/pty/manager.rs:243-249 | succeeds if and only if the kill does; a failure is a `SpawnError` |

## Left out

- StreamBuffer.RingBuffer.Push: the panic on a zero-capacity buffer is a precondition (`capacity > 0 || |bytes| == 0`). The panic itself is modelled by `PushLoop` and `PushLoopRetains`.
- Pty.PtyManager.Read: the reader is an outcome `Ok(n)` with the bytes it stored, or a failure. Bytes it would store past the 8192-byte window are dropped, since a slice cannot be written past its end; a reported `n` above 8192, which `truncate` leaves alone, delivers the whole window.
- Pty.New: inheriting the caller's environment (`std::env::vars`) and working directory (`std::env::current_dir`) is not modelled, because it is ambient global state.
- The four handles (master, writer, reader, child) and the library calls on them are abstract outcome parameters. These are foreign calls into `portable_pty` and the operating system. So the model does not relate successive calls on one session (for example, a write failing after the child exited).
- The `Arc<Mutex<..>>` locking, `.lock().await`, `blocking_lock` and `task::spawn_blocking` are left out because they concern concurrency. Only the join outcome of the background task is modelled.
- Error texts: each `PtyError` carries the underlying failure's text. The `Display` prefixes (`"Failed to create PTY: "` and so on) are not modelled. `ProcessExited` and `IoError` are declared but no modelled operation produces them, as in the code.
- InjectorTriggers.ContextInjector: the interval (`u64`) and the clock readings are unbounded naturals. The clock is whole milliseconds, standing for `Instant::now` and `elapsed().as_millis()`. `Elapsed` saturates at zero when the clock reads earlier than the last injection, as `Instant::elapsed` does.
- `tokens/estimator.rs`, `stream/analyzer.rs`, `config/mod.rs`, `injector/templates.rs`, `injector/mod.rs`, `pty/mod.rs`, `lib.rs` and the tests in `tests/pty_tests.rs` are not part of this model. They are a call into an external tokenizer, a stub classifier, default constants, string constants, re-exports and napi glue. The one configuration constant used, the 5000 ms interval, appears as `InjectorTriggers.ConfigInjectionIntervalMs`.
