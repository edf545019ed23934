/** The PTY session manager: a pseudo-terminal pair with a child process on
    its slave side, and the primitives that read the child's output, write
    its input, resize the terminal and query or end the child.

    Every call into the PTY library and the operating system (opening the
    pair, spawning, taking the writer, cloning the reader, reading, writing,
    flushing, `try_wait`, `wait`, `kill`, resizing the master) is an abstract
    outcome passed in as a parameter; what is modelled is how the manager
    sequences those calls and turns their outcomes into its own results. */
module Pty {
  import opened Base
  import Utf8

  /** Terminal size in character cells. */
  datatype PtySize = PtySize(rows: u16, cols: u16)

  /** The PTY library's size record, which also carries a pixel size. */
  datatype PortablePtySize = PortablePtySize(rows: u16, cols: u16, pixelWidth: u16, pixelHeight: u16)

  /** `PtySize::default`: 24 rows by 80 columns. */
  function DefaultSize(): (s: PtySize)
    ensures s.rows == 24 && s.cols == 80
  {
    PtySize(24, 80)
  }

  /** `From<PtySize> for PortablePtySize`: the cell size is kept and no
      pixel size is given. */
  function ToPortable(size: PtySize): (p: PortablePtySize)
    ensures PtySize(p.rows, p.cols) == size
    ensures p.pixelWidth == 0 && p.pixelHeight == 0
  {
    PortablePtySize(size.rows, size.cols, 0, 0)
  }

  /** The manager's errors; each carries the text of the underlying failure. */
  datatype PtyError =
    | CreateError(message: string)
    | SpawnError(message: string)
    | ReadError(message: string)
    | WriteError(message: string)
    | ProcessExited
    | IoError(message: string)

  /** The one `std::io::ErrorKind` the manager tells apart from the rest. */
  datatype ErrorKind = WouldBlock | OtherKind

  /** A failure reported by the PTY library or the operating system. */
  datatype IoFailure = IoFailure(kind: ErrorKind, message: string)

  /** The outcome of a library call that returns nothing of interest. */
  datatype Outcome = Completed | Failed(cause: IoFailure)

  // ---------------------------------------------------------------------
  // Construction

  /** The command line handed to the spawner (`CommandBuilder`). */
  datatype Command = Command(program: string, args: seq<string>)
  {
    /** `CommandBuilder::arg`: one more argument, after the others. */
    function Arg(a: string): (c: Command)
      ensures c.program == program && c.args == args + [a]
    {
      Command(program, args + [a])
    }
  }

  /** The command line `PtyManager::new` builds: the program, then every
      argument appended in the order given. */
  method BuildCommand(program: string, args: seq<string>) returns (cmd: Command)
    ensures cmd.program == program && cmd.args == args
  {
    cmd := Command(program, []);
    for i := 0 to |args|
      invariant cmd.program == program && cmd.args == args[..i]
    {
      cmd := cmd.Arg(args[i]);
    }
    assert args[..|args|] == args;
  }

  /** The calls `PtyManager::new` makes into the PTY library, in order. */
  datatype Call =
    | OpenPty(size: PortablePtySize)
    | SpawnCommand(command: Command)
    | TakeWriter
    | CloneReader

  /** How each of those calls turns out. */
  datatype Platform = Platform(openPty: Outcome, spawn: Outcome, takeWriter: Outcome, cloneReader: Outcome)

  function Outcomes(p: Platform): seq<Outcome>
  {
    [p.openPty, p.spawn, p.takeWriter, p.cloneReader]
  }

  /** The calls of a construction that meets no failure. */
  function PlannedCalls(program: string, args: seq<string>, size: PtySize): seq<Call>
  {
    [OpenPty(ToPortable(size)), SpawnCommand(Command(program, args)), TakeWriter, CloneReader]
  }

  /** The index of the first failed outcome, or the length when none failed. */
  function FirstFailed(outcomes: seq<Outcome>): (k: nat)
    ensures k <= |outcomes|
    ensures forall j :: 0 <= j < k ==> outcomes[j].Completed?
    ensures k < |outcomes| ==> outcomes[k].Failed?
    decreases |outcomes|
  {
    if outcomes == [] || outcomes[0].Failed? then 0
    else 1 + FirstFailed(outcomes[1..])
  }

  /** The first failed call of a construction, phase by phase. */
  lemma FirstFailedPhase(p: Platform)
    ensures FirstFailed(Outcomes(p)) ==
              if p.openPty.Failed? then 0
              else if p.spawn.Failed? then 1
              else if p.takeWriter.Failed? then 2
              else if p.cloneReader.Failed? then 3
              else 4
  {
    var o := Outcomes(p);
    var k := FirstFailed(o);
    assert o[0] == p.openPty && o[1] == p.spawn && o[2] == p.takeWriter && o[3] == p.cloneReader;
    if k < 4 {
      assert o[k].Failed?;
    }
  }

  /** The error a failure of the call at index `k` of `PlannedCalls` becomes:
      only a failed spawn is a `SpawnError`. */
  function PhaseError(k: nat, cause: IoFailure): (e: PtyError)
    ensures e.SpawnError? <==> k == 1
    ensures e.CreateError? <==> k != 1
    ensures e.message == cause.message
  {
    if k == 1 then SpawnError(cause.message) else CreateError(cause.message)
  }

  /** The contract of `PtyManager::new`: the calls run in order up to and
      including the first that fails, and no further; a failure becomes the
      error of its phase; a session exists only when all four succeeded, and
      it holds the requested size and the command line it spawned. */
  predicate Constructed(p: Platform, program: string, args: seq<string>, size: PtySize,
                        r: Result<PtyManager, PtyError>, calls: seq<Call>)
  {
    var planned := PlannedCalls(program, args, size);
    var k := FirstFailed(Outcomes(p));
    match r
    case Success(m) =>
      k == 4 && calls == planned && m.size == size && m.command == Command(program, args)
    case Failure(e) =>
      k < 4 && calls == planned[..k + 1] && e == PhaseError(k, Outcomes(p)[k].cause)
  }

  /** `PtyManager::new`. Inheriting the caller's environment and working
      directory is not modelled. */
  method New(program: string, args: seq<string>, size: PtySize, p: Platform)
    returns (r: Result<PtyManager, PtyError>, calls: seq<Call>)
    ensures Constructed(p, program, args, size, r, calls)
  {
    FirstFailedPhase(p);
    calls := [OpenPty(ToPortable(size))];
    if p.openPty.Failed? {
      r := Failure(CreateError(p.openPty.cause.message));
      return;
    }
    var cmd := BuildCommand(program, args);
    calls := calls + [SpawnCommand(cmd)];
    if p.spawn.Failed? {
      r := Failure(SpawnError(p.spawn.cause.message));
      return;
    }
    calls := calls + [TakeWriter];
    if p.takeWriter.Failed? {
      r := Failure(CreateError(p.takeWriter.cause.message));
      return;
    }
    calls := calls + [CloneReader];
    if p.cloneReader.Failed? {
      r := Failure(CreateError(p.cloneReader.cause.message));
      return;
    }
    var m := new PtyManager(cmd, size);
    r := Success(m);
  }

  const ClaudeProgram: string := "claude"
  const ProfileFlag: string := "--profile"

  /** `PtyManager::spawn_claude`: `claude` with no arguments. */
  method SpawnClaude(size: PtySize, p: Platform) returns (r: Result<PtyManager, PtyError>, calls: seq<Call>)
    ensures Constructed(p, ClaudeProgram, [], size, r, calls)
  {
    r, calls := New(ClaudeProgram, [], size, p);
  }

  /** `PtyManager::spawn_claude_with_profile`: `claude --profile <profile>`. */
  method SpawnClaudeWithProfile(profile: string, size: PtySize, p: Platform)
    returns (r: Result<PtyManager, PtyError>, calls: seq<Call>)
    ensures Constructed(p, ClaudeProgram, [ProfileFlag, profile], size, r, calls)
  {
    r, calls := New(ClaudeProgram, [ProfileFlag, profile], size, p);
  }

  /** A construction succeeds exactly when all four library calls do. */
  lemma ConstructionSucceedsIff(p: Platform, program: string, args: seq<string>, size: PtySize,
                                r: Result<PtyManager, PtyError>, calls: seq<Call>)
    requires Constructed(p, program, args, size, r, calls)
    ensures r.Success? <==> forall k :: 0 <= k < 4 ==> Outcomes(p)[k].Completed?
  {
  }

  /** Construction errors by phase: a failed spawn is a `SpawnError`; a
      failed PTY allocation, writer or reader is a `CreateError`. The failed
      call is the last one made, and every call before it succeeded. */
  lemma ConstructionErrorByPhase(p: Platform, program: string, args: seq<string>, size: PtySize,
                                 r: Result<PtyManager, PtyError>, calls: seq<Call>)
    requires Constructed(p, program, args, size, r, calls)
    requires r.Failure?
    ensures r.error.SpawnError? <==> p.openPty.Completed? && p.spawn.Failed?
    ensures r.error.CreateError? <==>
              p.openPty.Failed? || (p.spawn.Completed? && (p.takeWriter.Failed? || p.cloneReader.Failed?))
    ensures 1 <= |calls| <= 4 && calls == PlannedCalls(program, args, size)[..|calls|]
    ensures Outcomes(p)[|calls| - 1].Failed?
    ensures forall j :: 0 <= j < |calls| - 1 ==> Outcomes(p)[j].Completed?
  {
    FirstFailedPhase(p);
  }

  // ---------------------------------------------------------------------
  // Reading

  /** The size of the window one read fills. */
  const ReadWindow: nat := 8192

  /** The outcome of one `Read::read` into the window: `Ok(n)` together with
      the bytes the reader stored at the start of the window, or a failure. */
  datatype ReadOutcome = ReadOk(n: nat, stored: seq<byte>) | ReadFailed(cause: IoFailure)

  /** The zeroed window (`vec![0u8; 8192]`) after the reader stored `stored`
      at its start; nothing lands past the window's end. */
  function WindowAfterRead(stored: seq<byte>): (w: seq<byte>)
    ensures |w| == ReadWindow
    ensures forall i :: 0 <= i < ReadWindow ==> w[i] == if i < |stored| then stored[i] else 0
  {
    seq(ReadWindow, i requires 0 <= i < ReadWindow => if i < |stored| then stored[i] else 0)
  }

  /** `Vec::truncate(n)`: keeps the first `n` elements, and does nothing to a
      vector that has no more than `n`. */
  function Truncate(v: seq<byte>, n: nat): (t: seq<byte>)
    ensures |t| == Min(n, |v|)
    ensures t == v[..|t|]
  {
    if n < |v| then v[..n] else v
  }

  /** The bytes a read that returned `Ok(n)` delivers: none at end of stream,
      otherwise the window truncated to `n`. Whatever `n` the reader reports,
      at most the window is delivered; for a reader that reports the bytes it
      stored, exactly those are delivered. */
  function Delivered(n: nat, stored: seq<byte>): (d: seq<byte>)
    ensures |d| <= ReadWindow
    ensures n == 0 ==> d == []
    ensures n <= ReadWindow && n <= |stored| ==> d == stored[..n]
  {
    if n == 0 then [] else Truncate(WindowAfterRead(stored), n)
  }

  /** `PtyManager::read`: end of stream and would-block are both an empty
      success; any other failure is a `ReadError`. A success never holds
      more than the 8 KiB window. */
  function ReadResult(o: ReadOutcome): (r: Result<seq<byte>, PtyError>)
    ensures r.Success? ==> |r.value| <= ReadWindow
  {
    match o
    case ReadOk(n, stored) => Success(Delivered(n, stored))
    case ReadFailed(cause) =>
      if cause.kind == WouldBlock then Success([]) else Failure(ReadError(cause.message))
  }

  /** Whether the `spawn_blocking` task that runs the read was joined. */
  datatype JoinOutcome = Joined | JoinFailed(message: string)

  /** `PtyManager::read_async`: the same read, but with no would-block arm,
      and a failed join of the background task is a `ReadError` too. */
  function ReadAsyncResult(o: ReadOutcome, join: JoinOutcome): (r: Result<seq<byte>, PtyError>)
    ensures r.Success? ==> |r.value| <= ReadWindow
    ensures r.Failure? ==> r.error.ReadError?
  {
    match join
    case JoinFailed(message) => Failure(ReadError(message))
    case Joined =>
      match o
      case ReadOk(n, stored) => Success(Delivered(n, stored))
      case ReadFailed(cause) => Failure(ReadError(cause.message))
  }

  /** A read of `n` bytes delivers exactly the first `n` bytes the reader
      stored; end of stream is an empty success. */
  lemma ReadDeliversChunk(o: ReadOutcome)
    ensures o.ReadOk? && o.n == 0 ==> ReadResult(o) == Success([])
    ensures o.ReadOk? && o.n <= ReadWindow && o.n <= |o.stored| ==> ReadResult(o) == Success(o.stored[..o.n])
  {
  }

  /** `read` fails exactly on a failure other than would-block, and then
      with a `ReadError` that keeps the failure's text. */
  lemma ReadFailsOnlyOnHardErrors(o: ReadOutcome)
    ensures ReadResult(o).Failure? <==> o.ReadFailed? && o.cause.kind != WouldBlock
    ensures ReadResult(o).Failure? ==> ReadResult(o).error == ReadError(o.cause.message)
  {
  }

  /** `read_async` agrees with `read` whenever the task is joined and the
      read did not report would-block; on would-block `read` yields an empty
      success where `read_async` yields a `ReadError`. */
  lemma ReadAsyncVersusRead(o: ReadOutcome)
    ensures !(o.ReadFailed? && o.cause.kind == WouldBlock) ==> ReadAsyncResult(o, Joined) == ReadResult(o)
    ensures o.ReadFailed? && o.cause.kind == WouldBlock ==>
              ReadResult(o) == Success([]) && ReadAsyncResult(o, Joined) == Failure(ReadError(o.cause.message))
  {
  }

  /** `read_async` succeeds only when its task was joined and the read
      returned `Ok`; a failed join is a `ReadError` with the join's text. */
  lemma ReadAsyncSucceedsOnlyWhenJoined(o: ReadOutcome, join: JoinOutcome)
    ensures ReadAsyncResult(o, join).Success? <==> join == Joined && o.ReadOk?
    ensures join.JoinFailed? ==> ReadAsyncResult(o, join) == Failure(ReadError(join.message))
  {
  }

  /** One read into a fresh zeroed 8 KiB window, then `truncate(n)`. */
  method ReadIntoWindow(n: nat, stored: seq<byte>) returns (bytes: seq<byte>)
    ensures bytes == Delivered(n, stored)
  {
    var buffer := new byte[ReadWindow](_ => 0);
    // the reader stores its bytes at the start of the window
    forall i | 0 <= i < Min(|stored|, ReadWindow) {
      buffer[i] := stored[i];
    }
    assert buffer[..] == WindowAfterRead(stored);
    if n == 0 {
      bytes := [];
    } else if n < buffer.Length {
      bytes := buffer[..n];
    } else {
      bytes := buffer[..];
    }
  }

  // ---------------------------------------------------------------------
  // Writing

  /** The calls `write` makes on the writer. */
  datatype WriterCall = WriteAll(data: seq<byte>) | Flush

  /** The contract of `PtyManager::write`: `write_all` of the whole buffer,
      then `flush` only if that succeeded; either failure is a `WriteError`
      that keeps the failure's text. */
  predicate WriteSequenced(data: seq<byte>, writeAll: Outcome, flush: Outcome,
                           r: Result<(), PtyError>, calls: seq<WriterCall>)
  {
    match writeAll
    case Failed(cause) =>
      calls == [WriteAll(data)] && r == Failure(WriteError(cause.message))
    case Completed =>
      calls == [WriteAll(data), Flush] &&
      r == match flush
           case Completed => Success(())
           case Failed(cause) => Failure(WriteError(cause.message))
  }

  /** A write succeeds exactly when `write_all` and `flush` both do; `flush`
      is attempted exactly when `write_all` succeeded; all bytes go to the
      one `write_all`. */
  lemma WriteSucceedsIff(data: seq<byte>, writeAll: Outcome, flush: Outcome,
                         r: Result<(), PtyError>, calls: seq<WriterCall>)
    requires WriteSequenced(data, writeAll, flush, r, calls)
    ensures r.Success? <==> writeAll.Completed? && flush.Completed?
    ensures Flush in calls <==> writeAll.Completed?
    ensures calls[0] == WriteAll(data)
    ensures r.Failure? ==> r.error.WriteError?
  {
    if writeAll.Failed? {
      assert calls == [WriteAll(data)];
    }
  }

  // ---------------------------------------------------------------------
  // The child process

  /** The outcome of `Child::try_wait`. */
  datatype TryWaitOutcome = StillRunning | HasExited(code: u32) | TryWaitFailed(cause: IoFailure)

  /** The outcome of `Child::wait`. */
  datatype WaitOutcome = Exited(code: u32) | WaitFailed(cause: IoFailure)

  /** `PtyManager`: the four library handles are the outcome parameters of
      its methods; what the object itself holds is the size it was created
      with and the command line its child was spawned from. No method
      writes either: `resize` reconfigures only the master side. */
  class PtyManager {
    const command: Command
    const size: PtySize

    constructor (command: Command, size: PtySize)
      ensures this.command == command && this.size == size
    {
      this.command := command;
      this.size := size;
    }

    /** `PtyManager::read`. */
    method Read(o: ReadOutcome) returns (r: Result<seq<byte>, PtyError>)
      ensures r == ReadResult(o)
    {
      match o
      case ReadOk(n, stored) =>
        var bytes := ReadIntoWindow(n, stored);
        r := Success(bytes);
      case ReadFailed(cause) =>
        if cause.kind == WouldBlock {
          r := Success([]);
        } else {
          r := Failure(ReadError(cause.message));
        }
    }

    /** `PtyManager::read_async`. */
    method ReadAsync(o: ReadOutcome, join: JoinOutcome) returns (r: Result<seq<byte>, PtyError>)
      ensures r == ReadAsyncResult(o, join)
    {
      if join.JoinFailed? {
        r := Failure(ReadError(join.message));
        return;
      }
      match o
      case ReadOk(n, stored) =>
        var bytes := ReadIntoWindow(n, stored);
        r := Success(bytes);
      case ReadFailed(cause) =>
        r := Failure(ReadError(cause.message));
    }

    /** `PtyManager::write`. */
    method Write(data: seq<byte>, writeAll: Outcome, flush: Outcome)
      returns (r: Result<(), PtyError>, calls: seq<WriterCall>)
      ensures WriteSequenced(data, writeAll, flush, r, calls)
    {
      calls := [WriteAll(data)];
      if writeAll.Failed? {
        r := Failure(WriteError(writeAll.cause.message));
        return;
      }
      calls := calls + [Flush];
      if flush.Failed? {
        r := Failure(WriteError(flush.cause.message));
        return;
      }
      r := Success(());
    }

    /** `PtyManager::write_str`: `write` of the string's UTF-8 bytes. */
    method WriteStr(s: string, writeAll: Outcome, flush: Outcome)
      returns (r: Result<(), PtyError>, calls: seq<WriterCall>)
      ensures WriteSequenced(Utf8.Encode(s), writeAll, flush, r, calls)
    {
      r, calls := Write(Utf8.Encode(s), writeAll, flush);
    }

    /** `PtyManager::is_running`: running exactly when `try_wait` reports no
        exit status; an exit status and a failed probe both mean not running. */
    method IsRunning(probe: TryWaitOutcome) returns (running: bool)
      ensures running <==> probe == StillRunning
    {
      match probe
      case StillRunning => running := true;
      case HasExited(_) => running := false;
      case TryWaitFailed(_) => running := false;
    }

    /** `PtyManager::wait`: the child's exit code; a failed wait is a
        `SpawnError`. */
    method Wait(outcome: WaitOutcome) returns (r: Result<u32, PtyError>)
      ensures outcome.Exited? ==> r == Success(outcome.code)
      ensures outcome.WaitFailed? ==> r == Failure(SpawnError(outcome.cause.message))
    {
      match outcome
      case Exited(code) => r := Success(code);
      case WaitFailed(cause) => r := Failure(SpawnError(cause.message));
    }

    /** `PtyManager::resize`: the master is asked for the new size; a failure
        is a `CreateError`. The cached `size` is not updated. */
    method Resize(newSize: PtySize, outcome: Outcome) returns (r: Result<(), PtyError>, request: PortablePtySize)
      ensures request == ToPortable(newSize)
      ensures r.Success? <==> outcome.Completed?
      ensures outcome.Failed? ==> r == Failure(CreateError(outcome.cause.message))
    {
      request := ToPortable(newSize);
      if outcome.Failed? {
        r := Failure(CreateError(outcome.cause.message));
      } else {
        r := Success(());
      }
    }

    /** `PtyManager::size`: the size given at construction. */
    method Size() returns (s: PtySize)
      ensures s == size
    {
      s := size;
    }

    /** `PtyManager::kill`: a failed kill is a `SpawnError`. */
    method Kill(outcome: Outcome) returns (r: Result<(), PtyError>)
      ensures r.Success? <==> outcome.Completed?
      ensures outcome.Failed? ==> r == Failure(SpawnError(outcome.cause.message))
    {
      if outcome.Failed? {
        r := Failure(SpawnError(outcome.cause.message));
      } else {
        r := Success(());
      }
    }
  }
}
