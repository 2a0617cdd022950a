/** The logger object: the task queue shared by producers and the consumer,
    and the consumer's file state. One call of `WorkerIteration` is one pass
    of the consumer loop; it opens, writes, rotates and flushes the current
    log file. Files are abstract: only byte counts, of what reached the disk
    (`flushed`) and of what is still in the stream buffer (`buffered`), are
    kept. Each method is specified by a transition function on `State`. */
module Engine {
  import opened Basics
  import opened Levels
  import opened Config
  import opened Record
  import opened TaskQueue
  import opened Retention

  /** The two flush triggers of the consumer loop. */
  const FlushBytesThreshold: nat := 32 * 1024
  const FlushIntervalMs: int := 1000

  /** The number of bytes of the UTF-8 encoding of a character, and of a
      text: what `std::string::size` counts. */
  function Utf8Width(c: char): (n: nat)
    ensures 1 <= n <= 4
  {
    if c as int < 0x80 then 1 else if c as int < 0x800 then 2 else if c as int < 0x10000 then 3 else 4
  }

  function ByteLength(s: string): (n: nat)
    ensures |s| <= n <= 4 * |s|
  {
    if |s| == 0 then 0 else Utf8Width(s[0]) + ByteLength(s[1..])
  }

  /** What the environment supplies when a new file is started: the
      directory snapshot seen by the cleanup, the local time, whether the
      open succeeds, and the size the file already has. */
  datatype OpenEnv = OpenEnv(dir: seq<Entry>, clock: DateTime, opens: bool, existingSize: nat)

  /** The mutable fields of the logger. `openedSize` is the size the current
      file had when it was opened; `removed` lists the names deleted by
      cleanup, in order. */
  datatype State = State(
    queue: seq<LogTask>,
    exitFlag: bool,
    isOpen: bool,
    fileName: string,
    currentSize: nat,
    bytesSinceFlush: nat,
    lastFlush: int,
    flushed: nat,
    buffered: nat,
    openedSize: nat,
    removed: seq<string>)

  function Initial(start: int): State {
    State([], false, false, "", 0, 0, start, 0, 0, 0, [])
  }

  /** The bookkeeping agrees with the file: the current size is what the
      file holds, everything still buffered has been counted since the last
      flush, and a file opened below the size cap stays below it between
      passes. */
  predicate Inv(cfg: LogConfig, s: State) {
    s.isOpen ==>
      && s.currentSize == s.flushed + s.buffered
      && s.buffered <= s.bytesSinceFlush
      && (s.openedSize < cfg.maxFileSize ==> s.currentSize < cfg.maxFileSize)
  }

  function Names(es: seq<Entry>): (r: seq<string>)
    ensures |r| == |es| && forall i :: 0 <= i < |es| ==> r[i] == es[i].name
  {
    if |es| == 0 then [] else [es[0].name] + Names(es[1..])
  }

  /** The queue after one `LogLine` went out of scope. */
  function LogSpec(cfg: LogConfig, q: seq<LogTask>, level: LogLevel, site: Option<Callsite>,
                   text: string, time: DateTime): seq<LogTask>
  {
    match Emitted(cfg.enable, cfg.level, level, site, text, time)
    case None => q
    case Some(line) => PushOne(cfg, q, LogTask(level, line))
  }

  /** The message of the INFO record that announces a new file. */
  function AnnounceText(name: string): string {
    "日志文件：" + name
  }

  function CleanupSpec(cfg: LogConfig, s: State, dir: seq<Entry>): State {
    s.(removed := s.removed + Names(CleanupSelection(cfg.maxLogsTotalSize, cfg.baseName, dir)))
  }

  /** `createNewLogFile`: name the file after the clock, announce it, open
      it in append mode and take its size as the current size. */
  function CreateSpec(cfg: LogConfig, s: State, env: OpenEnv): State {
    var name := FilePathFor(cfg.logPath, cfg.baseName, env.clock);
    var q := LogSpec(cfg, s.queue, Info, None, AnnounceText(name), env.clock);
    if !env.opens then s.(queue := q, fileName := name, isOpen := false, currentSize := 0)
    else s.(queue := q, fileName := name, isOpen := true, currentSize := env.existingSize,
            bytesSinceFlush := 0, flushed := env.existingSize, buffered := 0, openedSize := env.existingSize)
  }

  function OpenOnceSpec(cfg: LogConfig, s: State, env: OpenEnv): State {
    if s.isOpen then s else CreateSpec(cfg, CleanupSpec(cfg, s, env.dir), env)
  }

  /** Flush, then close. */
  function CloseSpec(s: State): State {
    s.(isOpen := false, flushed := s.flushed + s.buffered, buffered := 0)
  }

  function RotateSpec(cfg: LogConfig, s: State, env: OpenEnv): State {
    if s.currentSize < cfg.maxFileSize then s
    else CreateSpec(cfg, CleanupSpec(cfg, if s.isOpen then CloseSpec(s) else s, env.dir), env)
  }

  function WriteSpec(s: State, t: LogTask): State {
    var n := ByteLength(t.text);
    s.(currentSize := s.currentSize + n, bytesSinceFlush := s.bytesSinceFlush + n, buffered := s.buffered + n)
  }

  /** An explicit flush: the buffer goes to disk and both triggers reset. A
      flush of a closed stream changes nothing in the file. */
  function FlushSpec(s: State, now: int): State {
    s.(flushed := if s.isOpen then s.flushed + s.buffered else s.flushed,
       buffered := if s.isOpen then 0 else s.buffered,
       bytesSinceFlush := 0, lastFlush := now)
  }

  /** The file part of handling one task: open if needed, write, rotate if
      the cap is reached, and flush at once after an ERROR record. */
  function HandleTaskSpec(cfg: LogConfig, s: State, t: LogTask, now: int, e1: OpenEnv, e2: OpenEnv): State {
    if !cfg.toFile then s
    else
      var s1 := OpenOnceSpec(cfg, s, e1);
      if !s1.isOpen then s1
      else
        var s2 := RotateSpec(cfg, WriteSpec(s1, t), e2);
        if t.level.Rank() <= Error.Rank() then FlushSpec(s2, now) else s2
  }

  predicate NeedFlush(s: State, now: int) {
    s.bytesSinceFlush >= FlushBytesThreshold || now - s.lastFlush >= FlushIntervalMs
  }

  function PeriodicSpec(cfg: LogConfig, s: State, now: int): State {
    if cfg.toFile && s.isOpen && NeedFlush(s, now) then FlushSpec(s, now) else s
  }

  /** The flush after the loop: only the stream, not the counters. */
  function FinalFlushSpec(cfg: LogConfig, s: State): State {
    if cfg.toFile && s.isOpen then s.(flushed := s.flushed + s.buffered, buffered := 0) else s
  }

  /** One pass of the consumer loop and whether the loop ends. */
  function IterationSpec(cfg: LogConfig, s: State, now: int, e1: OpenEnv, e2: OpenEnv): (State, bool) {
    if s.exitFlag && |s.queue| == 0 then (FinalFlushSpec(cfg, s), true)
    else
      var s1 := if |s.queue| > 0 then HandleTaskSpec(cfg, s.(queue := s.queue[1..]), s.queue[0], now, e1, e2) else s;
      (PeriodicSpec(cfg, s1, now), false)
  }

  // ---------------------------------------------------------------------
  // Properties of the transitions

  /** `q2` is `q1` with at most `k` tasks appended, all of them INFO. */
  predicate GrowsByInfo(q1: seq<LogTask>, q2: seq<LogTask>, k: nat) {
    q1 <= q2 && |q2| <= |q1| + k && forall i :: |q1| <= i < |q2| ==> q2[i].level == Info
  }

  lemma GrowsByInfoTrans(a: seq<LogTask>, b: seq<LogTask>, c: seq<LogTask>, k1: nat, k2: nat)
    requires GrowsByInfo(a, b, k1) && GrowsByInfo(b, c, k2)
    ensures GrowsByInfo(a, c, k1 + k2)
  {
    assert forall i :: 0 <= i < |a| ==> a[i] == b[i] == c[i];
  }

  /** A record that goes out of scope adds at most one task, at the back:
      the record rendered from its level, call site, text and time. */
  lemma LogSpecShape(cfg: LogConfig, q: seq<LogTask>, level: LogLevel, site: Option<Callsite>,
                     text: string, time: DateTime)
    ensures var r := LogSpec(cfg, q, level, site, text, time);
      r == q || r == q + [LogTask(level, RenderLine(level, site, text, time))]
    ensures !cfg.enable || !Admits(cfg.level, level) ==> LogSpec(cfg, q, level, site, text, time) == q
    ensures cfg.enable && Admits(cfg.level, level) && |q| < cfg.maxQueueSize
            ==> LogSpec(cfg, q, level, site, text, time) == q + [LogTask(level, RenderLine(level, site, text, time))]
  {
    var r := LogSpec(cfg, q, level, site, text, time);
    if cfg.enable && Admits(cfg.level, level) {
      PushShape(cfg, q, LogTask(level, RenderLine(level, site, text, time)));
    }
  }

  /** Opening a new file announces its path in an INFO record without a
      call site, and the announcement reads back as that message. */
  lemma AnnounceRecord(cfg: LogConfig, s: State, env: OpenEnv)
    requires cfg.enable && Admits(cfg.level, Info) && |s.queue| < cfg.maxQueueSize
    ensures var r := CreateSpec(cfg, s, env);
      var line := RenderLine(Info, None, AnnounceText(r.fileName), env.clock);
      && r.queue == s.queue + [LogTask(Info, line)]
      && ParseLine(line) == Some(ParsedLine(TimeText(env.clock), "INFO", None, AnnounceText(r.fileName)))
  {
    var name := FilePathFor(cfg.logPath, cfg.baseName, env.clock);
    var msg := AnnounceText(name);
    assert msg[|msg| - 1] == 'g';
    StripTrailingUnique(msg, |msg|);
    assert msg[..|msg|] == msg;
    LogSpecShape(cfg, s.queue, Info, None, AnnounceText(name), env.clock);
    ParseRenderLine(Info, None, AnnounceText(name), env.clock);
  }

  /** `createNewLogFile` names the file after the clock; a successful open
      starts the counters from the file's existing size with nothing
      buffered, a failed one leaves the file closed with size 0. Either way
      at most the announcement is queued. */
  lemma CreateSpecFacts(cfg: LogConfig, s: State, env: OpenEnv)
    ensures var r := CreateSpec(cfg, s, env);
      && r.fileName == cfg.logPath + FileNameFor(cfg.baseName, env.clock)
      && IsLogFileName(cfg.baseName, FileNameFor(cfg.baseName, env.clock))
      && (env.opens ==> r.isOpen && r.currentSize == env.existingSize && r.openedSize == env.existingSize
                        && r.bytesSinceFlush == 0 && r.buffered == 0)
      && (!env.opens ==> !r.isOpen && r.currentSize == 0)
      && r.removed == s.removed && r.lastFlush == s.lastFlush && r.exitFlag == s.exitFlag
      && GrowsByInfo(s.queue, r.queue, 1)
      && Inv(cfg, r)
  {
    var name := FilePathFor(cfg.logPath, cfg.baseName, env.clock);
    GeneratedNameMatches(cfg.baseName, env.clock);
    LogSpecShape(cfg, s.queue, Info, None, AnnounceText(name), env.clock);
  }

  /** `rotate` does nothing below the cap; at or above it the file is
      flushed and closed, the cleanup runs and a new file is started. */
  lemma RotateSpecFacts(cfg: LogConfig, s: State, env: OpenEnv)
    ensures s.currentSize < cfg.maxFileSize ==> RotateSpec(cfg, s, env) == s
    ensures s.currentSize >= cfg.maxFileSize ==>
      var r := RotateSpec(cfg, s, env);
      && r.fileName == FilePathFor(cfg.logPath, cfg.baseName, env.clock)
      && r.removed == s.removed + Names(CleanupSelection(cfg.maxLogsTotalSize, cfg.baseName, env.dir))
      && (env.opens ==> r.isOpen && r.currentSize == env.existingSize && r.bytesSinceFlush == 0)
      && (!env.opens ==> !r.isOpen && r.currentSize == 0)
      && GrowsByInfo(s.queue, r.queue, 1)
      && Inv(cfg, r)
  {
    if s.currentSize >= cfg.maxFileSize {
      var c := CleanupSpec(cfg, if s.isOpen then CloseSpec(s) else s, env.dir);
      CreateSpecFacts(cfg, c, env);
    }
  }

  /** Writing a record with the file open: below the cap the record stays in
      the same file, whose size and unflushed count grow by exactly its byte
      length; reaching the cap rotates, and a file that was opened below the
      cap is then closed at a size below the cap plus that record. */
  lemma WriteAccounting(cfg: LogConfig, s: State, t: LogTask, e2: OpenEnv)
    requires s.isOpen && Inv(cfg, s)
    ensures var n := ByteLength(t.text);
      var w := WriteSpec(s, t);
      var r := RotateSpec(cfg, w, e2);
      && w.currentSize == s.currentSize + n && w.bytesSinceFlush == s.bytesSinceFlush + n
      && w.flushed + w.buffered == s.flushed + s.buffered + n
      && (s.currentSize + n < cfg.maxFileSize ==> r == w && r.fileName == s.fileName)
      && (s.currentSize + n >= cfg.maxFileSize ==>
            r.fileName == FilePathFor(cfg.logPath, cfg.baseName, e2.clock)
            && (s.openedSize < cfg.maxFileSize ==>
                  w.currentSize < cfg.maxFileSize + n && w.flushed + w.buffered == w.currentSize))
      && Inv(cfg, r)
  {
    RotateSpecFacts(cfg, WriteSpec(s, t), e2);
  }

  /** The file part of taking a task keeps the invariant, queues at most
      the two announcements, writes nothing when the open fails, and after an
      ERROR (or lower) record leaves nothing counted as unflushed. */
  lemma HandleTaskFacts(cfg: LogConfig, s: State, t: LogTask, now: int, e1: OpenEnv, e2: OpenEnv)
    requires Inv(cfg, s)
    ensures var r := HandleTaskSpec(cfg, s, t, now, e1, e2);
      && Inv(cfg, r)
      && GrowsByInfo(s.queue, r.queue, 2)
      && (!cfg.toFile ==> r == s)
      && (cfg.toFile && !s.isOpen && !e1.opens ==>
            !r.isOpen && r.currentSize == 0 && r.flushed == s.flushed && r.buffered == s.buffered
            && r.bytesSinceFlush == s.bytesSinceFlush)
      && (cfg.toFile && OpenOnceSpec(cfg, s, e1).isOpen && t.level.Rank() <= Error.Rank() ==>
            r.bytesSinceFlush == 0 && r.lastFlush == now && r.buffered == 0)
  {
    if cfg.toFile {
      var s1 := OpenOnceSpec(cfg, s, e1);
      if !s.isOpen {
        CreateSpecFacts(cfg, CleanupSpec(cfg, s, e1.dir), e1);
      }
      assert GrowsByInfo(s.queue, s1.queue, 1);
      if s1.isOpen {
        WriteAccounting(cfg, s1, t, e2);
        var s2 := RotateSpec(cfg, WriteSpec(s1, t), e2);
        RotateSpecFacts(cfg, WriteSpec(s1, t), e2);
        GrowsByInfoTrans(s.queue, s1.queue, s2.queue, 1, 1);
      } else {
        assert GrowsByInfo(s.queue, s1.queue, 2);
      }
    } else {
      assert GrowsByInfo(s.queue, s.queue, 2);
    }
  }

  /** One pass: the loop ends exactly when a stop was requested and the
      queue is empty, and then only the final flush happens. Otherwise the
      oldest task is taken from the front (anything queued meanwhile is an
      INFO announcement at the back), the invariant is kept, and an open
      file ends the pass with fewer than 32768 bytes counted as unflushed and
      its last flush less than 1000 ms ago. */
  lemma IterationFacts(cfg: LogConfig, s: State, now: int, e1: OpenEnv, e2: OpenEnv)
    requires Inv(cfg, s)
    ensures var (r, exit) := IterationSpec(cfg, s, now, e1, e2);
      && (exit <==> s.exitFlag && |s.queue| == 0)
      && (exit ==> r.queue == s.queue && r.isOpen == s.isOpen && r.flushed + r.buffered == s.flushed + s.buffered
                   && (cfg.toFile && s.isOpen ==> r.buffered == 0))
      && Inv(cfg, r)
      && (!exit && |s.queue| == 0 ==> r.queue == s.queue)
      && (!exit && |s.queue| > 0 ==> GrowsByInfo(s.queue[1..], r.queue, 2))
      && (!exit && cfg.toFile && r.isOpen ==>
            r.bytesSinceFlush < FlushBytesThreshold && r.buffered < FlushBytesThreshold
            && now - r.lastFlush < FlushIntervalMs)
  {
    if !(s.exitFlag && |s.queue| == 0) && |s.queue| > 0 {
      HandleTaskFacts(cfg, s.(queue := s.queue[1..]), s.queue[0], now, e1, e2);
    }
  }

  /** An explicit flush and the periodic check keep the invariant; after a
      flush of an open file nothing is counted as unflushed. */
  lemma FlushKeepsInv(cfg: LogConfig, s: State, now: int)
    requires Inv(cfg, s)
    ensures Inv(cfg, FlushSpec(s, now)) && Inv(cfg, PeriodicSpec(cfg, s, now))
    ensures s.isOpen ==> FlushSpec(s, now).buffered == 0 && FlushSpec(s, now).flushed == s.currentSize
  {
  }

  /** Cleanup only records deletions of matching log files and changes
      nothing else. */
  lemma CleanupSpecFacts(cfg: LogConfig, s: State, dir: seq<Entry>)
    ensures var r := CleanupSpec(cfg, s, dir);
      && s.removed <= r.removed
      && (forall i :: |s.removed| <= i < |r.removed| ==> IsLogFileName(cfg.baseName, r.removed[i]))
      && r.(removed := s.removed) == s
      && (cfg.maxLogsTotalSize == 0 ==> r == s)
  {
    var d := CleanupSelection(cfg.maxLogsTotalSize, cfg.baseName, dir);
    CleanupDeletesOnlyLogs(cfg.maxLogsTotalSize, cfg.baseName, dir);
    var r := CleanupSpec(cfg, s, dir);
    forall i | |s.removed| <= i < |r.removed| ensures IsLogFileName(cfg.baseName, r.removed[i]) {
      assert r.removed[i] == d[i - |s.removed|].name;
      assert d[i - |s.removed|] in d;
    }
  }

  class Logger {
    const cfg: LogConfig
    var queue: seq<LogTask>
    var exitFlag: bool
    var isOpen: bool
    var currentFileName: string
    var currentSize: nat
    var bytesSinceFlush: nat
    var lastFlush: int
    var flushed: nat
    var buffered: nat
    var openedSize: nat
    var removed: seq<string>

    function Snapshot(): State
      reads this
    {
      State(queue, exitFlag, isOpen, currentFileName, currentSize, bytesSinceFlush, lastFlush,
            flushed, buffered, openedSize, removed)
    }

    predicate Valid()
      reads this
    {
      Inv(cfg, Snapshot())
    }

    /** A logger with the given configuration whose consumer started at
        `start` milliseconds; no file is open and the queue is empty. */
    constructor(c: LogConfig, start: int)
      ensures cfg == c && Snapshot() == Initial(start) && Valid()
    {
      cfg := c;
      queue := [];
      exitFlag := false;
      isOpen := false;
      currentFileName := "";
      currentSize := 0;
      bytesSinceFlush := 0;
      lastFlush := start;
      flushed := 0;
      buffered := 0;
      openedSize := 0;
      removed := [];
    }

    /** `Logger::push`. */
    method Push(level: LogLevel, text: string) returns (o: PushOutcome)
      modifies this
      ensures o == PushDecision(cfg, |old(queue)|, level)
      ensures Snapshot() == old(Snapshot()).(queue := AfterPush(old(queue), o, LogTask(level, text)))
    {
      if !cfg.enable || level.Rank() > cfg.level.Rank() {
        return Filtered;
      }
      if |queue| >= cfg.maxQueueSize {
        if cfg.queuePolicy == "drop" {
          return Dropped;
        }
        if cfg.queuePolicy == "warn" {
          return DroppedWithWarning;
        }
        if cfg.queuePolicy == "block" {
          return Waits;
        }
      }
      queue := queue + [LogTask(level, text)];
      o := Enqueued;
    }

    /** A `LogLine` going out of scope: render the record and push it. */
    method Log(level: LogLevel, site: Option<Callsite>, text: string, time: DateTime)
      modifies this
      ensures Snapshot() == old(Snapshot()).(queue := LogSpec(cfg, old(queue), level, site, text, time))
    {
      var line := FinishLine(cfg.enable, cfg.level, level, site, text, time);
      if line.Some? {
        var _ := Push(level, line.value);
      }
    }

    /** `cleanupOldLogFiles` against a snapshot of the log directory. */
    method CleanupOldLogFiles(dir: seq<Entry>)
      modifies this
      ensures Snapshot() == CleanupSpec(cfg, old(Snapshot()), dir)
    {
      var deleted := Cleanup(cfg.maxLogsTotalSize, cfg.baseName, dir);
      var i := 0;
      ghost var removed0 := removed;
      while i < |deleted|
        invariant 0 <= i <= |deleted|
        invariant removed == removed0 + Names(deleted[..i])
        invariant Snapshot() == old(Snapshot()).(removed := removed)
      {
        assert Names(deleted[..i + 1]) == Names(deleted[..i]) + [deleted[i].name];
        removed := removed + [deleted[i].name];
        i := i + 1;
      }
      assert deleted[..i] == deleted;
    }

    method CreateNewLogFile(env: OpenEnv)
      modifies this
      ensures Snapshot() == CreateSpec(cfg, old(Snapshot()), env)
      ensures Valid()
    {
      CreateSpecFacts(cfg, Snapshot(), env);
      currentFileName := FilePathFor(cfg.logPath, cfg.baseName, env.clock);
      Log(Info, None, AnnounceText(currentFileName), env.clock);
      isOpen := env.opens;
      if !isOpen {
        currentSize := 0;
        return;
      }
      flushed := env.existingSize;
      buffered := 0;
      openedSize := env.existingSize;
      currentSize := env.existingSize;
      bytesSinceFlush := 0;
    }

    method OpenFileOnce(env: OpenEnv)
      modifies this
      ensures Snapshot() == OpenOnceSpec(cfg, old(Snapshot()), env)
    {
      if isOpen {
        return;
      }
      CleanupOldLogFiles(env.dir);
      CreateNewLogFile(env);
    }

    method Rotate(env: OpenEnv)
      modifies this
      ensures Snapshot() == RotateSpec(cfg, old(Snapshot()), env)
    {
      if currentSize < cfg.maxFileSize {
        return;
      }
      if isOpen {
        flushed := flushed + buffered;
        buffered := 0;
        isOpen := false;
      }
      CleanupOldLogFiles(env.dir);
      CreateNewLogFile(env);
    }

    /** Appends the record text to the file and counts its bytes. */
    method Write(task: LogTask)
      modifies this
      ensures Snapshot() == WriteSpec(old(Snapshot()), task)
    {
      var n := ByteLength(task.text);
      currentSize := currentSize + n;
      bytesSinceFlush := bytesSinceFlush + n;
      buffered := buffered + n;
    }

    method Flush(now: int)
      modifies this
      ensures Snapshot() == FlushSpec(old(Snapshot()), now)
    {
      if isOpen {
        flushed := flushed + buffered;
        buffered := 0;
      }
      bytesSinceFlush := 0;
      lastFlush := now;
    }

    /** The file part of handling the task taken from the queue. */
    method HandleTask(task: LogTask, now: int, e1: OpenEnv, e2: OpenEnv)
      modifies this
      ensures Snapshot() == HandleTaskSpec(cfg, old(Snapshot()), task, now, e1, e2)
      ensures old(Valid()) ==> Valid()
    {
      if Valid() {
        HandleTaskFacts(cfg, Snapshot(), task, now, e1, e2);
      }
      if !cfg.toFile {
        return;
      }
      OpenFileOnce(e1);
      if !isOpen {
        return;
      }
      Write(task);
      Rotate(e2);
      if task.level.Rank() <= Error.Rank() {
        Flush(now);
      }
    }

    /** The flush check at the end of a pass. */
    method PeriodicFlush(now: int)
      modifies this
      ensures Snapshot() == PeriodicSpec(cfg, old(Snapshot()), now)
      ensures old(Valid()) ==> Valid()
    {
      if Valid() {
        FlushKeepsInv(cfg, Snapshot(), now);
      }
      if cfg.toFile && isOpen {
        var needFlush := false;
        if bytesSinceFlush >= FlushBytesThreshold {
          needFlush := true;
        } else if now - lastFlush >= FlushIntervalMs {
          needFlush := true;
        }
        if needFlush {
          Flush(now);
        }
      }
    }

    /** One pass of `workerThread`: returns true when the loop ends. `now` is
        the steady clock in milliseconds; `e1` and `e2` are what the
        environment supplies to the open and to a rotation. */
    method WorkerIteration(now: int, e1: OpenEnv, e2: OpenEnv) returns (exit: bool)
      modifies this
      ensures (Snapshot(), exit) == IterationSpec(cfg, old(Snapshot()), now, e1, e2)
      ensures old(Valid()) ==> Valid()
    {
      if Valid() {
        IterationFacts(cfg, Snapshot(), now, e1, e2);
      }
      if exitFlag && |queue| == 0 {
        if cfg.toFile && isOpen {
          flushed := flushed + buffered;
          buffered := 0;
        }
        return true;
      }
      exit := false;
      if |queue| > 0 {
        var task := queue[0];
        queue := queue[1..];
        HandleTask(task, now, e1, e2);
      }
      PeriodicFlush(now);
    }

    /** The first half of `stop`: ask the consumer to finish. */
    method RequestStop()
      modifies this
      ensures Snapshot() == old(Snapshot()).(exitFlag := true)
    {
      exitFlag := true;
    }

    /** The second half of `stop`, once the consumer has ended: close the
        file, which flushes what is still buffered. */
    method CloseFile()
      modifies this
      ensures Snapshot() == if old(isOpen) then CloseSpec(old(Snapshot())) else old(Snapshot())
    {
      if isOpen {
        flushed := flushed + buffered;
        buffered := 0;
        isOpen := false;
      }
    }
  }
}
