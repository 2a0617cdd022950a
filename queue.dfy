/** The producer side of the task queue: the filter, the capacity test and
    the overflow policies `drop`, `warn` and `block`. Waiting under `block`
    is modelled as an outcome that leaves the queue unchanged; the task is
    appended only by a call that finds room. */
module TaskQueue {
  import opened Levels
  import opened Config

  /** A queued record: its level and its rendered text. */
  datatype LogTask = LogTask(level: LogLevel, text: string)

  /** What one call of `push` does with its task. */
  datatype PushOutcome =
    | Filtered            // logging disabled or the level fails the threshold
    | Dropped             // queue full, policy "drop"
    | DroppedWithWarning  // queue full, policy "warn": a warning goes to stderr
    | Waits               // queue full, policy "block": the caller waits for room
    | Enqueued            // appended at the back

  function PushDecision(cfg: LogConfig, size: nat, level: LogLevel): (o: PushOutcome)
  {
    if !cfg.enable || level.Rank() > cfg.level.Rank() then Filtered
    else if size >= cfg.maxQueueSize then
      if cfg.queuePolicy == "drop" then Dropped
      else if cfg.queuePolicy == "warn" then DroppedWithWarning
      else if cfg.queuePolicy == "block" then Waits
      else Enqueued
    else Enqueued
  }

  /** The queue after a call with the given outcome. */
  function AfterPush(q: seq<LogTask>, o: PushOutcome, t: LogTask): (r: seq<LogTask>)
  {
    if o == Enqueued then q + [t] else q
  }

  function PushOne(cfg: LogConfig, q: seq<LogTask>, t: LogTask): seq<LogTask> {
    AfterPush(q, PushDecision(cfg, |q|, t.level), t)
  }

  /** One producer pushing its tasks in order, with no consumer in between. */
  function PushAll(cfg: LogConfig, q: seq<LogTask>, ts: seq<LogTask>): seq<LogTask>
    decreases |ts|
  {
    if |ts| == 0 then q else PushAll(cfg, PushOne(cfg, q, ts[0]), ts[1..])
  }

  /** `a` is `b` with some elements left out, the rest in their order. */
  predicate IsSubsequence<T(==)>(a: seq<T>, b: seq<T>)
    decreases |b|
  {
    if |a| == 0 then true
    else if |b| == 0 then false
    else if a[0] == b[0] then IsSubsequence(a[1..], b[1..])
    else IsSubsequence(a, b[1..])
  }

  // ---------------------------------------------------------------------
  // Properties

  /** Filtering comes first: a disabled logger or a level above the threshold
      leaves the queue unchanged whatever its size and policy. */
  lemma PushFiltered(cfg: LogConfig, q: seq<LogTask>, t: LogTask)
    requires !cfg.enable || !Admits(cfg.level, t.level)
    ensures PushDecision(cfg, |q|, t.level) == Filtered
    ensures PushOne(cfg, q, t) == q
  {
  }

  /** Below capacity every admitted task is appended. */
  lemma PushWithRoom(cfg: LogConfig, q: seq<LogTask>, t: LogTask)
    requires cfg.enable && Admits(cfg.level, t.level) && |q| < cfg.maxQueueSize
    ensures PushOne(cfg, q, t) == q + [t]
  {
  }

  /** At capacity: "drop" and "warn" discard the task, "block" waits without
      appending, and any other policy string appends anyway. */
  lemma PushAtCapacity(cfg: LogConfig, q: seq<LogTask>, t: LogTask)
    requires cfg.enable && Admits(cfg.level, t.level) && |q| >= cfg.maxQueueSize
    ensures cfg.queuePolicy == "drop" ==> PushDecision(cfg, |q|, t.level) == Dropped && PushOne(cfg, q, t) == q
    ensures cfg.queuePolicy == "warn" ==> PushDecision(cfg, |q|, t.level) == DroppedWithWarning && PushOne(cfg, q, t) == q
    ensures cfg.queuePolicy == "block" ==> PushDecision(cfg, |q|, t.level) == Waits && PushOne(cfg, q, t) == q
    ensures cfg.queuePolicy !in {"drop", "warn", "block"} ==> PushOne(cfg, q, t) == q + [t]
  {
  }

  /** Under "block" an admitted task is appended exactly when there is room. */
  lemma BlockAppendsIffRoom(cfg: LogConfig, q: seq<LogTask>, t: LogTask)
    requires cfg.enable && Admits(cfg.level, t.level) && cfg.queuePolicy == "block"
    ensures PushOne(cfg, q, t) == q + [t] <==> |q| < cfg.maxQueueSize
    ensures PushOne(cfg, q, t) == q <==> |q| >= cfg.maxQueueSize
  {
    assert |q + [t]| != |q|;
  }

  /** A push either leaves the queue as it was or appends the task at the
      back; the three named policies never take the queue past its bound. */
  lemma PushShape(cfg: LogConfig, q: seq<LogTask>, t: LogTask)
    ensures PushOne(cfg, q, t) == q || PushOne(cfg, q, t) == q + [t]
    ensures PushDecision(cfg, |q|, t.level) == Enqueued <==> PushOne(cfg, q, t) == q + [t]
    ensures cfg.queuePolicy in {"drop", "warn", "block"} && |q| <= cfg.maxQueueSize
            ==> |PushOne(cfg, q, t)| <= cfg.maxQueueSize
  {
    assert |q + [t]| != |q|;
  }

  lemma {:induction false} SubsequenceSkip<T>(a: seq<T>, x: T, b: seq<T>)
    requires IsSubsequence(a, b)
    ensures IsSubsequence(a, [x] + b)
    decreases |b|, 1
  {
    var xb := [x] + b;
    assert xb[1..] == b;
    if |a| > 0 && a[0] == x {
      SubsequenceTail(a, b);
    }
  }

  lemma {:induction false} SubsequenceTail<T>(a: seq<T>, b: seq<T>)
    requires |a| > 0 && IsSubsequence(a, b)
    ensures IsSubsequence(a[1..], b)
    decreases |b|, 0
  {
    assert [b[0]] + b[1..] == b;
    if a[0] == b[0] {
      SubsequenceSkip(a[1..], b[0], b[1..]);
    } else {
      SubsequenceTail(a, b[1..]);
      SubsequenceSkip(a[1..], b[0], b[1..]);
    }
  }

  /** One producer's tasks stay in order: its pushes keep what was already
      queued as a prefix and append a subsequence of its own tasks. */
  lemma {:induction false} PushAllFifo(cfg: LogConfig, q: seq<LogTask>, ts: seq<LogTask>)
    ensures q <= PushAll(cfg, q, ts)
    ensures IsSubsequence(PushAll(cfg, q, ts)[|q|..], ts)
    decreases |ts|
  {
    if |ts| > 0 {
      var q1 := PushOne(cfg, q, ts[0]);
      PushShape(cfg, q, ts[0]);
      PushAllFifo(cfg, q1, ts[1..]);
      var r := PushAll(cfg, q1, ts[1..]);
      assert [ts[0]] + ts[1..] == ts;
      if q1 == q {
        SubsequenceSkip(r[|q|..], ts[0], ts[1..]);
      } else {
        assert r[|q|..][0] == ts[0];
        assert r[|q|..][1..] == r[|q1|..];
      }
    }
  }

  /** With room for all of them, every admitted task is queued, in order. */
  lemma {:induction false} PushAllWithRoom(cfg: LogConfig, q: seq<LogTask>, ts: seq<LogTask>)
    requires cfg.enable && forall i :: 0 <= i < |ts| ==> Admits(cfg.level, ts[i].level)
    requires |q| + |ts| <= cfg.maxQueueSize
    ensures PushAll(cfg, q, ts) == q + ts
    decreases |ts|
  {
    if |ts| > 0 {
      PushWithRoom(cfg, q, ts[0]);
      PushAllWithRoom(cfg, q + [ts[0]], ts[1..]);
      assert q + [ts[0]] + ts[1..] == q + ts;
    } else {
      assert q + ts == q;
    }
  }
}
