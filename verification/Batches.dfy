/** What a pending batch keeps of the post it came from, and what a failed write of it gives back. */
module Batches {
  import opened Sequences
  import opened Events
  import opened ProxyCore
  import opened Protocol
  import opened Pipeline

  /** The batch holds the end of the post `origin`, with the wake-up count of all of it. */
  predicate ComesFrom(sensors: SensorMap, b: Batch, origin: seq<Event>) {
    b.wakeups == CountWake(sensors, origin) && IsSuffix(b.events, origin)
  }

  ghost predicate AllComeFrom(sensors: SensorMap, pending: seq<Batch>, origins: seq<seq<Event>>) {
    && |origins| == |pending|
    && forall i :: 0 <= i < |pending| ==> ComesFrom(sensors, pending[i], origins[i])
  }

  ghost predicate OriginsOk(cfg: Config, w: World) {
    AllComeFrom(cfg.sensors, w.core.pending, w.log.origins)
  }

  /** How a post ends: what it did not write at once is queued as one batch with the wake-up count of the whole
      post, if there is some and there is room; otherwise nothing is queued. */
  lemma RestIsQueued(cfg: Config, w: World)
    requires QueueInv(cfg, w) && Enabled(cfg, w, PostLeave)
    ensures var after := Next(cfg, w, PostLeave);
            var Written(sent, left, _) := w.producer;
            if left != [] && w.core.size + |left| <= cfg.cap then
              && after.core.pending == w.core.pending + [Batch(left, CountWake(cfg.sensors, sent + left))]
              && after.core.size == w.core.size + |left|
              && after.log.origins == w.log.origins + [sent + left]
            else
              after.core == w.core && after.log.origins == w.log.origins
  {}

  lemma OriginsAfterLeave(cfg: Config, w: World)
    requires QueueInv(cfg, w) && OriginsOk(cfg, w) && Enabled(cfg, w, PostLeave)
    ensures OriginsOk(cfg, Next(cfg, w, PostLeave))
  {
    RestIsQueued(cfg, w);
    var Written(sent, left, wakeups) := w.producer;
    assert ComesFrom(cfg.sensors, Batch(left, wakeups), sent + left);
  }

  lemma TailComesFrom(sensors: SensorMap, pending: seq<Batch>, origins: seq<seq<Event>>)
    requires pending != [] && AllComeFrom(sensors, pending, origins)
    ensures AllComeFrom(sensors, pending[1..], origins[1..])
  {
    forall i | 0 <= i < |pending| - 1 ensures ComesFrom(sensors, pending[1..][i], origins[1..][i]) {
      assert pending[1..][i] == pending[i + 1] && origins[1..][i] == origins[i + 1];
    }
  }

  lemma PrependComesFrom(
    sensors: SensorMap, b: Batch, origin: seq<Event>, pending: seq<Batch>, origins: seq<seq<Event>>)
    requires ComesFrom(sensors, b, origin) && AllComeFrom(sensors, pending, origins)
    ensures AllComeFrom(sensors, [b] + pending, [origin] + origins)
  {
    forall i | 0 <= i <= |pending| ensures ComesFrom(sensors, ([b] + pending)[i], ([origin] + origins)[i]) {
      assert i > 0 ==> ([b] + pending)[i] == pending[i - 1] && ([origin] + origins)[i] == origins[i - 1];
    }
  }

  lemma ChunkDropped(sensors: SensorMap, pending: seq<Batch>, origins: seq<seq<Event>>, quantum: nat)
    requires pending != [] && AllComeFrom(sensors, pending, origins)
    ensures AllComeFrom(sensors, DropChunk(pending, quantum),
                        if |pending[0].events| > quantum then origins else origins[1..])
  {
    var front := pending[0];
    TailComesFrom(sensors, pending, origins);
    if |front.events| > quantum {
      SuffixDrop(front.events, origins[0], quantum);
      PrependComesFrom(sensors, front.(events := front.events[quantum..]), origins[0], pending[1..], origins[1..]);
      assert [origins[0]] + origins[1..] == origins;
    }
  }

  lemma OriginsAfterCommit(cfg: Config, w: World)
    requires QueueInv(cfg, w) && OriginsOk(cfg, w) && Enabled(cfg, w, WriterCommit)
    ensures OriginsOk(cfg, Next(cfg, w, WriterCommit))
  {
    ChunkDropped(cfg.sensors, w.core.pending, w.log.origins, w.quantum);
    var after := Next(cfg, w, WriterCommit);
    assert after.core.pending == DropChunk(w.core.pending, w.quantum);
  }

  lemma OriginsFrame(cfg: Config, w: World, l: Label)
    requires Enabled(cfg, w, l) && !l.PostLeave? && !l.WriterCommit? && !l.Restart?
    ensures Next(cfg, w, l).core.pending == w.core.pending && Next(cfg, w, l).log.origins == w.log.origins
  {}

  lemma OriginsStep(cfg: Config, w: World, l: Label)
    requires QueueInv(cfg, w) && OriginsOk(cfg, w) && Enabled(cfg, w, l)
    ensures OriginsOk(cfg, Next(cfg, w, l))
  {
    match l
    case PostLeave => OriginsAfterLeave(cfg, w);
    case WriterCommit => OriginsAfterCommit(cfg, w);
    case Restart(_, _) =>
    case _ => OriginsFrame(cfg, w, l);
  }

  lemma {:induction false} RunKeepsOrigins(cfg: Config, run: seq<Move>)
    requires Exec(cfg, run).Some?
    ensures QueueInv(cfg, Exec(cfg, run).value) && OriginsOk(cfg, Exec(cfg, run).value)
  {
    RunKeepsOrder(cfg, run);
    if run != [] {
      var m := run[|run| - 1];
      RunKeepsOrigins(cfg, run[..|run| - 1]);
      var w := Exec(cfg, run[..|run| - 1]).value;
      if m.Late? {
        OriginsFrame(cfg, Resumed(w), m.step);
      } else {
        OriginsStep(cfg, w, m.step);
      }
    }
  }

  /** In every reachable state each pending batch is the end of one post, stored with the wake-up count of that whole
      post; a batch that is its whole post is stored with its own. */
  lemma BatchesKeepTheirPost(cfg: Config, w: World, i: nat)
    requires Reachable(cfg, w) && i < |w.core.pending|
    ensures i < |w.log.origins|
    ensures var b := w.core.pending[i];
            var origin := w.log.origins[i];
            && |b.events| <= |origin| && b.events == origin[|origin| - |b.events|..]
            && b.wakeups == CountWake(cfg.sensors, origin)
  {
    var run :| Exec(cfg, run) == Some(w);
    RunKeepsOrigins(cfg, run);
  }

  lemma RefundTakes(cfg: Config, w: World)
    requires w.core.running && Enabled(cfg, w, WriterRefund)
    ensures Next(cfg, w, WriterRefund).core.refCount
         == Monus(w.core.refCount, Refund(cfg.sensors, w.writer.front, w.quantum))
  {}

  /** The count goes from `before` to `after` when the chunk in front of `front`, the end of the post `origin`, fails:
      the last chunk of a batch gives back the wake-up events of the whole post, and an earlier chunk its own. */
  ghost predicate GivesBack(
    sensors: SensorMap, before: nat, after: nat, front: seq<Event>, origin: seq<Event>, quantum: nat)
  {
    && |front| <= |origin| && front == origin[|origin| - |front|..]
    && (|front| > quantum ==> after == Monus(before, CountWake(sensors, front[..quantum])))
    && (|front| <= quantum ==>
          after == Monus(before, CountWake(sensors, origin[..|origin| - |front|]) + CountWake(sensors, front)))
    && (|front| <= quantum && front == origin ==> after == Monus(before, CountWake(sensors, front)))
  }

  lemma RefundAmount(sensors: SensorMap, front: Batch, quantum: nat)
    requires CountWake(sensors, front.events) <= front.wakeups
    ensures |front.events| > quantum ==> Refund(sensors, front, quantum) == CountWake(sensors, front.events[..quantum])
    ensures |front.events| <= quantum ==> Refund(sensors, front, quantum) == front.wakeups
  {
    if |front.events| > quantum {
      CountWakeSplit(sensors, front.events, quantum);
    }
  }

  lemma OriginParts(sensors: SensorMap, front: seq<Event>, origin: seq<Event>)
    requires IsSuffix(front, origin)
    ensures CountWake(sensors, origin)
         == CountWake(sensors, origin[..|origin| - |front|]) + CountWake(sensors, front)
    ensures front == origin ==> CountWake(sensors, origin[..|origin| - |front|]) == 0
  {
    CountWakeSplit(sensors, origin, |origin| - |front|);
  }

  lemma StoredRefund(sensors: SensorMap, before: nat, front: Batch, origin: seq<Event>, quantum: nat)
    requires ComesFrom(sensors, front, origin)
    ensures GivesBack(sensors, before, Monus(before, Refund(sensors, front, quantum)), front.events, origin, quantum)
  {
    OriginParts(sensors, front.events, origin);
    RefundAmount(sensors, front, quantum);
  }

  lemma FrontHasOrigin(cfg: Config, w: World)
    requires Reachable(cfg, w) && w.writer.Failed?
    ensures w.log.origins != [] && ComesFrom(cfg.sensors, w.writer.front, w.log.origins[0])
  {
    var run :| Exec(cfg, run) == Some(w);
    RunKeepsOrigins(cfg, run);
    assert w.core.pending[0] == w.writer.front;
  }

  /** In every reachable state, what a failed write gives back is so: a refund exceeds the lost wake-up events by
      exactly those in the part of the post that was dealt with before, and not at all for a post that
      was queued whole and fits one chunk. */
  lemma RefundIsOfWholePost(cfg: Config, w: World)
    requires Reachable(cfg, w) && w.core.running && w.writer.Failed?
    ensures w.log.origins != []
    ensures GivesBack(cfg.sensors, w.core.refCount, Next(cfg, w, WriterRefund).core.refCount,
                      w.writer.front.events, w.log.origins[0], w.quantum)
  {
    FrontHasOrigin(cfg, w);
    RefundTakes(cfg, w);
    StoredRefund(cfg.sensors, w.core.refCount, w.writer.front, w.log.origins[0], w.quantum);
  }

  /** The high-water mark is the largest size so far. */
  lemma HighWaterStep(cfg: Config, w: World, l: Label)
    requires QueueInv(cfg, w) && Enabled(cfg, w, l)
    ensures var after := Next(cfg, w, l).core;
            after.most == if after.size > w.core.most then after.size else w.core.most
  {
    QueueStep(cfg, w, l);
    if l.WriterCommit? {
      CommitKeepsCounters(w.core, cfg.cap, w.quantum);
    }
  }

  /** The largest size of the pending queue in a run. */
  function LargestSize(cfg: Config, run: seq<Move>): int
    requires Exec(cfg, run).Some?
  {
    var size := Exec(cfg, run).value.core.size;
    if run == [] then size
    else
      var before := LargestSize(cfg, run[..|run| - 1]);
      if size > before then size else before
  }

  lemma {:induction false} HighWaterMark(cfg: Config, run: seq<Move>)
    requires Exec(cfg, run).Some?
    ensures Exec(cfg, run).value.core.most == LargestSize(cfg, run)
  {
    if run != [] {
      var m := run[|run| - 1];
      HighWaterMark(cfg, run[..|run| - 1]);
      RunKeepsOrder(cfg, run[..|run| - 1]);
      var w := Exec(cfg, run[..|run| - 1]).value;
      if m.Late? {
        QueueInvBlind(cfg, w, Resumed(w));
        HighWaterStep(cfg, Resumed(w), m.step);
      } else {
        HighWaterStep(cfg, w, m.step);
      }
    }
  }
}
