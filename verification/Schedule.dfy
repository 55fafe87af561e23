/** The slowest timetable a full queue allows. Workers finish in turn, one at each beat. While a batch
    is handed over each beat makes room for one send, and comes as late as that send or the worker
    may; afterwards every worker takes the longest it may for every task. */
module Schedule {
  import opened Arithmetic
  import opened Models
  import opened Lease

  /** When the n-th task is finished, counting from the first one a worker holds when the batch is claimed. */
  function Beat(cfg: Config, n: int): nat
    requires cfg.Valid()
    decreases if n < 0 then 0 else n
  {
    if n <= 0 then 0
    else if n <= cfg.batchSize then SendsBound(cfg, n)
    else Beat(cfg, n - cfg.workers) + cfg.TaskTimeout()
  }

  /** No send waits longer than it may, nor the first one for longer than the reply to the claim takes. */
  lemma BeatOfSend(cfg: Config, n: nat)
    requires cfg.Valid() && n < cfg.batchSize
    ensures DB_TIMEOUT <= Beat(cfg, n + 1) && Beat(cfg, n) <= Beat(cfg, n + 1)
    ensures Beat(cfg, n + 1) <= (if n == 0 then DB_TIMEOUT else Beat(cfg, n)) + cfg.enqueueTimeout
  {
    SendsBoundNext(cfg, n);
    if 0 < n {
      SendsBoundNext(cfg, n - 1);
    }
  }

  /** No task takes longer than a worker may be busy. */
  lemma BeatGap(cfg: Config, n: int)
    requires cfg.Valid() && 0 < n
    ensures Beat(cfg, n) <= Beat(cfg, n - cfg.workers) + cfg.TaskTimeout()
  {
    if n <= cfg.batchSize {
      assert SendsBound(cfg, RoundBefore(cfg, n)) == Beat(cfg, n - cfg.workers);
    }
  }

  lemma {:induction false} BeatRises(cfg: Config, n: int)
    requires cfg.Valid()
    ensures Beat(cfg, n) <= Beat(cfg, n + 1)
    decreases if n < 0 then 0 else n
  {
    if 0 <= n < cfg.batchSize {
      BeatOfSend(cfg, n);
    } else if n == cfg.batchSize {
      BeatGap(cfg, n);
      BeatRises(cfg, n - cfg.workers);
    } else if cfg.batchSize < n {
      BeatRises(cfg, n - cfg.workers);
    }
  }

  lemma {:induction false} BeatRisesTo(cfg: Config, m: int, n: int)
    requires cfg.Valid() && m <= n
    ensures Beat(cfg, m) <= Beat(cfg, n)
    decreases n - m
  {
    if m < n {
      BeatRisesTo(cfg, m, n - 1);
      BeatRises(cfg, n - 1);
    }
  }

  /** Past the batch the timetable repeats itself every TaskTimeout. */
  lemma {:induction false} BeatRepeats(cfg: Config, n: int, rounds: nat)
    requires cfg.Valid() && cfg.batchSize < n + cfg.workers
    ensures Beat(cfg, n + rounds * cfg.workers) == Beat(cfg, n) + rounds * cfg.TaskTimeout()
  {
    if rounds > 0 {
      BeatRepeats(cfg, n, rounds - 1);
      TimesNext(rounds - 1, cfg.workers);
      TimesNext(rounds - 1, cfg.TaskTimeout());
      TimesMonotone(1, rounds, cfg.workers);
      hide Config.TaskTimeout;
    }
  }

  /** The tasks of the timetable: those the workers hold, those queued, and the batch. */
  function TaskCount(cfg: Config): nat {
    cfg.workers + cfg.queueSize + cfg.batchSize
  }

  /** The timetable takes all the time the bound on a hold allows. */
  lemma LastBeat(cfg: Config)
    requires cfg.Valid()
    ensures Beat(cfg, TaskCount(cfg)) == HoldBound(cfg)
  {
    RoundsCoverQueue(cfg);
    TimesNext(Rounds(cfg), cfg.workers);
    var slack, rounds := Slack(cfg), Rounds(cfg);
    assert slack < cfg.workers && TaskCount(cfg) == cfg.batchSize - slack + (rounds + 1) * cfg.workers;
    hide Rounds, Slack;
    BeatRepeats(cfg, cfg.batchSize - slack, rounds + 1);
  }
}
