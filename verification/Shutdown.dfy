/** The four shutdown phases of cmd/api/main.go, in the whole engine: what a process leaves behind. */
module Shutdown {
  import opened Models
  import opened Process
  import opened Engine
  import opened Ownership

  /** In no run does any process ever send on its closed queue: the pool closes only after the one
      sender has exited. */
  lemma NeverSendsOnClosedQueue(cfg: Config, states: seq<State>, events: seq<Event>, k: nat, i: Id)
    requires cfg.Valid() && Run(cfg, states, events) && states[0] == Initial() && k < |states| && i in states[k].procs
    ensures var p := states[k].procs[i];
            && !p.panicked
            && (p.closed ==> p.disp.Exited?)
            && !Enabled(cfg, p, ByDispatcher(SendOnClosed), states[k].now)
  {
    ReachableBase(cfg, states, events, k);
    NoSendOnClosedQueue(cfg, states[k].procs[i], states[k].now);
  }

  lemma EmptyHandedClaimsNothing(cfg: Config, s: State, i: Id, id: Id)
    requires Base(cfg, s) && i in s.procs && Tasks(s.procs[i]) == multiset{} && s.procs[i].ledger.faults == 0
    requires id in s.rows && s.rows[id].status.Processing?
    ensures id in s.history.claimer && s.history.claimer[id] != i
  {
    EmptyHandedHoldsNoRow(s.procs[i], id);
    hide Tasks, HoldsRow, ProcsBase, TasksBase, EndpointsBase, HistoryBase, RowsBase;
  }

  lemma EmptyHandedHoldsNoRow(p: Proc, id: Id)
    requires Tasks(p) == multiset{}
    ensures !HoldsRow(p, id)
  {
  }

  /** Clean shutdown: when Shutdown has returned nil and none of the process's statements failed,
      every task it ever claimed was reverted or completed, exactly as often as it was claimed, and
      no row it claimed last is still processing. */
  lemma CleanShutdownLeavesNoRows(cfg: Config, states: seq<State>, events: seq<Event>, k: nat, i: Id)
    requires cfg.Valid() && Run(cfg, states, events) && states[0] == Initial() && k < |states|
    requires i in states[k].procs && states[k].procs[i].phase.Drained? && states[k].procs[i].ledger.faults == 0
    ensures var l := states[k].procs[i].ledger; l.claimed == l.reverted + l.completed
    ensures forall id | id in states[k].rows && states[k].rows[id].status.Processing? ::
              id in states[k].history.claimer && states[k].history.claimer[id] != i
  {
    ReachableBase(cfg, states, events, k);
    CleanShutdown(cfg, states[k].procs[i]);
    hide Base, Run;
    forall id | id in states[k].rows && states[k].rows[id].status.Processing?
      ensures id in states[k].history.claimer && states[k].history.claimer[id] != i
    {
      EmptyHandedClaimsNothing(cfg, states[k], i, id);
    }
  }
}
