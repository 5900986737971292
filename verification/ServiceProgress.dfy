/** The application loop never gets stuck: in every run of the service, whatever comes next for a node can be done. */
module ServiceProgress {
  import opened RaftTypes
  import opened LogView
  import opened LogStore
  import opened Limits
  import opened Buffered
  import opened BufferedLog
  import opened BufferedProgress
  import opened Varint
  import opened Publishing
  import opened ApplyLoop
  import opened ServiceSafety

  /** What the loop does next. */
  ghost predicate Turn(x: Replica, a: AppAction) {
    match x.host.stage
    case Idle => a.TakeReady?
    case Accepted => a == Plain(Persist)
    case Stored =>
      match x.phase
      case Fresh => a == Deliver
      case Given => a == if x.appliedIndex > x.host.snapIndex + SNAP_COUNT then Trigger else NoTrigger
      case Snapped => a == Trim
      case Finished => a == Confirm
  }

  /** The longest prefix that fits, found by walking up. */
  lemma {:induction false} LimitExists(ents: seq<Entry>, maxSize: nat, k: nat) returns (r: seq<Entry>)
    requires 1 <= k <= |ents| && (k == 1 || TotalSize(ents[..k]) <= maxSize)
    ensures LimitedTo(ents, maxSize, r)
    decreases |ents| - k
  {
    hide TotalSize, LimitedTo;
    if k < |ents| && TotalSize(ents[..k + 1]) <= maxSize {
      r := LimitExists(ents, maxSize, k + 1);
    } else {
      LimitedAt(ents, maxSize, k);
      r := ents[..k];
    }
  }

  lemma BatchExists(h: Host, cursor: nat, maxSize: nat) returns (batch: seq<Entry>)
    ensures IsBatch(h, cursor, maxSize, batch)
  {
    hide LimitedTo;
    var lo := Max(cursor + 1, BaseOf(h.store, h.unstable) + 1);
    batch := [];
    if lo <= h.vol.committed && h.vol.committed <= |h.vol.log| {
      batch := LimitExists(h.vol.log[lo - 1..h.vol.committed], maxSize, 1);
    }
  }

  /** The service after node v went on to x. */
  function WithReplica(s: Service, v: Id, x: Replica): Service {
    s.(replicas := s.replicas[v := x])
  }

  lemma ReplicaServes(s: Service, v: Id, a: AppAction, x': Replica)
    requires v in s.replicas && AppDoes(s.voters, s.net, s.replicas[v], a, x') && !(a.Plain? && a.a.Send?)
    ensures Serves(s, WithReplica(s, v, x'), v, a)
  {
    hide AppDoes;
    assert WithReplica(s, v, x').replicas[v] == x';
  }

  /** The host of v after the next stage. */
  lemma HostGoesOn(run: seq<Service>, i: nat, v: Id) returns (h': Host)
    requires IsServiceRun(run) && i < |run| && v in run[i].replicas
    ensures var s, h := run[i], run[i].replicas[v].host; Does(s.voters, s.net, h, NextAction(h.stage), h')
  {
    hide IsServiceRun, IsSystemRun, Does;
    RunOfHosts(run);
    var s' := StagesGoOn(HostRun(run), i, v);
    h' := s'.hosts[v];
  }

  lemma TakeTurn(run: seq<Service>, i: nat, v: Id, maxSize: nat) returns (x': Replica)
    requires IsServiceRun(run) && i < |run| && v in run[i].replicas && run[i].replicas[v].host.stage == Idle
    ensures AppDoes(run[i].voters, run[i].net, run[i].replicas[v], TakeReady(maxSize), x')
  {
    hide IsServiceRun, Does, IsBatch;
    var x := run[i].replicas[v];
    var h' := HostGoesOn(run, i, v);
    var batch := BatchExists(x.host, x.cursor, maxSize);
    x' := x.(host := h', batch := batch, phase := Fresh);
  }

  lemma PersistTurn(run: seq<Service>, i: nat, v: Id) returns (x': Replica)
    requires IsServiceRun(run) && i < |run| && v in run[i].replicas && run[i].replicas[v].host.stage == Accepted
    ensures AppDoes(run[i].voters, run[i].net, run[i].replicas[v], Plain(Persist), x')
  {
    hide IsServiceRun, Does;
    var h' := HostGoesOn(run, i, v);
    x' := run[i].replicas[v].(host := h');
  }

  lemma DeliverTurn(run: seq<Service>, i: nat, v: Id) returns (x': Replica)
    requires IsServiceRun(run) && i < |run| && v in run[i].replicas
    requires run[i].replicas[v].host.stage == Stored && run[i].replicas[v].phase == Fresh
    ensures AppDoes(run[i].voters, run[i].net, run[i].replicas[v], Deliver, x')
  {
    hide IsServiceRun, Does, Publish;
    PublishNeverFatal(run, i, v);
    var x := run[i].replicas[v];
    var p := Publish(x.appliedIndex, SnapIndexOf(x.host.ready), x.batch);
    x' := x.(appliedIndex := p.applied, trail := x.trail + p.seen, phase := Given);
  }

  /** What is applied is stored, and positions fit into words. */
  lemma AppliedIsStored(run: seq<Service>, i: nat, v: Id)
    requires IsServiceRun(run) && i < |run| && v in run[i].replicas && run[i].replicas[v].host.stage == Stored
    ensures var x, h := run[i].replicas[v], run[i].replicas[v].host;
            && h.store.base <= h.snapIndex && x.appliedIndex <= h.disk.committed <= Last(h.store)
            && h.disk.committed < TWO_64 - 1 && (x.phase != Fresh ==> h.snapIndex <= x.appliedIndex)
            && (x.phase == Snapped ==> h.store.base + CATCH_UP < x.appliedIndex)
  {
    hide InitialService, ServiceStep, TrailOk, BatchOk, TailOk, Joined, ReadyOk, Matching, IndexedFrom;
    AppOkAt(run, i, v);
    GroundAt(run, i, v);
    assert Bounded(run[i]);
  }

  lemma TriggerTurn(run: seq<Service>, i: nat, v: Id) returns (a: AppAction, x': Replica)
    requires IsServiceRun(run) && i < |run| && v in run[i].replicas
    requires run[i].replicas[v].host.stage == Stored && run[i].replicas[v].phase == Given
    ensures AppDoes(run[i].voters, run[i].net, run[i].replicas[v], a, x') && Turn(run[i].replicas[v], a)
  {
    hide IsServiceRun, Due;
    AppliedIsStored(run, i, v);
    var x := run[i].replicas[v];
    DueExact(x);
    if Due(x) {
      a, x' := Trigger, x.(host := x.host.(snapIndex := x.appliedIndex), phase := Snapped);
    } else {
      a, x' := NoTrigger, x.(phase := Finished);
    }
  }

  lemma TrimTurn(run: seq<Service>, i: nat, v: Id) returns (x': Replica)
    requires IsServiceRun(run) && i < |run| && v in run[i].replicas
    requires run[i].replicas[v].host.stage == Stored && run[i].replicas[v].phase == Snapped
    ensures AppDoes(run[i].voters, run[i].net, run[i].replicas[v], Trim, x')
  {
    hide IsServiceRun, CompactAt, StoreCompact;
    AppliedIsStored(run, i, v);
    var x := run[i].replicas[v];
    DueExact(x);
    x' := x.(host := x.host.(store := StoreCompact(x.host.store, CompactAt(x.appliedIndex))), phase := Finished);
  }

  lemma ConfirmTurn(run: seq<Service>, i: nat, v: Id) returns (x': Replica)
    requires IsServiceRun(run) && i < |run| && v in run[i].replicas
    requires run[i].replicas[v].host.stage == Stored && run[i].replicas[v].phase == Finished
    ensures AppDoes(run[i].voters, run[i].net, run[i].replicas[v], Confirm, x')
  {
    hide IsServiceRun, Does, CursorAfter;
    CursorNeverPanics(run, i, v);
    var h' := HostGoesOn(run, i, v);
    var x := run[i].replicas[v];
    x' := x.(host := h', cursor := CursorAfter(x).value);
  }

  /** At every moment of every run, for every size limit, the next turn of a node's loop is a step of the service. */
  lemma LoopGoesOn(run: seq<Service>, i: nat, v: Id, maxSize: nat) returns (a: AppAction, s': Service)
    requires IsServiceRun(run) && i < |run| && v in run[i].replicas
    ensures Turn(run[i].replicas[v], a) && Serves(run[i], s', v, a) && (a.TakeReady? ==> a.maxSize == maxSize)
  {
    hide IsServiceRun, AppDoes;
    var x := run[i].replicas[v];
    var x';
    if x.host.stage == Idle {
      a := TakeReady(maxSize);
      x' := TakeTurn(run, i, v, maxSize);
    } else if x.host.stage == Accepted {
      a := Plain(Persist);
      x' := PersistTurn(run, i, v);
    } else if x.phase == Fresh {
      a := Deliver;
      x' := DeliverTurn(run, i, v);
    } else if x.phase == Given {
      a, x' := TriggerTurn(run, i, v);
    } else if x.phase == Snapped {
      a := Trim;
      x' := TrimTurn(run, i, v);
    } else {
      a := Confirm;
      x' := ConfirmTurn(run, i, v);
    }
    s' := WithReplica(run[i], v, x');
    ReplicaServes(run[i], v, a, x');
  }
}
