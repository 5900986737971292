/** Linearizable reads in the system as it really runs, with a disk, a memory and crashes. */
module BufferedReads {
  import opened RaftTypes
  import opened LogStore
  import opened RaftNode
  import opened Core = RaftCore
  import opened Cluster
  import opened ClusterFrame
  import opened ClusterSafety
  import opened Buffered
  import opened BufferedSim
  import opened BufferedLog
  import opened BufferedSafety
  import opened BufferedRestore
  import opened ReadServing

  // ---------------------------------------------------------------- runs in which no context is used again

  /** In this step no node of term t uses a context again that it has answered. */
  ghost predicate FreshContexts(s: System, s': System, t: Term) {
    forall v, ev, op :: Acts(s, s', v, Local(ev, op)) && s.hosts[v].vol.term == t ==>
      !Reuses(s.voters, s.hosts[v].vol, ev)
  }

  ghost predicate NoSystemReuse(sys: seq<System>, t: Term, j: nat)
    requires j < |sys|
  {
    forall k :: 0 <= k < j ==> FreshContexts(sys[k], sys[k + 1], t)
  }

  /** Neither what is about to be stored nor what is only in memory uses a context of term t again. */
  ghost predicate Quiet(voters: set<Id>, h: Host, t: Term) {
    t !in StoredSpoils(voters, h) && t !in Spoils(voters, Settling(h), h.since)
  }

  ghost predicate AllQuiet(s: System, t: Term) {
    forall v :: v in s.hosts ==> Quiet(s.voters, s.hosts[v], t)
  }

  lemma SpoilsMore(voters: set<Id>, net: set<Msg>, n: Node, evs: seq<Event>, m: Node, out: set<Msg>, ev: Event)
    requires Follows(voters, net, n, evs, m, out)
    ensures Spoils(voters, n, evs + [ev]) == Spoils(voters, n, evs) + (if Reuses(voters, m, ev) then {m.term} else {})
  {
    hide Handle, Reuses;
    assert (evs + [ev])[..|evs|] == evs;
  }

  lemma LocalQuiet(voters: set<Id>, net: set<Msg>, h: Host, ev: Event, op: LogOp, h': Host, t: Term)
    requires HostTraced(voters, net, h) && Quiet(voters, h, t) && Does(voters, net, h, Local(ev, op), h')
    requires h.vol.term == t ==> !Reuses(voters, h.vol, ev)
    ensures Quiet(voters, h', t)
  {
    hide Follows, Handle, Fits, Tracks, CanHappen, Spoils, Reuses;
    SpoilsMore(voters, net, Settling(h), h.since, h.vol, h.outbox, ev);
  }

  lemma AdvanceQuiet(voters: set<Id>, net: set<Msg>, h: Host, h': Host, t: Term)
    requires HostTraced(voters, net, h) && Quiet(voters, h, t) && Does(voters, net, h, Advance, h')
    ensures Quiet(voters, h', t)
  {
    hide Follows, Acknowledge, Stabilised, Spoils;
    if h.vol.role == Leader && h.ready.ents != [] {
      SpoilsMore(voters, net, h.disk, h.since, h.vol, h.outbox, SelfAck(LastOf(h.ready).value.0));
    } else {
      assert h.since + [] == h.since;
    }
  }

  lemma DoesQuiet(voters: set<Id>, net: set<Msg>, h: Host, a: Action, h': Host, t: Term)
    requires HostTraced(voters, net, h) && Quiet(voters, h, t) && Does(voters, net, h, a, h')
    requires a.Local? && h.vol.term == t ==> !Reuses(voters, h.vol, a.ev)
    ensures Quiet(voters, h', t)
  {
    NothingSpoils(voters, h'.disk);
    NothingSpoils(voters, Settling(h'));
    hide Follows, Handle, Acknowledge, Stabilised, StoreReady, Fits, Tracks, CanHappen, Reuses, Spoils;
    match a {
      case Local(ev, op) => LocalQuiet(voters, net, h, ev, op, h', t);
      case Advance => AdvanceQuiet(voters, net, h, h', t);
      case _ =>
    }
  }

  lemma NothingSpoils(voters: set<Id>, n: Node)
    ensures Spoils(voters, n, []) == {}
  {
  }

  lemma StepQuiet(run: seq<Cluster>, s: System, s': System, v: Id, a: Action, t: Term)
    requires Backs(run, s) && Acts(s, s', v, a) && AllQuiet(s, t) && FreshContexts(s, s', t)
    ensures AllQuiet(s', t)
  {
    hide Backs, HostTraced, Does, Quiet, Reuses;
    BackedHost(run, s, v);
    forall u | u in s'.hosts ensures Quiet(s'.voters, s'.hosts[u], t) {
      if u == v {
        if a.Local? { assert Acts(s, s', v, Local(a.ev, a.op)); }
        DoesQuiet(s.voters, s.net, s.hosts[v], a, s'.hosts[v], t);
      }
    }
  }

  /** The backing run of a step, which spoils no term that the step does not spoil. */
  lemma StepUnspoiled(run: seq<Cluster>, s: System, s': System, t: Term) returns (run': seq<Cluster>)
    requires Backs(run, s) && SystemStep(s, s') && HostsOk(s) && AllQuiet(s, t) && FreshContexts(s, s', t)
    requires run != [] && t !in run[|run| - 1].spoiled
    ensures Backs(run', s') && run <= run' && AllQuiet(s', t) && t !in run'[|run'| - 1].spoiled
  {
    hide Backs, EndsOk, TailInv, Does, FreshContexts, StoredSpoils, Spoils;
    var v, a :| Acts(s, s', v, a);
    run' := ActBacked(run, s, s', v, a);
    StepQuiet(run, s, s', v, a, t);
  }

  lemma FirstQuiet(s: System, t: Term)
    requires InitialSystem(s)
    ensures AllQuiet(s, t)
  {
    hide BootLog, FirstNode;
    var boot :| BootLog(boot) && s == FirstSystem(s.voters, boot);
  }

  lemma FirstRunUnspoiled(run: seq<Cluster>, t: Term)
    requires IsRun(run) && |run| == 1
    ensures t !in run[0].spoiled
  {
    hide Initial;
    FirstNotSpoiled(run[0]);
  }

  lemma LessSystemReuse(sys: seq<System>, t: Term, i: nat, j: nat)
    requires i <= j < |sys| && NoSystemReuse(sys, t, j)
    ensures NoSystemReuse(sys, t, i)
  {
    hide FreshContexts;
  }

  /** The disks at two moments are two moments of one atomic run in which term t is not spoiled. */
  lemma RunUnspoiled(sys: seq<System>, t: Term, i: nat, j: nat) returns (run: seq<Cluster>, n: nat)
    requires IsSystemRun(sys) && i <= j < |sys| && NoSystemReuse(sys, t, j)
    ensures 0 < n <= |run| && Backs(run[..n], sys[i]) && Backs(run, sys[j]) && HostsOk(sys[j])
    ensures AllQuiet(sys[j], t) && t !in run[|run| - 1].spoiled
    decreases j
  {
    hide Backs, EndsOk, TailInv, InitialSystem, HostsOk, AllQuiet, FreshContexts;
    if j == 0 {
      run := FirstUnspoiled(sys[0], t);
      n := |run|;
      assert run[..n] == run;
    } else {
      var k := Min(i, j - 1);
      LessSystemReuse(sys, t, j - 1, j);
      run, n := RunUnspoiled(sys, t, k, j - 1);
      assert SystemStep(sys[j - 1], sys[j]) && FreshContexts(sys[j - 1], sys[j], t);
      var run' := StepUnspoiled(run, sys[j - 1], sys[j], t);
      HostsKept(run, sys[j - 1], sys[j]);
      assert run'[..n] == run[..n];
      run := run';
      if i == j {
        n := |run|;
        assert run[..n] == run;
      }
    }
  }

  lemma FirstUnspoiled(s: System, t: Term) returns (run: seq<Cluster>)
    requires InitialSystem(s)
    ensures run != [] && Backs(run, s) && HostsOk(s) && AllQuiet(s, t) && t !in run[|run| - 1].spoiled
  {
    hide HostTraced, EndsOk, TailInv, InitialSystem, IsRun;
    run := FirstBacked(s);
    FirstTails(s);
    FirstQuiet(s, t);
    FirstRunUnspoiled(run, t);
  }

  // ---------------------------------------------------------------- what a mark made later knows

  lemma MarkStep(c: Cluster, c': Cluster, t: Term, x: Ctx)
    requires Next(c, c') && (t, x) in c'.marks
    ensures if (t, x) in c.marks then c'.marks[(t, x)] == c.marks[(t, x)] else c'.marks[(t, x)].before == c.core.commits
  {
    hide Handle, Enabled, Record, Spoil;
    var v, ev :| Moves(c, c', v, ev);
  }

  /** A read that was not marked at n and is marked at m was marked after everything committed at n. */
  lemma {:induction false} MarkedLater(run: seq<Cluster>, n: nat, m: nat, t: Term, x: Ctx)
    requires IsRun(run) && n <= m < |run| && (t, x) !in run[n].marks && (t, x) in run[m].marks
    ensures run[n].core.commits <= run[m].marks[(t, x)].before
    decreases m
  {
    hide Initial, Next, Later, Onward, MarksGrow;
    assert Next(run[m - 1], run[m]);
    MarkStep(run[m - 1], run[m], t, x);
    if (t, x) in run[m - 1].marks {
      MarkedLater(run, n, m - 1, t, x);
    } else {
      RunLater(run, n, m - 1);
      LaterCommits(run[n].core, run[m - 1].core);
    }
  }

  lemma LaterCommits(s: Core.Core, s': Core.Core)
    requires Later(s, s')
    ensures s.commits <= s'.commits
  {
  }

  lemma LeaderAsked(c: Cluster, v: Id, ctx: Ctx)
    requires Inv(c) && v in c.nodes && c.nodes[v].role == Leader && c.nodes[v].term !in c.spoiled
    requires |c.voters| != 1 && ctx !in c.nodes[v].asked
    ensures (c.nodes[v].term, ctx) !in c.marks
  {
    hide ProtocolInv, MarkOk, AnswerOk, QueueOk;
    assert LeaderReadsOk(c, c.nodes[v]);
  }

  lemma FewerMarks(marks: Marks, marks': Marks, t: Term, x: Ctx)
    requires MarksGrow(marks, marks') && (t, x) !in marks'
    ensures (t, x) !in marks
  {
  }

  /** The atomic run in which v also did what it has only in memory, still without using a context of term t again. */
  lemma InMemoryUnspoiled(run: seq<Cluster>, s: System, v: Id, t: Term) returns (run': seq<Cluster>)
    requires Backs(run, s) && v in s.hosts && AllQuiet(s, t) && run != [] && t !in run[|run| - 1].spoiled
    ensures IsRun(run') && run <= run' && run' != []
    ensures var c' := run'[|run'| - 1];
            && c'.voters == s.voters && v in c'.nodes && c'.nodes[v] == s.hosts[v].vol && s.net <= c'.msgs
            && t !in c'.spoiled
  {
    hide IsRun, HostTraced, StoredSpoils, Spoils, Settling;
    run' := InMemory(run, s.voters, s.net, v, s.hosts[v]);
    NonEmptyRun(run');
    assert Quiet(s.voters, s.hosts[v], t);
  }

  /** A context that the leader has not accepted in memory has no mark among what is stored. */
  lemma NotMarkedYet(run: seq<Cluster>, s: System, v: Id, ctx: Ctx)
    requires Backs(run, s) && v in s.hosts && AllQuiet(s, s.hosts[v].vol.term) && run != []
    requires s.hosts[v].vol.term !in run[|run| - 1].spoiled
    requires s.hosts[v].vol.role == Leader && |s.voters| != 1 && ctx !in s.hosts[v].vol.asked
    ensures (s.hosts[v].vol.term, ctx) !in run[|run| - 1].marks
  {
    hide Backs, AllQuiet, Inv, IsRun, MarksGrow, Later, Onward;
    var run' := InMemoryUnspoiled(run, s, v, s.hosts[v].vol.term);
    RunInv(run', |run'| - 1);
    LeaderAsked(run'[|run'| - 1], v, ctx);
    RunLater(run', |run| - 1, |run'| - 1);
    FewerMarks(run[|run| - 1].marks, run'[|run'| - 1].marks, s.hosts[v].vol.term, ctx);
  }

  // ---------------------------------------------------------------- linearizable reads

  /** Leader v takes the read request ctx, not taken in its term before, or answers at once if it is alone. */
  ghost predicate TakesRead(s: System, s': System, v: Id, ctx: Ctx) {
    && (exists op :: Acts(s, s', v, Local(ReadReq(ctx), op)))
    && v in s.hosts && s.hosts[v].vol.role == Leader
    && var n := s.hosts[v].vol;
    && (|s.voters| == 1 || (TermAt(n.log, n.committed) == n.term && ctx !in n.asked))
  }

  /** In this step v answers ctx with a read index. */
  ghost predicate AnswersAs(s: System, s': System, v: Id, ctx: Ctx, index: nat) {
    exists ev, op ::
      Acts(s, s', v, Local(ev, op)) && Released(ctx, index) in Handle(s.voters, s.hosts[v].vol, ev).released
  }

  /** The answer as a step of the atomic run, after everything v did before it. */
  lemma AnswerReplayed(run: seq<Cluster>, s: System, s': System, v: Id, ctx: Ctx, index: nat, t: Term)
    returns (run': seq<Cluster>)
    requires Backs(run, s) && v in s.hosts && AllQuiet(s, t) && run != [] && t !in run[|run| - 1].spoiled
    requires AnswersAs(s, s', v, ctx, index) && FreshContexts(s, s', t)
    ensures IsRun(run') && |run| < |run'| && run <= run' && t !in run'[|run'| - 1].spoiled
    ensures var c := run'[|run'| - 2];
            && c.voters == s.voters && v in c.nodes && c.nodes[v] == s.hosts[v].vol
            && AnswersRead(c, run'[|run'| - 1], v, ctx, index)
  {
    hide Backs, AllQuiet, IsRun, Handle, Record, Mark, Reuses, Fits, Tracks;
    var ev, op :|
      Acts(s, s', v, Local(ev, op)) && Released(ctx, index) in Handle(s.voters, s.hosts[v].vol, ev).released;
    var run1 := InMemoryUnspoiled(run, s, v, t);
    var c := run1[|run1| - 1];
    LastNode(run1, v);
    CanStill(s.net, c.msgs, c.nodes[v], ev);
    run' := OneMore(run1, v, ev);
    assert Moves(c, run'[|run1|], v, ev);
  }

  lemma StoredMoment(run: seq<Cluster>, n: nat, s: System, u: Id)
    requires 0 < n <= |run| && Backs(run[..n], s) && u in s.hosts
    ensures run[n - 1].voters == s.voters && u in run[n - 1].nodes && run[n - 1].nodes[u] == s.hosts[u].disk
  {
    hide IsRun, HostTraced;
    assert run[..n][n - 1] == run[n - 1];
  }

  lemma {:induction false} SpoiledGrows(run: seq<Cluster>, n: nat, m: nat)
    requires IsRun(run) && n <= m < |run|
    ensures run[n].spoiled <= run[m].spoiled
    decreases m
  {
    if n < m {
      hide Initial, Handle, Enabled, Record, Mark, Reuses;
      SpoiledGrows(run, n, m - 1);
      assert Next(run[m - 1], run[m]);
      var v, ev :| Moves(run[m - 1], run[m], v, ev);
    }
  }

  lemma LoneSystemRead(run: seq<Cluster>, n: nat, v: Id, ctx: Ctx, index: nat, u: Id)
    requires IsRun(run) && n + 1 < |run| && u in run[n].nodes && |run[n].voters| == 1
    requires v in run[|run| - 2].nodes && AnswersRead(run[|run| - 2], run[|run| - 1], v, ctx, index)
    ensures run[n].nodes[u].committed <= index == run[|run| - 2].nodes[v].committed
  {
    hide ProtocolInv, ReadInv, Next, Initial, AnswersRead, Later, MarksGrow;
    RunLater(run, n, |run| - 2);
    RunInv(run, n);
    RunInv(run, |run| - 2);
    LoneAnswer(run[|run| - 2], run[|run| - 1], v, ctx, index);
    LoneVoter(run[n], u, v);
  }

  lemma MarkedRead(run: seq<Cluster>, n: nat, v: Id, ctx: Ctx, index: nat, u: Id, t: Term)
    requires IsRun(run) && n + 1 < |run| && u in run[n].nodes && (t, ctx) !in run[n].marks
    requires v in run[|run| - 2].nodes && run[|run| - 2].nodes[v].term == t
    requires AnswersRead(run[|run| - 2], run[|run| - 1], v, ctx, index) && t !in run[|run| - 1].spoiled
    ensures run[n].nodes[u].committed <= index
  {
    hide Inv, IsRun, AnswersRead;
    AnsweredIsRecorded(run[|run| - 2], run[|run| - 1], v, ctx, index);
    RunInv(run, |run| - 1);
    RecordedAnswer(run[|run| - 1], Answer(t, ctx, index));
    MarkedLater(run, n, |run| - 1, t, ctx);
    RunInv(run, n);
    CommittedBelow(run[n], u, index);
  }

  // ---------------------------------------------------------------- the index of the answer

  /** Whatever a restart comes back with has reached term t. */
  ghost predicate Durable(h: Host, t: Term) {
    h.disk.term >= t && (h.stage != Idle ==> h.ready.node.term >= t)
  }

  /** The host serves the read accepted at commit position c, or will not lead term t again. */
  ghost predicate Handles(h: Host, t: Term, ctx: Ctx, c: nat) {
    Durable(h, t) && (Serving(h.vol, t, ctx, c) || Past(h.vol, t))
  }

  /** Among several voters nobody leads a term before it is on disk: the others' votes come after that. */
  lemma LeaderIsDurable(run: seq<Cluster>, s: System, v: Id)
    requires Backs(run, s) && v in s.hosts && s.hosts[v].vol.role == Leader && |s.voters| != 1
    ensures Durable(s.hosts[v], s.hosts[v].vol.term)
  {
    hide Initial, Next, Follows, NoLaterVotes;
    var h, c := s.hosts[v], run[|run| - 1];
    DiskHasNoLaterVotes(run, v);
    assert c.nodes[v] == h.disk;
    FewerVotes(c.voters, c.msgs, s.net, h.disk);
    if h.stage == Accepted {
      FollowsLed(s.voters, s.net, h.disk, h.before, h.ready.node, h.ready.out);
      FollowsStillLed(s.voters, s.net, h.disk, h.ready.node, h.since, h.vol, h.outbox);
      FollowsTerm(s.voters, s.net, h.disk, h.before, h.ready.node, h.ready.out);
    } else {
      FollowsLed(s.voters, s.net, h.disk, h.since, h.vol, h.outbox);
    }
  }

  lemma AckPast(voters: set<Id>, n: Node, index: nat, t: Term)
    requires Past(n, t) && Acknowledge(voters, n, n.id, index).Step?
    ensures Past(Acknowledge(voters, n, n.id, index).node, t)
  {
    hide CommittedIndex;
  }

  lemma AdvanceHandles(voters: set<Id>, h: Host, e: Effect, t: Term, ctx: Ctx, c: nat)
    requires Handles(h, t, ctx, c) && e == SelfAcked(voters, h) && e.Step?
    ensures Serving(e.node, t, ctx, c) || Past(e.node, t)
  {
    hide Acknowledge, Serving, Past;
    if h.vol.role == Leader && h.ready.ents != [] {
      var index := LastOf(h.ready).value.0;
      if Past(h.vol, t) {
        AckPast(voters, h.vol, index, t);
      } else {
        AckServing(voters, h.vol, h.vol.id, index, t, ctx, c);
      }
    }
  }

  lemma LocalHandles(voters: set<Id>, n: Node, ev: Event, t: Term, ctx: Ctx, c: nat)
    requires (Serving(n, t, ctx, c) || Past(n, t)) && Handle(voters, n, ev).Step?
    requires n.term == t ==> !Reuses(voters, n, ev)
    ensures var n' := Handle(voters, n, ev).node; Serving(n', t, ctx, c) || Past(n', t)
  {
    hide Handle, Reuses;
    if Past(n, t) { StaysPast(voters, n, ev, t); } else { StaysServing(voters, n, ev, t, ctx, c); }
  }

  lemma DoesHandles(voters: set<Id>, net: set<Msg>, h: Host, a: Action, h': Host, t: Term, ctx: Ctx, c: nat)
    requires Handles(h, t, ctx, c) && Does(voters, net, h, a, h')
    requires a.Local? && h.vol.term == t ==> !Reuses(voters, h.vol, a.ev)
    ensures Handles(h', t, ctx, c)
  {
    hide Handle, SelfAcked, Stabilised, StoreReady, Fits, Tracks, CanHappen, Reuses;
    match a {
      case Local(ev, op) => LocalHandles(voters, h.vol, ev, t, ctx, c);
      case Advance => AdvanceHandles(voters, h, SelfAcked(voters, h), t, ctx, c);
      case _ =>
    }
  }

  lemma StepHandles(s: System, s': System, v: Id, t: Term, ctx: Ctx, c: nat)
    requires SystemStep(s, s') && v in s.hosts && Handles(s.hosts[v], t, ctx, c) && FreshContexts(s, s', t)
    ensures v in s'.hosts && Handles(s'.hosts[v], t, ctx, c)
  {
    hide Does, Handles, Reuses;
    var u, a :| Acts(s, s', u, a);
    if u == v {
      if a.Local? { assert Acts(s, s', v, Local(a.ev, a.op)); }
      DoesHandles(s.voters, s.net, s.hosts[v], a, s'.hosts[v], t, ctx, c);
    }
  }

  lemma InMemoryPending(run: seq<Cluster>, s: System, v: Id)
    requires Backs(run, s) && v in s.hosts && AllQuiet(s, s.hosts[v].vol.term) && run != []
    requires s.hosts[v].vol.term !in run[|run| - 1].spoiled && s.hosts[v].vol.role == Leader
    ensures s.hosts[v].vol.readOnly.pending.Keys <= s.hosts[v].vol.asked
  {
    hide Backs, AllQuiet, Inv, IsRun;
    var run' := InMemoryUnspoiled(run, s, v, s.hosts[v].vol.term);
    RunInv(run', |run'| - 1);
    PendingWasAsked(run'[|run'| - 1], v);
  }

  lemma TakenHandles(voters: set<Id>, net: set<Msg>, h: Host, ctx: Ctx, op: LogOp, h': Host)
    requires Does(voters, net, h, Local(ReadReq(ctx), op), h') && h.vol.role == Leader && |voters| != 1
    requires TermAt(h.vol.log, h.vol.committed) == h.vol.term && ctx !in h.vol.readOnly.pending
    requires Durable(h, h.vol.term)
    ensures Handles(h', h.vol.term, ctx, h.vol.committed)
  {
    hide HandleReadReq, Fits, Tracks, CanHappen;
    AcceptedIsServed(voters, h.vol, ctx);
  }

  lemma TakesHandles(sys: seq<System>, i: nat, v: Id, ctx: Ctx)
    requires IsSystemRun(sys) && i < |sys| - 1 && TakesRead(sys[i], sys[i + 1], v, ctx) && |sys[i].voters| != 1
    requires NoSystemReuse(sys, sys[i].hosts[v].vol.term, i)
    ensures v in sys[i + 1].hosts && Handles(sys[i + 1].hosts[v], sys[i].hosts[v].vol.term, ctx,
                                             sys[i].hosts[v].vol.committed)
    ensures ctx !in sys[i].hosts[v].vol.readOnly.pending
  {
    hide IsSystemRun, Backs, HostsOk, AllQuiet, FreshContexts, Handles, Does, Durable;
    var s, s' := sys[i], sys[i + 1];
    var run, _ := RunUnspoiled(sys, s.hosts[v].vol.term, i, i);
    NonEmpty(run, s);
    InMemoryPending(run, s, v);
    LeaderIsDurable(run, s, v);
    var op :| Acts(s, s', v, Local(ReadReq(ctx), op));
    TakenHandles(s.voters, s.net, s.hosts[v], ctx, op, s'.hosts[v]);
  }

  lemma {:induction false} HandledUntil(sys: seq<System>, i: nat, j: nat, v: Id, ctx: Ctx)
    requires IsSystemRun(sys) && i < j < |sys| && TakesRead(sys[i], sys[i + 1], v, ctx) && |sys[i].voters| != 1
    requires NoSystemReuse(sys, sys[i].hosts[v].vol.term, j)
    ensures v in sys[j].hosts
    ensures Handles(sys[j].hosts[v], sys[i].hosts[v].vol.term, ctx, sys[i].hosts[v].vol.committed)
    decreases j
  {
    hide InitialSystem, SystemStep, FreshContexts, Handles, Acts;
    var t := sys[i].hosts[v].vol.term;
    LessSystemReuse(sys, t, j - 1, j);
    if j == i + 1 {
      TakesHandles(sys, i, v, ctx);
    } else {
      HandledUntil(sys, i, j - 1, v, ctx);
      assert SystemStep(sys[j - 1], sys[j]) && FreshContexts(sys[j - 1], sys[j], t);
      StepHandles(sys[j - 1], sys[j], v, t, ctx, sys[i].hosts[v].vol.committed);
    }
  }

  lemma AnswerInMemory(s: System, s': System, v: Id, ctx: Ctx, index: nat)
    requires AnswersAs(s, s', v, ctx, index) && |s.voters| != 1
    ensures v in s.hosts && s.hosts[v].vol.role == Leader && ctx in s.hosts[v].vol.readOnly.pending
    ensures index == s.hosts[v].vol.readOnly.pending[ctx].index
  {
    hide Handle, Fits, Tracks, CanHappen;
    var ev, op :|
      Acts(s, s', v, Local(ev, op)) && Released(ctx, index) in Handle(s.voters, s.hosts[v].vol, ev).released;
    AnswerFrom(s.voters, s.hosts[v].vol, ev, ctx, index);
  }

  /** A read that had to wait for a majority is answered with the commit position at which the leader took it. */
  lemma DurableQueuedIndex(sys: seq<System>, i: nat, j: nat, v: Id, ctx: Ctx, index: nat)
    requires IsSystemRun(sys) && i <= j < |sys| - 1 && v in sys[j].hosts && |sys[i].voters| != 1
    requires sys[j].voters == sys[i].voters
    requires TakesRead(sys[i], sys[i + 1], v, ctx) && AnswersAs(sys[j], sys[j + 1], v, ctx, index)
    requires sys[j].hosts[v].vol.term == sys[i].hosts[v].vol.term
    requires NoSystemReuse(sys, sys[i].hosts[v].vol.term, j + 1)
    ensures index == sys[i].hosts[v].vol.committed && index <= sys[j].hosts[v].vol.committed
  {
    hide IsSystemRun, FreshContexts, AnswersAs, Durable, Acts;
    var t := sys[i].hosts[v].vol.term;
    LessSystemReuse(sys, t, j, j + 1);
    AnswerInMemory(sys[j], sys[j + 1], v, ctx, index);
    if i < j {
      HandledUntil(sys, i, j, v, ctx);
    } else {
      TakesHandles(sys, i, v, ctx);
    }
  }

  /**
   ReadIndex is linearizable with disks and crashes: when a leader takes a read into memory, every position any
   node has stored as committed by then, and so everything any state machine was given, is at or below the
   index the read is answered with. That index is never ahead of what the leader has committed when it answers,
   and unless the leader is the only voter it is its commit position at the moment it took the read.
   */
  lemma DurableReadIndex(sys: seq<System>, i: nat, j: nat, v: Id, ctx: Ctx, index: nat, u: Id)
    requires IsSystemRun(sys) && i <= j < |sys| - 1 && u in sys[i].hosts && v in sys[j].hosts
    requires TakesRead(sys[i], sys[i + 1], v, ctx) && AnswersAs(sys[j], sys[j + 1], v, ctx, index)
    requires sys[j].hosts[v].vol.term == sys[i].hosts[v].vol.term
    requires NoSystemReuse(sys, sys[i].hosts[v].vol.term, j + 1)
    ensures sys[i].hosts[u].disk.committed <= index <= sys[j].hosts[v].vol.committed
    ensures |sys[i].voters| > 1 ==> index == sys[i].hosts[v].vol.committed
  {
    hide IsSystemRun, Backs, HostsOk, AllQuiet, FreshContexts, AnswersAs, IsRun, AnswersRead, Inv, Acts;
    var t := sys[i].hosts[v].vol.term;
    LessSystemReuse(sys, t, j, j + 1);
    LessSystemReuse(sys, t, i, j + 1);
    var run, n := RunUnspoiled(sys, t, i, j);
    NonEmpty(run, sys[j]);
    assert FreshContexts(sys[j], sys[j + 1], t);
    var run' := AnswerReplayed(run, sys[j], sys[j + 1], v, ctx, index, t);
    StoredMoment(run, n, sys[i], u);
    assert run'[n - 1] == run[n - 1];
    SameVoters(run', n - 1, |run'| - 2);
    if |sys[i].voters| == 1 {
      LoneSystemRead(run', n - 1, v, ctx, index, u);
    } else {
      var _, _ := RunUnspoiled(sys, t, i, i);
      SpoiledGrows(run', n - 1, |run'| - 1);
      assert run[..n][n - 1] == run[n - 1];
      NotMarkedYet(run[..n], sys[i], v, ctx);
      MarkedRead(run', n - 1, v, ctx, index, u, t);
      DurableQueuedIndex(sys, i, j, v, ctx, index);
    }
  }

  lemma SameVoters(run: seq<Cluster>, n: nat, m: nat)
    requires IsRun(run) && n <= m < |run|
    ensures run[m].voters == run[n].voters
  {
    hide IsRun, Later, MarksGrow;
    RunLater(run, n, m);
  }
}
