/** Validity in the system as it really runs: of logs in memory and on disk, and of what state machines are given. */
module ServiceValidity {
  import opened RaftTypes
  import opened LogStore
  import opened RaftNode
  import opened Core = RaftCore
  import opened Cluster
  import opened Buffered
  import opened Validity
  import opened Publishing
  import opened ApplyLoop
  import opened ServiceSafety

  ghost predicate SystemBooted(s: System, x: Entry) {
    exists v :: v in s.hosts && x in s.hosts[v].disk.log
  }

  /** In this step x opens a term in some node's memory, or is an item of what is proposed to it. */
  ghost predicate HostMakes(s: System, s': System, x: Entry) {
    exists v, ev, op :: Acts(s, s', v, Local(ev, op))
      && (Opens(s.hosts[v].vol, s'.hosts[v].vol, x) || Item(s.hosts[v].vol, ev, x))
  }

  ghost predicate SystemSourced(sys: seq<System>, i: nat, x: Entry)
    requires i < |sys|
  {
    SystemBooted(sys[0], x) || exists k: nat :: k < i && HostMakes(sys[k], sys[k + 1], x)
  }

  ghost function SystemSources(sys: seq<System>, i: nat): iset<Entry>
    requires i < |sys|
  {
    iset x | SystemSourced(sys, i, x)
  }

  ghost predicate HostWithin(h: Host, s: iset<Entry>) {
    && LogWithin(h.disk.log, s) && LogWithin(h.vol.log, s) && MailWithin(h.outbox, s)
    && (h.stage != Idle ==> LogWithin(h.ready.node.log, s) && MailWithin(h.ready.out, s))
  }

  ghost predicate SystemWithin(s: System, e: iset<Entry>) {
    (forall v :: v in s.hosts ==> HostWithin(s.hosts[v], e)) && MailWithin(s.net, e)
  }

  ghost predicate HostMakesWithin(s: System, s': System, e: iset<Entry>) {
    forall x :: HostMakes(s, s', x) ==> x in e
  }

  lemma SelfAckWithin(voters: set<Id>, h: Host, s: iset<Entry>)
    requires LogWithin(h.vol.log, s) && SelfAcked(voters, h).Step?
    ensures LogWithin(SelfAcked(voters, h).node.log, s) && MailWithin(SelfAcked(voters, h).out, s)
  {
    hide CommittedIndex;
  }

  lemma LocalWithin(voters: set<Id>, net: set<Msg>, h: Host, ev: Event, s: iset<Entry>)
    requires LogWithin(h.vol.log, s) && MailWithin(net, s)
    requires CanHappen(net, h.vol, ev) && Handle(voters, h.vol, ev).Step?
    requires forall x :: Opens(h.vol, Handle(voters, h.vol, ev).node, x) || Item(h.vol, ev, x) ==> x in s
    ensures LogWithin(Handle(voters, h.vol, ev).node.log, s) && MailWithin(Handle(voters, h.vol, ev).out, s)
  {
    hide Handle, Opens, Item, LogWithin;
    HandleWithin(voters, h.vol, ev, s);
  }

  lemma DoesWithin(voters: set<Id>, net: set<Msg>, h: Host, a: Action, h': Host, s: iset<Entry>)
    requires Does(voters, net, h, a, h') && HostWithin(h, s) && MailWithin(net, s)
    requires a.Local? ==> forall x :: Opens(h.vol, h'.vol, x) || Item(h.vol, a.ev, x) ==> x in s
    ensures HostWithin(h', s) && (a.Send? ==> LogWithin(Carried(a.m), s))
  {
    hide Handle, SelfAcked, Stabilised, StoreReady, Fits, Tracks, CanHappen, Opens, Item, LogWithin;
    match a {
      case Local(ev, op) => LocalWithin(voters, net, h, ev, s);
      case Advance => SelfAckWithin(voters, h, s);
      case _ =>
    }
  }

  lemma ActWithin(s: System, s': System, e: iset<Entry>)
    requires SystemStep(s, s') && SystemWithin(s, e) && HostMakesWithin(s, s', e)
    ensures SystemWithin(s', e)
  {
    hide Does, Opens, Item, HostWithin, LogWithin;
    var v, a :| Acts(s, s', v, a);
    if a.Local? {
      forall x | Opens(s.hosts[v].vol, s'.hosts[v].vol, x) || Item(s.hosts[v].vol, a.ev, x) ensures x in e {
        assert Acts(s, s', v, Local(a.ev, a.op));
        assert HostMakes(s, s', x);
      }
    }
    DoesWithin(s.voters, s.net, s.hosts[v], a, s'.hosts[v], e);
  }

  lemma FirstHostWithin(voters: set<Id>, v: Id, boot: seq<Entry>, e: iset<Entry>)
    requires LogWithin(boot, e)
    ensures HostWithin(FirstHost(voters, v, boot), e)
  {
  }

  lemma FirstSystemWithin(s: System, e: iset<Entry>)
    requires InitialSystem(s) && forall x :: SystemBooted(s, x) ==> x in e
    ensures SystemWithin(s, e)
  {
    hide BootLog, HostWithin, FirstNode;
    var boot :| BootLog(boot) && s == FirstSystem(s.voters, boot);
    forall v | v in s.hosts ensures HostWithin(s.hosts[v], e) {
      FirstDisk(s.voters, v, boot);
      forall x | x in boot ensures x in e {
        assert x in s.hosts[v].disk.log;
        assert SystemBooted(s, x);
      }
      FirstHostWithin(s.voters, v, boot, e);
    }
  }

  lemma FirstDisk(voters: set<Id>, v: Id, boot: seq<Entry>)
    ensures FirstHost(voters, v, boot).disk.log == boot
  {
  }

  lemma MoreSystemSources(sys: seq<System>, i: nat)
    requires i < |sys| - 1
    ensures SystemSources(sys, i) <= SystemSources(sys, i + 1)
    ensures HostMakesWithin(sys[i], sys[i + 1], SystemSources(sys, i + 1))
  {
    hide HostMakes, SystemBooted;
  }

  lemma SystemWithinMore(s: System, e: iset<Entry>, e': iset<Entry>)
    requires SystemWithin(s, e) && e <= e'
    ensures SystemWithin(s, e')
  {
  }

  lemma {:induction false} SystemRunWithin(sys: seq<System>, i: nat)
    requires IsSystemRun(sys) && i < |sys|
    ensures SystemWithin(sys[i], SystemSources(sys, i))
  {
    hide SystemWithin, SystemStep, InitialSystem, HostMakes, SystemBooted;
    if i == 0 {
      FirstSystemWithin(sys[0], SystemSources(sys, 0));
    } else {
      SystemRunWithin(sys, i - 1);
      MoreSystemSources(sys, i - 1);
      SystemWithinMore(sys[i - 1], SystemSources(sys, i - 1), SystemSources(sys, i));
      assert SystemStep(sys[i - 1], sys[i]);
      ActWithin(sys[i - 1], sys[i], SystemSources(sys, i));
    }
  }

  /** Every entry on any disk or in any memory was there from the start, opened a term and is empty, or was proposed
      earlier to the leader of its term, crashes or not. */
  lemma NothingStoredInvented(sys: seq<System>, i: nat, v: Id, x: Entry)
    requires IsSystemRun(sys) && i < |sys| && v in sys[i].hosts
    requires x in sys[i].hosts[v].disk.log || x in sys[i].hosts[v].vol.log
    ensures SystemBooted(sys[0], x) || exists k: nat :: k < i && HostMakes(sys[k], sys[k + 1], x)
  {
    hide IsSystemRun, HostMakes, SystemBooted;
    SystemRunWithin(sys, i);
    assert x in SystemSources(sys, i);
  }

  /** A state machine is only ever given what was there from the start, opened a term, or was proposed earlier. */
  lemma NothingAppliedInvented(run: seq<Service>, i: nat, v: Id, x: Entry)
    requires IsServiceRun(run) && i < |run| && v in run[i].replicas && Applied(x) in run[i].replicas[v].trail
    ensures var sys := HostRun(run);
            SystemBooted(sys[0], x) || exists k: nat :: k < i && HostMakes(sys[k], sys[k + 1], x)
  {
    hide IsServiceRun, IsSystemRun, Contiguous, HostMakes, SystemBooted;
    ExactlyOnce(run, i, v);
    RunOfHosts(run);
    assert FromLog(Applied(x), run[i].replicas[v].host.disk);
    NothingStoredInvented(HostRun(run), i, v, x);
  }
}
