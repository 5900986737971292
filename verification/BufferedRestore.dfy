/**
 A snapshot is restored only over a log that had left the snapshot's prefix before the Ready in flight
 was taken. A leader sends a snapshot only to a node that has answered it in its term, so from the
 Ready to the snapshot the node followed one leader, and whatever its log shared with that leader's
 stayed where it was.
 */
module BufferedRestore {
  import opened RaftTypes
  import opened LogView
  import opened LogStore
  import opened RaftNode
  import opened Core = RaftCore
  import opened Cluster
  import opened ClusterSafety
  import opened Buffered
  import opened BufferedSim
  import opened BufferedLog

  // ---------------------------------------------------------------- what one leader leaves in place

  /** Entries and snapshots in m are taken from ll. */
  ghost predicate TakenFrom(m: Msg, ll: seq<Entry>) {
    && (m.App? ==> m.index + |m.entries| <= |ll| && m.entries == ll[m.index..m.index + |m.entries|])
    && (m.Snap? ==> m.prefix != [] && m.prefix <= ll)
  }

  lemma OverwriteKeeps(log: seq<Entry>, ents: seq<Entry>, p: seq<Entry>)
    requires ents != [] && |p| < ents[0].index <= |log| + 1 && p <= log
    ensures p <= Overwrite(FullView(log), ents).ents
  {
  }

  /** The first conflict with ll lies behind everything the log shares with ll. */
  lemma ConflictBehind(log: seq<Entry>, ll: seq<Entry>, index: nat, n: nat, p: seq<Entry>)
    requires index + n <= |ll| && IndexedFrom(ll, 0) && p <= log && p <= ll
    requires FindConflict(FullView(log), ll[index..index + n]) != 0
    ensures |p| < FindConflict(FullView(log), ll[index..index + n]) <= index + n
  {
    FindConflictSome(log, ll, index, n);
  }

  lemma AppKeeps(n: Node, m: Msg, ll: seq<Entry>, p: seq<Entry>)
    requires m.App? && TakenFrom(m, ll) && IndexedFrom(ll, 0) && p <= n.log && p <= ll && HandleApp(n, m).Step?
    ensures p <= HandleApp(n, m).node.log
  {
    hide FindConflict, ConflictByTerm, Overwrite;
    var ci := FindConflict(FullView(n.log), m.entries);
    if ci != 0 && m.index < ci {
      ConflictBehind(n.log, ll, m.index, |m.entries|, p);
      var rest := m.entries[ci - (m.index + 1)..];
      assert rest != [] && rest[0] == ll[ci - 1];
      if ci <= |n.log| + 1 { OverwriteKeeps(n.log, rest, p); }
    }
  }

  lemma SnapKeeps(n: Node, m: Msg, ll: seq<Entry>, p: seq<Entry>)
    requires m.Snap? && TakenFrom(m, ll) && p <= n.log && p <= ll && HandleSnap(n, m).Step?
    ensures p <= HandleSnap(n, m).node.log
  {
    var k := |m.prefix|;
    if k < |p| { assert n.log[k - 1] == p[k - 1] == ll[k - 1] == m.prefix[k - 1]; }
  }

  lemma DispatchKeeps(voters: set<Id>, n: Node, m: Msg, ll: seq<Entry>, p: seq<Entry>)
    requires TakenFrom(m, ll) && IndexedFrom(ll, 0) && p <= n.log && p <= ll && Dispatch(voters, n, m).Step?
    ensures p <= Dispatch(voters, n, m).node.log
  {
    hide HandleApp, HandleSnap, TakenFrom, CommittedIndex, VoteWon, VoteLost, IndexedFrom;
    if m.App? && n.role != Leader { AppKeeps(AsFollower(voters, n, m), m, ll, p); }
    if m.Snap? && n.role != Leader { SnapKeeps(AsFollower(voters, n, m), m, ll, p); }
  }

  lemma HandleKeeps(voters: set<Id>, n: Node, ev: Event, ll: seq<Entry>, p: seq<Entry>)
    requires p <= n.log && p <= ll && IndexedFrom(ll, 0) && Handle(voters, n, ev).Step?
    requires ev.Recv? && n.term <= ev.m.term ==> TakenFrom(ev.m, ll)
    ensures p <= Handle(voters, n, ev).node.log
  {
    hide Dispatch, CommittedIndex, VoteWon, TakenFrom, IndexedFrom;
    if ev.Recv? && n.term <= ev.m.term { DispatchKeeps(voters, MeetTerm(voters, n, ev.m), ev.m, ll, p); }
  }

  lemma DispatchTerm(voters: set<Id>, n: Node, m: Msg)
    requires Dispatch(voters, n, m).Step? && n.term == m.term
    ensures Dispatch(voters, n, m).node.term == m.term
  {
    hide MaybeAppend, ConflictByTerm, CommittedIndex, VoteWon, VoteLost, UpToDate;
  }

  lemma HandleTerm(voters: set<Id>, n: Node, ev: Event)
    requires Handle(voters, n, ev).Step?
    ensures n.term <= Handle(voters, n, ev).node.term
    ensures ev.Recv? && n.term <= ev.m.term ==> Handle(voters, n, ev).node.term == ev.m.term
  {
    hide Dispatch, CommittedIndex, VoteWon;
    if ev.Recv? && n.term <= ev.m.term { DispatchTerm(voters, MeetTerm(voters, n, ev.m), ev.m); }
  }

  lemma FollowsTerm(voters: set<Id>, net: set<Msg>, n: Node, evs: seq<Event>, n': Node, out: set<Msg>)
    requires Follows(voters, net, n, evs, n', out)
    ensures n.term <= n'.term
    decreases |evs|
  {
    hide Handle, CanHappen;
    if evs != [] {
      var m, out0 := FollowsLess(voters, net, n, evs, n', out);
      FollowsTerm(voters, net, n, evs[..|evs| - 1], m, out0);
      HandleTerm(voters, m, evs[|evs| - 1]);
    }
  }

  /** Every message of term t is taken from that term's log. */
  ghost predicate MailFrom(net: set<Msg>, t: Term, ll: seq<Entry>) {
    forall m :: m in net && m.term == t ==> TakenFrom(m, ll)
  }

  /** A node that stays in one term keeps what its log shares with the log of that term's leader. */
  lemma FollowsKeeps(voters: set<Id>, net: set<Msg>, n: Node, evs: seq<Event>, n': Node, out: set<Msg>, ll: seq<Entry>,
      p: seq<Entry>)
    requires Follows(voters, net, n, evs, n', out) && n'.term == n.term && MailFrom(net, n.term, ll)
             && IndexedFrom(ll, 0)
    requires p <= n.log && p <= ll
    ensures p <= n'.log
    decreases |evs|
  {
    hide Handle, TakenFrom, IndexedFrom;
    if evs != [] {
      var m, out0 := FollowsLess(voters, net, n, evs, n', out);
      FollowsTerm(voters, net, n, evs[..|evs| - 1], m, out0);
      HandleTerm(voters, m, evs[|evs| - 1]);
      FollowsKeeps(voters, net, n, evs[..|evs| - 1], m, out0, ll, p);
      HandleKeeps(voters, m, evs[|evs| - 1], ll, p);
    }
  }

  // ---------------------------------------------------------------- restoring a snapshot

  lemma LeaderMail(c: Cluster, t: Term)
    requires ProtocolInv(c) && t in c.core.leaderLog
    ensures MailFrom(c.msgs, t, c.core.leaderLog[t]) && IndexedFrom(c.core.leaderLog[t], 0)
  {
    hide CoreInv, NodeOk, CommitKnown, Settled, IndexedFrom;
    forall m | m in c.msgs && m.term == t ensures TakenFrom(m, c.core.leaderLog[t]) {
      assert MsgOk(c.core, c.marks, m);
    }
  }

  /** A snapshot in the network is for a node that has stored the snapshot's term. */
  lemma SnapAddressee(c: Cluster, m: Msg)
    requires ProtocolInv(c) && m in c.msgs && m.Snap? && m.to in c.nodes
    ensures m.term <= c.nodes[m.to].term && m.term in c.core.leaderLog && m.prefix != []
            && m.prefix <= c.core.leaderLog[m.term]
  {
    hide CoreInv, CommitKnown, Settled, CandidateOk, LeaderOk;
    assert MsgOk(c.core, c.marks, m) && NodeOk(c.core, c.nodes[m.to]);
  }

  lemma LastInv(run: seq<Cluster>)
    requires IsRun(run)
    ensures run != [] && ProtocolInv(run[|run| - 1])
  {
    hide Initial, Next, ProtocolInv, ReadInv;
    RunInv(run, |run| - 1);
  }

  /** What a node restores is not a prefix of the log of the Ready in flight. */
  lemma RestoredApart(run: seq<Cluster>, s: System, v: Id, m: Msg)
    requires Backs(run, s) && v in s.hosts && s.hosts[v].stage != Idle
    requires m in s.net && m.to == v && m.Snap? && s.hosts[v].vol.term <= m.term
    requires TermAt(s.hosts[v].vol.log, |m.prefix|) != LastTerm(m.prefix)
    ensures !(m.prefix <= s.hosts[v].ready.node.log)
  {
    hide IsRun, Follows, ProtocolInv, MailFrom, IndexedFrom;
    LastInv(run);
    var h, c := s.hosts[v], run[|run| - 1];
    assert c.nodes[v] == h.disk;
    SnapAddressee(c, m);
    LeaderMail(c, m.term);
    var r := h.ready.node;
    if h.stage == Accepted { FollowsTerm(s.voters, s.net, h.disk, h.before, r, h.ready.out); }
    FollowsTerm(s.voters, s.net, r, h.since, h.vol, h.outbox);
    var ll := c.core.leaderLog[m.term];
    LessMail(c.msgs, s.net, m.term, ll);
    if m.prefix <= r.log {
      FollowsKeeps(s.voters, s.net, r, h.since, h.vol, h.outbox, ll, m.prefix);
      assert false;
    }
  }

  lemma LessMail(net: set<Msg>, net': set<Msg>, t: Term, ll: seq<Entry>)
    requires MailFrom(net, t, ll) && net' <= net
    ensures MailFrom(net', t, ll)
  {
  }

  // ---------------------------------------------------------------- Advance is safe

  /** A snapshot that came after the Ready in flight is not a prefix of that Ready's log. */
  ghost predicate Apart(h: Host) {
    h.stage != Idle && h.unstable.snap != h.ready.snap ==>
      && h.unstable.snap.Some? && h.unstable.snap.value.index <= |h.vol.log|
      && !(h.vol.log[..h.unstable.snap.value.index] <= h.ready.node.log)
  }

  lemma WriteApart(h: Host, h': Host, ents: seq<Entry>)
    requires Apart(h) && LogsOk(h) && Memory(h, h') && ents != [] && h.vol.committed < ents[0].index <= |h.vol.log| + 1
    requires h'.unstable.snap == h.unstable.snap && h'.vol.log == h.vol.log[..ents[0].index - 1] + ents
    ensures Apart(h')
  {
    hide StoreOk, TailOk, Joined, ReadyOk, Beyond;
    if h.unstable.snap.Some? {
      var k := h.unstable.snap.value.index;
      assert h'.vol.log[..k] == h.vol.log[..k];
    }
  }

  lemma ReloadApart(run: seq<Cluster>, s: System, v: Id, m: Msg, snap: SnapMeta, h': Host)
    requires Backs(run, s) && v in s.hosts && Does(s.voters, s.net, s.hosts[v], Local(Recv(m), Reload(snap)), h')
    requires s.hosts[v].vol.id == v
    ensures Apart(h')
  {
    hide Backs, Dispatch;
    var h := s.hosts[v];
    assert h'.vol.log[..snap.index] == m.prefix;
    if h.stage != Idle {
      RestoredApart(run, s, v, m);
    }
  }

  lemma ApartKept(run: seq<Cluster>, s: System, v: Id, a: Action, h': Host)
    requires Backs(run, s) && v in s.hosts && Does(s.voters, s.net, s.hosts[v], a, h') && s.hosts[v].vol.id == v
    requires LogsOk(s.hosts[v]) && Apart(s.hosts[v])
    ensures Apart(h')
  {
    hide Backs, Handle, CanHappen, LogsOk, SelfAcked, Stabilised, StoreReady;
    var h := s.hosts[v];
    match a {
      case Local(ev, op) =>
        match op {
          case Keep =>
          case Write(ents) => WriteApart(h, h', ents);
          case Reload(snap) => ReloadApart(run, s, v, ev.m, snap, h');
        }
      case _ =>
    }
  }

  /** The entries an Advance drops are not behind a snapshot that is still to be stored. */
  lemma ApartIsSafe(h: Host)
    requires LogsOk(h) && Apart(h) && TailInv(h) && Ordered(h.disk, h.vol) && h.stage == Stored
             && h.disk == h.ready.node
    ensures SafeAdvance(h.unstable, h.ready)
  {
    hide StoreOk, Joined, ReadyOk, Beyond, Ordered;
    if !SafeAdvance(h.unstable, h.ready) {
      var (i, t) := LastOf(h.ready).value;
      StoredPrefix(h, i, t);
      assert false;
    }
  }
}
