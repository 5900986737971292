/**
 A whole cluster: every node, every message ever sent, and the history of the run.
 Keeping all messages covers loss, duplication, delay and reordering; one step is one handler
 run to completion with its state persisted before its messages leave.
 */
module Cluster {
  import opened RaftTypes
  import opened Quorum
  import opened RaftNode
  import opened Core = RaftCore

  /** What was already committed, and which nodes had moved on, when a read was accepted. */
  datatype ReadMark = ReadMark(before: set<Commit>, late: set<Id>)
  datatype Answer = Answer(term: Term, ctx: Ctx, index: nat)

  type Marks = map<(Term, Ctx), ReadMark>

  datatype Cluster = Cluster(
    voters: set<Id>,
    nodes: map<Id, Node>,
    msgs: set<Msg>,
    core: Core.Core, // history
    marks: Marks, // history
    answers: set<Answer>, // history
    spoiled: set<Term>) // history: the terms in which a read context was used again after it was answered

  // ---------------------------------------------------------------- steps

  function FirstNode(voters: set<Id>, v: Id, boot: seq<Entry>): Node {
    Node(v, BOOT_TERM, NO_NODE, Follower, NO_NODE, boot, |boot|,
         map u | u in voters :: if u == v then |boot| else 0, map[], {}, NO_READS, {})
  }

  ghost predicate Initial(c: Cluster) {
    && NO_NODE !in c.voters && c.voters != {}
    && exists boot :: BootLog(boot) && c == FirstCluster(c.voters, boot)
  }

  /** Every node starts with the same committed bootstrap entries and nothing else. */
  ghost function FirstCluster(voters: set<Id>, boot: seq<Entry>): Cluster {
    Cluster(voters, map v | v in voters :: FirstNode(voters, v, boot), {}, Core.Init(voters, boot), map[], {}, {})
  }

  /** May this event happen at node n? Messages must have been sent to it. */
  ghost predicate CanHappen(msgs: set<Msg>, n: Node, ev: Event) {
    ev.Recv? ==> ev.m in msgs && ev.m.to == n.id
  }

  /** A leader takes a context into its queue that it had answered before. */
  ghost predicate Reuses(voters: set<Id>, n: Node, ev: Event) {
    && ev.ReadReq? && |voters| != 1 && n.role == Leader && TermAt(n.log, n.committed) == n.term
    && ev.ctx in n.asked && ev.ctx !in n.readOnly.pending
  }

  ghost predicate Enabled(c: Cluster, v: Id, ev: Event) {
    v in c.voters && v in c.nodes && c.nodes[v].id == v && CanHappen(c.msgs, c.nodes[v], ev)
  }

  ghost predicate Next(c: Cluster, c': Cluster) {
    exists v, ev :: Moves(c, c', v, ev)
  }

  ghost predicate Moves(c: Cluster, c': Cluster, v: Id, ev: Event) {
    && Enabled(c, v, ev)
    && var e := Handle(c.voters, c.nodes[v], ev);
       e.Step? && c' == After(c, v, ev, e)
  }

  ghost function After(c: Cluster, v: Id, ev: Event, e: Effect): Cluster
    requires v in c.nodes && e.Step?
  {
    var n := c.nodes[v];
    c.(nodes := c.nodes[v := e.node],
       msgs := c.msgs + e.out,
       core := Record(c.core, v, n, ev, e),
       marks := Mark(c, n, ev),
       answers := c.answers + (set r | r in e.released :: Answer(n.term, r.ctx, r.index)),
       spoiled := Spoil(c, n, ev))
  }

  // ---------------------------------------------------------------- history

  ghost function Record(s: Core.Core, v: Id, n: Node, ev: Event, e: Effect): Core.Core
    requires e.Step?
  {
    if v !in s.term || v !in s.log then s
    else
      match ev
      case Hup =>
        if n.role == Leader then s
        else if e.node.role == Leader then NoteElection(Campaign(s, v), v, e.node)
        else Campaign(s, v)
      case Recv(m) => if m.term < n.term then s else RecordMsg(BumpTerm(s, v, m.term), v, n, m, e)
      case Propose(items) =>
        if n.role == Leader && n.term in s.leaderLog && s.term[v] == n.term then Extend(s, v, NewEntries(n, items))
        else s
      case SelfAck(index) =>
        if n.role == Leader && index <= |n.log| then NoteCommit(NoteAck(s, v, index), n, e.node) else s
      case _ => s
  }

  ghost function RecordMsg(s: Core.Core, v: Id, n: Node, m: Msg, e: Effect): Core.Core
    requires e.Step? && v in s.term && v in s.log
  {
    match m
    case VoteReq(from, _, term, _, _) => if VoteResp(v, from, term, false) in e.out then CastVote(s, v, from) else s
    case VoteResp(_, _, _, _) => if n.role != Leader && e.node.role == Leader then NoteElection(s, v, e.node) else s
    case App(_, _, _, _, _, _, _) => NoteAcks(s, v, e.out)
    case Snap(_, _, _, _) => NoteAcks(s, v, e.out)
    case AppResp(_, _, _, _, _, _, _) => NoteCommit(s, n, e.node)
    case _ => s
  }

  ghost function NoteElection(s: Core.Core, v: Id, n': Node): Core.Core
    requires v in s.term && v in s.log
  {
    if n'.log == [] then s else Elect(s, v, n'.log[|n'.log| - 1])
  }

  ghost function NoteAck(s: Core.Core, v: Id, index: nat): Core.Core
    requires v in s.term && v in s.log
  {
    if s.term[v] in s.leaderLog && index <= |s.leaderLog[s.term[v]]| then Replicate(s, v, index) else s
  }

  ghost function NoteAcks(s: Core.Core, v: Id, out: set<Msg>): Core.Core
    requires v in s.term && v in s.log
  {
    if exists r :: r in out && r.AppResp? && !r.reject then
      var r :| r in out && r.AppResp? && !r.reject;
      NoteAck(s, v, r.index)
    else s
  }

  ghost function NoteCommit(s: Core.Core, n: Node, n': Node): Core.Core {
    if n'.role == Leader && n'.committed > n.committed then Decide(s, n.term, n'.committed) else s
  }

  ghost function Mark(c: Cluster, n: Node, ev: Event): Marks {
    if ev.ReadReq? && n.role == Leader && (n.term, ev.ctx) !in c.marks
       && (|c.voters| == 1 || TermAt(n.log, n.committed) == n.term) then
      c.marks[(n.term, ev.ctx) := ReadMark(c.core.commits, set u | u in c.core.term && c.core.term[u] > n.term)]
    else c.marks
  }

  ghost function Spoil(c: Cluster, n: Node, ev: Event): set<Term> {
    if Reuses(c.voters, n, ev) then c.spoiled + {n.term} else c.spoiled
  }

  // ---------------------------------------------------------------- the invariant

  /** p is a prefix of something committed in a term up to t. */
  ghost predicate Settled(s: Core.Core, p: seq<Entry>, t: Term) {
    p == [] || exists d :: SettledBy(s, p, t, d)
  }

  ghost predicate SettledBy(s: Core.Core, p: seq<Entry>, t: Term, d: Commit) {
    d in s.commits && d.term <= t && |p| <= d.index && d.term in s.leaderLog && p <= s.leaderLog[d.term]
  }

  ghost predicate NodeOk(s: Core.Core, n: Node) {
    && n.id in s.voters && n.id in s.term && n.id in s.log
    && s.term[n.id] == n.term && s.log[n.id] == n.log
    && n.progress.Keys == s.voters
    && n.committed <= |n.log| && Settled(s, n.log[..n.committed], n.term)
    && (n.vote != NO_NODE ==> Ballot(n.id, n.term, n.vote) in s.ballots)
    && (forall c :: Ballot(n.id, n.term, c) in s.ballots ==> n.vote == c)
    && (n.role == Candidate ==> CandidateOk(s, n))
    && (n.role == Leader ==> LeaderOk(s, n))
  }

  ghost predicate CandidateOk(s: Core.Core, n: Node) {
    && (n.id, n.term) in s.campaign && s.campaign[(n.id, n.term)] == n.log
    && n.vote == n.id
    && (n.term in s.leaderOf ==> s.leaderOf[n.term] != n.id)
    && (forall u :: u in n.votes && n.votes[u] ==> Ballot(u, n.term, n.id) in s.ballots)
  }

  ghost predicate LeaderOk(s: Core.Core, n: Node) {
    && n.term in s.leaderOf && s.leaderOf[n.term] == n.id
    && n.lead == n.id
    && (forall u :: u in n.progress ==> n.progress[u] <= Acked(s.acked, u, n.term))
    && (forall u :: u in n.heard ==> u in s.voters && u in s.term && n.term <= s.term[u])
  }

  ghost predicate FromLeader(s: Core.Core, m: Msg) {
    m.term in s.leaderLog && m.term in s.leaderOf && s.leaderOf[m.term] == m.from
  }

  ghost predicate MsgOk(s: Core.Core, marks: Marks, m: Msg) {
    && m.from in s.voters && m.to in s.voters && m.from != m.to
    && m.from in s.term && BOOT_TERM <= m.term <= s.term[m.from]
    && match m
       case VoteReq(from, _, term, index, logTerm) =>
         (from, term) in s.campaign && index == |s.campaign[(from, term)]|
             && logTerm == LastTerm(s.campaign[(from, term)])
       case VoteResp(from, to, term, reject) => !reject ==> Ballot(from, term, to) in s.ballots
       case App(_, _, term, index, logTerm, entries, commit) =>
         && FromLeader(s, m)
         && index + |entries| <= |s.leaderLog[term]| && entries == s.leaderLog[term][index..index + |entries|]
         && logTerm == TermAt(s.leaderLog[term], index)
         && commit <= |s.leaderLog[term]| && Settled(s, s.leaderLog[term][..commit], term)
       case AppResp(from, _, term, index, reject, _, _) => !reject ==> index <= Acked(s.acked, from, term)
       case Heartbeat(_, to, term, commit, ctx) =>
         && FromLeader(s, m)
         && commit <= |s.leaderLog[term]| && commit <= Acked(s.acked, to, term)
              && Settled(s, s.leaderLog[term][..commit], term)
         && (ctx != [] ==> (term, ctx) in marks)
       case HeartbeatResp(from, _, term, ctx) =>
         ctx != [] ==> (term, ctx) in marks && from !in marks[(term, ctx)].late
       case Snap(_, to, term, prefix) =>
         && FromLeader(s, m) && prefix != [] && prefix <= s.leaderLog[term] && Settled(s, prefix, term)
         && to in s.term && term <= s.term[to] // only a node that has reached the term is sent a snapshot
  }

  ghost predicate Indexed(lls: LeaderLogs) {
    forall t {:trigger lls[t]} :: t in lls ==> IndexedFrom(lls[t], 0)
  }

  /** The node that declared a commit remembers it; bootstrap entries are committed everywhere. */
  ghost predicate CommitKnown(s: Core.Core, nodes: map<Id, Node>, d: Commit) {
    && d.term in s.leaderOf
    && forall v :: v in nodes && (d.term == BOOT_TERM || s.leaderOf[d.term] == v) ==> d.index <= nodes[v].committed
  }

  ghost predicate MarkOk(s: Core.Core, t: Term, r: ReadMark) {
    && t in s.leaderLog
    && r.before <= s.commits
    && r.late <= s.voters && r.late <= s.term.Keys && (forall u :: u in r.late ==> s.term[u] > t)
    && (forall d :: d in r.before && d.term > t ==> IsQuorum(r.late, s.voters))
  }

  /** A leader's queue of unanswered reads: distinct, all of them pending and accepted once. */
  ghost predicate QueueOk(marks: Marks, n: Node) {
    && (forall i :: 0 <= i < |n.readOnly.queue| ==> n.readOnly.queue[i] in n.readOnly.pending)
    && (forall i, j :: 0 <= i < j < |n.readOnly.queue| ==> n.readOnly.queue[i] != n.readOnly.queue[j])
    && (forall x :: x in n.readOnly.pending ==> x in n.readOnly.queue && (n.term, x) in marks)
  }

  /** If no context was used again, the queue is in order of acceptance and confirmed by no late node. */
  ghost predicate ReadsOk(voters: set<Id>, marks: Marks, n: Node) {
    && (forall i :: 0 <= i < |n.readOnly.queue| ==> n.readOnly.queue[i] in n.readOnly.pending)
    && (forall i, j :: 0 <= i < j < |n.readOnly.queue| ==> n.readOnly.queue[i] != n.readOnly.queue[j])
    && (forall x :: x in n.readOnly.pending ==> x in n.readOnly.queue && x in n.asked && PendingOk(voters, marks, n, x))
    && (forall i, j :: 0 <= i < j < |n.readOnly.queue| ==>
         Earlier(marks, n.term, n.readOnly.queue[i], n.readOnly.queue[j]))
    && (|voters| != 1 ==> forall x :: (n.term, x) in marks ==> x in n.asked)
  }

  ghost predicate PendingOk(voters: set<Id>, marks: Marks, n: Node, x: Ctx)
    requires x in n.readOnly.pending
  {
    && (n.term, x) in marks
    && n.readOnly.pending[x].acks * marks[(n.term, x)].late == {}
    && forall d :: d in marks[(n.term, x)].before && d.term <= n.term ==> d.index <= n.readOnly.pending[x].index
  }

  ghost predicate Earlier(marks: Marks, t: Term, x: Ctx, y: Ctx) {
    (t, x) in marks && (t, y) in marks && marks[(t, x)].late <= marks[(t, y)].late
  }

  /** The linearizability promise for one answered read. */
  ghost predicate AnswerOk(marks: Marks, a: Answer) {
    (a.term, a.ctx) in marks && forall d :: d in marks[(a.term, a.ctx)].before ==> d.index <= a.index
  }

  ghost predicate Wired(c: Cluster) {
    && c.core.voters == c.voters && c.nodes.Keys == c.voters && NO_NODE !in c.voters
    && forall v :: v in c.nodes ==> c.nodes[v].id == v
  }

  ghost predicate ProtocolInv(c: Cluster) {
    && Wired(c) && CoreInv(c.core) && Indexed(c.core.leaderLog)
    && (forall v :: v in c.nodes ==> NodeOk(c.core, c.nodes[v]))
    && (forall m :: m in c.msgs ==> MsgOk(c.core, c.marks, m))
    && (forall d :: d in c.core.commits ==> CommitKnown(c.core, c.nodes, d))
  }

  ghost predicate LeaderReadsOk(c: Cluster, n: Node) {
    QueueOk(c.marks, n) && (n.term !in c.spoiled ==> ReadsOk(c.voters, c.marks, n))
  }

  ghost predicate ReadInv(c: Cluster) {
    && (forall t, x :: (t, x) in c.marks ==> MarkOk(c.core, t, c.marks[(t, x)]))
    && (forall v :: v in c.nodes && c.nodes[v].role == Leader ==> LeaderReadsOk(c, c.nodes[v]))
    && (forall a :: a in c.answers && a.term !in c.spoiled ==> AnswerOk(c.marks, a))
  }

  ghost predicate Inv(c: Cluster) {
    ProtocolInv(c) && ReadInv(c)
  }
}
