/**
 One Raft node as a deterministic machine: what each handler of etcd/raft/raft.go does to the node
 and which messages it sends, for the configuration RedisGO runs (no PreVote, no CheckQuorum,
 ReadOnlySafe, a fixed set of voters).
 */
module RaftNode {
  import opened RaftTypes
  import opened Quorum
  import opened LogView

  type Ctx = seq<Byte>

  datatype Role = Follower | Candidate | Leader

  datatype ReadStatus = ReadStatus(index: nat, acks: set<Id>)
  datatype ReadOnly = ReadOnly(queue: seq<Ctx>, pending: map<Ctx, ReadStatus>)

  datatype Node = Node(
    id: Id,
    term: Term,
    vote: Id,
    role: Role,
    lead: Id,
    log: seq<Entry>,
    committed: nat,
    progress: map<Id, nat>, // Match of every voter
    votes: map<Id, bool>,
    heard: set<Id>, // the peers that answered since the last reset (RecentActive)
    readOnly: ReadOnly,
    asked: set<Ctx>) // contexts accepted since the last reset; no handler reads it

  datatype Msg =
    | VoteReq(from: Id, to: Id, term: Term, index: nat, logTerm: Term)
    | VoteResp(from: Id, to: Id, term: Term, reject: bool)
    | App(from: Id, to: Id, term: Term, index: nat, logTerm: Term, entries: seq<Entry>, commit: nat)
    | AppResp(from: Id, to: Id, term: Term, index: nat, reject: bool, hint: nat, logTerm: Term)
    | Heartbeat(from: Id, to: Id, term: Term, commit: nat, ctx: Ctx)
    | HeartbeatResp(from: Id, to: Id, term: Term, ctx: Ctx)
    | Snap(from: Id, to: Id, term: Term, prefix: seq<Entry>) // the state after these entries

  datatype Event =
    | Hup
    | Recv(m: Msg)
    | Propose(items: seq<(Kind, seq<Byte>)>)
    | SendApp(to: Id, next: nat, count: nat)
    | SendSnap(to: Id, index: nat)
    | Beat(to: Id)
    | SelfAck(index: nat)
    | ReadReq(ctx: Ctx)
    | Restart

  datatype Released = Released(ctx: Ctx, index: nat)

  datatype Effect =
    | Panic
    | Step(node: Node, out: set<Msg>, released: seq<Released>)

  const NO_READS := ReadOnly([], map[])

  // ---------------------------------------------------------------- role changes

  function Reset(voters: set<Id>, n: Node, term: Term): Node {
    n.(term := term,
       vote := if n.term != term then NO_NODE else n.vote,
       lead := NO_NODE,
       progress := map v | v in voters :: if v == n.id then |n.log| else 0,
       votes := map[],
       heard := {},
       readOnly := NO_READS,
       asked := {})
  }

  function BecomeFollower(voters: set<Id>, n: Node, term: Term, lead: Id): Node {
    Reset(voters, n, term).(role := Follower, lead := lead)
  }

  function BecomeCandidate(voters: set<Id>, n: Node): Node {
    Reset(voters, n, n.term + 1).(role := Candidate, vote := n.id)
  }

  function BecomeLeader(voters: set<Id>, n: Node): Node {
    var r := Reset(voters, n, n.term).(role := Leader, lead := n.id);
    r.(log := r.log + [Entry(|r.log| + 1, r.term, Normal, [])])
  }

  // ---------------------------------------------------------------- elections

  function Granted(voters: set<Id>, votes: map<Id, bool>): set<Id> {
    set v | v in voters && v in votes && votes[v]
  }

  function Denied(voters: set<Id>, votes: map<Id, bool>): set<Id> {
    set v | v in voters && v in votes && !votes[v]
  }

  ghost predicate VoteWon(voters: set<Id>, votes: map<Id, bool>) {
    IsQuorum(Granted(voters, votes), voters)
  }

  ghost predicate VoteLost(voters: set<Id>, votes: map<Id, bool>) {
    !VoteWon(voters, votes) && !IsQuorum(voters - Denied(voters, votes), voters)
  }

  function RecordVote(votes: map<Id, bool>, id: Id, granted: bool): map<Id, bool> {
    if id in votes then votes else votes[id := granted]
  }

  ghost function HandleHup(voters: set<Id>, n: Node): Effect {
    if n.role == Leader then Step(n, {}, [])
    else
      var c := BecomeCandidate(voters, n);
      var c' := c.(votes := RecordVote(c.votes, n.id, true));
      if VoteWon(voters, c'.votes) then Step(BecomeLeader(voters, c'), {}, [])
      else Step(c', VoteRequests(voters, c'), [])
  }

  function VoteRequests(voters: set<Id>, n: Node): set<Msg> {
    set v | v in voters && v != n.id :: VoteReq(n.id, v, n.term, |n.log|, LastTerm(n.log))
  }

  function HandleVoteReq(n: Node, m: Msg): Effect
    requires m.VoteReq?
  {
    if (n.vote == m.from || (n.vote == NO_NODE && n.lead == NO_NODE)) && UpToDate(m.index, m.logTerm, n.log) then
      Step(n.(vote := m.from), {VoteResp(n.id, m.from, m.term, false)}, [])
    else
      Step(n, {VoteResp(n.id, m.from, n.term, true)}, [])
  }

  ghost function HandleVoteResp(voters: set<Id>, n: Node, m: Msg): Effect
    requires m.VoteResp?
  {
    var c := n.(votes := RecordVote(n.votes, m.from, !m.reject));
    if VoteWon(voters, c.votes) then Step(BecomeLeader(voters, c), {}, [])
    else if VoteLost(voters, c.votes) then Step(BecomeFollower(voters, c, c.term, NO_NODE), {}, [])
    else Step(c, {}, [])
  }

  // ---------------------------------------------------------------- followers

  function HandleApp(n: Node, m: Msg): Effect
    requires m.App?
  {
    if m.index < n.committed then
      Step(n, {AppResp(n.id, m.from, n.term, n.committed, false, 0, 0)}, [])
    else
      match MaybeAppend(FullView(n.log), n.committed, m.index, m.logTerm, m.commit, m.entries)
      case Panicked => Panic
      case Appended(v, c, last) =>
        Step(n.(log := v.ents, committed := c), {AppResp(n.id, m.from, n.term, last, false, 0, 0)}, [])
      case Rejected =>
        var v := FullView(n.log);
        var hint := ConflictByTerm(v, Min(m.index, Last(v)), m.logTerm);
        Step(n, {AppResp(n.id, m.from, n.term, m.index, true, hint, TermOf(v, hint))}, [])
  }

  function HandleHeartbeat(n: Node, m: Msg): Effect
    requires m.Heartbeat?
  {
    match CommitTo(FullView(n.log), n.committed, m.commit)
    case None => Panic
    case Some(c) => Step(n.(committed := c), {HeartbeatResp(n.id, m.from, n.term, m.ctx)}, [])
  }

  function HandleSnap(n: Node, m: Msg): Effect
    requires m.Snap?
  {
    var index := |m.prefix|;
    if index <= n.committed then
      Step(n, {AppResp(n.id, m.from, n.term, n.committed, false, 0, 0)}, [])
    else if TermAt(n.log, index) == LastTerm(m.prefix) then
      match CommitTo(FullView(n.log), n.committed, index)
      case None => Panic
      case Some(c) => Step(n.(committed := c), {AppResp(n.id, m.from, n.term, c, false, 0, 0)}, [])
    else
      Step(n.(log := m.prefix, committed := index), {AppResp(n.id, m.from, n.term, index, false, 0, 0)}, [])
  }

  // ---------------------------------------------------------------- leaders

  ghost function MaxProgress(s: set<Id>, progress: map<Id, nat>): (m: nat)
    requires s <= progress.Keys
    ensures forall v :: v in s ==> progress[v] <= m
  {
    if s == {} then 0
    else
      var v :| v in s;
      Max(progress[v], MaxProgress(s - {v}, progress))
  }

  ghost function Reached(voters: set<Id>, progress: map<Id, nat>, index: nat): set<Id>
    requires voters <= progress.Keys
  {
    set v | v in voters && index <= progress[v]
  }

  /** The largest index up to `bound` that a majority has reached. */
  ghost function LargestReached(voters: set<Id>, progress: map<Id, nat>, bound: nat): (r: nat)
    requires voters <= progress.Keys
    ensures r <= bound
    ensures r > 0 ==> IsQuorum(Reached(voters, progress, r), voters)
    ensures forall i :: r < i <= bound ==> !IsQuorum(Reached(voters, progress, i), voters)
  {
    if bound == 0 || IsQuorum(Reached(voters, progress, bound), voters) then bound
    else LargestReached(voters, progress, bound - 1)
  }

  /** The quorum's commit index: the largest index a majority has acknowledged. */
  ghost function CommittedIndex(voters: set<Id>, progress: map<Id, nat>): nat
    requires voters <= progress.Keys
  {
    LargestReached(voters, progress, MaxProgress(voters, progress))
  }

  ghost function Acknowledge(voters: set<Id>, n: Node, from: Id, index: nat): Effect {
    if from !in n.progress || index <= n.progress[from] || !(voters <= n.progress.Keys) then Step(n, {}, [])
    else
      var n' := n.(progress := n.progress[from := index]);
      var mci := CommittedIndex(voters, n'.progress);
      if mci > n.committed && TermAt(n.log, mci) == n.term then
        match CommitTo(FullView(n.log), n.committed, mci)
        case None => Panic
        case Some(c) => Step(n'.(committed := c), {}, [])
      else Step(n', {}, [])
  }

  function NewEntries(n: Node, items: seq<(Kind, seq<Byte>)>): seq<Entry> {
    seq(|items|, i requires 0 <= i < |items| => Entry(|n.log| + i + 1, n.term, items[i].0, items[i].1))
  }

  function Heartbeats(voters: set<Id>, n: Node, ctx: Ctx): set<Msg> {
    set v | v in voters && v != n.id && v in n.progress ::
      Heartbeat(n.id, v, n.term, Min(n.progress[v], n.committed), ctx)
  }

  function LastPendingCtx(r: ReadOnly): Ctx {
    if r.queue == [] then [] else r.queue[|r.queue| - 1]
  }

  // ---------------------------------------------------------------- read-only requests

  function AddRequest(r: ReadOnly, index: nat, ctx: Ctx): ReadOnly {
    if ctx in r.pending then r
    else ReadOnly(r.queue + [ctx], r.pending[ctx := ReadStatus(index, {})])
  }

  function RecvAck(r: ReadOnly, id: Id, ctx: Ctx): ReadOnly {
    if ctx !in r.pending then r
    else r.(pending := r.pending[ctx := r.pending[ctx].(acks := r.pending[ctx].acks + {id})])
  }

  /** How many queued requests go out when `ctx` is confirmed; 0 if it is not queued. */
  function ReleaseCount(queue: seq<Ctx>, ctx: Ctx): nat
    ensures ReleaseCount(queue, ctx) <= |queue|
  {
    if queue == [] then 0
    else if queue[0] == ctx then 1
    else
      var k := ReleaseCount(queue[1..], ctx);
      if k == 0 then 0 else k + 1
  }

  predicate AllPending(r: ReadOnly, k: nat)
    requires k <= |r.queue|
  {
    forall i :: 0 <= i < k ==> r.queue[i] in r.pending
  }

  /** The state after the first k queued requests were answered. */
  function AfterRelease(r: ReadOnly, k: nat): ReadOnly
    requires k <= |r.queue|
  {
    ReadOnly(r.queue[k..], map c | c in r.pending && c !in r.queue[..k] :: r.pending[c])
  }

  function Answers(r: ReadOnly, k: nat): seq<Released>
    requires k <= |r.queue| && AllPending(r, k)
  {
    seq(k, i requires 0 <= i < k => Released(r.queue[i], r.pending[r.queue[i]].index))
  }

  ghost function HandleHeartbeatResp(voters: set<Id>, n: Node, m: Msg): Effect
    requires m.HeartbeatResp?
  {
    if m.from !in n.progress || m.ctx == [] || m.ctx !in n.readOnly.pending then Step(n, {}, [])
    else
      var r := RecvAck(n.readOnly, m.from, m.ctx);
      if !IsQuorum(r.pending[m.ctx].acks * voters, voters) then Step(n.(readOnly := r), {}, [])
      else
        var k := ReleaseCount(r.queue, m.ctx);
        if !AllPending(r, k) then Panic
        else Step(n.(readOnly := AfterRelease(r, k)), {}, Answers(r, k))
  }

  function HandleReadReq(voters: set<Id>, n: Node, ctx: Ctx): Effect {
    if n.role != Leader then Step(n, {}, [])
    else if |voters| == 1 then Step(n, {}, [Released(ctx, n.committed)])
    else if TermAt(n.log, n.committed) != n.term then Step(n, {}, []) // postponed: delivered again later
    else
      var r := RecvAck(AddRequest(n.readOnly, n.committed, ctx), n.id, ctx);
      Step(n.(readOnly := r, asked := n.asked + {ctx}), Heartbeats(voters, n, ctx), [])
  }

  // ---------------------------------------------------------------- the dispatcher

  function MeetTerm(voters: set<Id>, n: Node, m: Msg): Node {
    if m.term > n.term then
      BecomeFollower(voters, n, m.term, if m.App? || m.Heartbeat? || m.Snap? then m.from else NO_NODE)
    else n
  }

  function AsFollower(voters: set<Id>, n: Node, m: Msg): Node {
    if n.role == Candidate then BecomeFollower(voters, n, m.term, m.from) else n.(lead := m.from)
  }

  function Hear(n: Node, from: Id): Node {
    if from in n.progress then n.(heard := n.heard + {from}) else n
  }

  /** What a node does with a message of its own term, by type and role. */
  ghost function Dispatch(voters: set<Id>, n: Node, m: Msg): Effect {
    match m
    case VoteReq(_, _, _, _, _) => HandleVoteReq(n, m)
    case VoteResp(_, _, _, _) => if n.role == Candidate then HandleVoteResp(voters, n, m) else Step(n, {}, [])
    case App(_, _, _, _, _, _, _) =>
        if n.role == Leader then Step(n, {}, []) else HandleApp(AsFollower(voters, n, m), m)
    case Heartbeat(_, _, _, _, _) =>
        if n.role == Leader then Step(n, {}, []) else HandleHeartbeat(AsFollower(voters, n, m), m)
    case Snap(_, _, _, _) => if n.role == Leader then Step(n, {}, []) else HandleSnap(AsFollower(voters, n, m), m)
    case AppResp(from, _, _, index, reject, _, _) =>
      if n.role != Leader then Step(n, {}, [])
      else if reject then Step(Hear(n, from), {}, [])
      else Acknowledge(voters, Hear(n, from), from, index)
    case HeartbeatResp(from, _, _, _) =>
      if n.role == Leader then HandleHeartbeatResp(voters, Hear(n, from), m) else Step(n, {}, [])
  }

  ghost function HandleMsg(voters: set<Id>, n: Node, m: Msg): Effect {
    if m.term < n.term then Step(n, {}, [])
    else Dispatch(voters, MeetTerm(voters, n, m), m)
  }

  ghost function Handle(voters: set<Id>, n: Node, ev: Event): Effect {
    match ev
    case Hup => HandleHup(voters, n)
    case Recv(m) => HandleMsg(voters, n, m)
    case Propose(items) =>
      if n.role == Leader then Step(n.(log := n.log + NewEntries(n, items)), {}, []) else Step(n, {}, [])
    case SendApp(to, next, count) =>
      if n.role == Leader && to in voters && to != n.id && 0 < next && next - 1 + count <= |n.log| then
        Step(n, {App(n.id, to, n.term, next - 1, TermAt(n.log, next - 1), n.log[next - 1..next - 1 + count],
            n.committed)}, [])
      else Step(n, {}, [])
    case SendSnap(to, index) =>
      if n.role == Leader && to in voters && to != n.id && to in n.heard && 0 < index <= n.committed
          && index <= |n.log| then
        Step(n, {Snap(n.id, to, n.term, n.log[..index])}, [])
      else Step(n, {}, [])
    case Beat(to) =>
      if n.role == Leader && to in voters && to != n.id && to in n.progress then
        Step(n, {Heartbeat(n.id, to, n.term, Min(n.progress[to], n.committed), LastPendingCtx(n.readOnly))}, [])
      else Step(n, {}, [])
    case SelfAck(index) =>
      if n.role == Leader && index <= |n.log| then Acknowledge(voters, n, n.id, index) else Step(n, {}, [])
    case ReadReq(ctx) => HandleReadReq(voters, n, ctx)
    case Restart => Step(BecomeFollower(voters, n, n.term, NO_NODE), {}, [])
  }
}
