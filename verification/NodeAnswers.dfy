/**
 What each event makes of a node and which messages go out, said of the whole event and in terms of
 sets, positions and terms rather than of the handlers (etcd/raft/raft.go).
 */
module NodeAnswers {
  import opened RaftTypes
  import opened Quorum
  import opened LogView
  import opened RaftNode
  import opened Probe
  import opened ReadQueue

  /** The node a node is when it has adopted a term: nothing is known of that term yet. */
  ghost predicate Adopted(voters: set<Id>, n: Node, n': Node, term: Term) {
    && n'.id == n.id && n'.log == n.log && n'.committed == n.committed && n'.term == term
    && n'.votes == map[] && n'.heard == {} && n'.readOnly == NO_READS && n'.progress.Keys == voters
    && (forall v :: v in voters ==> n'.progress[v] == if v == n.id then |n.log| else 0)
  }

  lemma OldTermIsIgnored(voters: set<Id>, n: Node, m: Msg)
    requires m.term < n.term
    ensures Handle(voters, n, Recv(m)) == Step(n, {}, [])
  {
  }

  // ---------------------------------------------------------------- elections

  /** A node that is no leader starts a new term with a vote for itself, and asks every other voter for theirs; a lone
      voter has won. */
  lemma HupAnswer(voters: set<Id>, n: Node)
    requires n.id in voters && n.role != Leader
    ensures var e := Handle(voters, n, Hup);
            && e.Step? && e.released == [] && e.node.id == n.id && e.node.term == n.term + 1 && e.node.vote == n.id
            && e.node.committed == n.committed
            && (|voters| == 1 ==>
                  && e.node.role == Leader && e.node.lead == n.id && e.out == {}
                  && e.node.log == n.log + [Entry(|n.log| + 1, n.term + 1, Normal, [])])
            && (|voters| != 1 ==>
                  && e.node.role == Candidate && e.node.lead == NO_NODE && e.node.log == n.log
                  && e.node.votes == map[n.id := true]
                  && forall m :: m in e.out <==>
                       m.VoteReq? && m.to in voters && m.to != n.id
                       && m == VoteReq(n.id, m.to, n.term + 1, |n.log|, TermAt(n.log, |n.log|)))
  {
    var c := BecomeCandidate(voters, n);
    var votes := RecordVote(c.votes, n.id, true);
    assert Granted(voters, votes) == {n.id};
    if |voters| == 1 { LoneSet(voters, n.id); }
  }

  lemma LoneSet(s: set<Id>, x: Id)
    requires |s| == 1 && x in s
    ensures s == {x}
  {
    if s != {x} {
      var y :| y in s && y != x;
      SubsetSize({x, y}, s);
    }
  }

  /** A leader ignores the call to campaign. */
  lemma LeaderHup(voters: set<Id>, n: Node)
    requires n.role == Leader
    ensures Handle(voters, n, Hup) == Step(n, {}, [])
  {
  }

  /** A log that ends at (term, index) is at least as far as this one: by term, then by length. */
  predicate AtLeast(term: Term, index: nat, log: seq<Entry>) {
    term > TermAt(log, |log|) || (term == TermAt(log, |log|) && index >= |log|)
  }

  /** May node n, once in the term of the request, vote for the candidate? In a new term it has voted for nobody. */
  predicate Free(n: Node, term: Term, from: Id) {
    n.term < term || n.vote == from || (n.vote == NO_NODE && n.lead == NO_NODE)
  }

  /** A vote is granted exactly when the node is free to and the candidate's log is at least as far as its own, and
      there is one answer in any case. */
  lemma VoteAnswer(voters: set<Id>, n: Node, m: Msg)
    requires m.VoteReq? && n.term <= m.term
    ensures var e := Handle(voters, n, Recv(m));
            var granted := Free(n, m.term, m.from) && AtLeast(m.logTerm, m.index, n.log);
            && e.Step? && e.released == []
            && e.node.term == m.term && e.node.log == n.log && e.node.committed == n.committed
            && e.out == {VoteResp(n.id, m.from, m.term, !granted)}
            && e.node.vote == (if granted then m.from else if n.term < m.term then NO_NODE else n.vote)
            && (n.term < m.term ==>
                  Adopted(voters, n, e.node, m.term) && e.node.role == Follower && e.node.lead == NO_NODE)
            && (n.term == m.term ==> e.node == n.(vote := e.node.vote))
  {
  }

  /** The votes a candidate has counted after this answer: the first of each voter. */
  function Counted(votes: map<Id, bool>, from: Id, granted: bool): map<Id, bool> {
    if from in votes then votes else votes[from := granted]
  }

  function Yes(voters: set<Id>, votes: map<Id, bool>): set<Id> {
    set v | v in voters && v in votes && votes[v]
  }

  function No(voters: set<Id>, votes: map<Id, bool>): set<Id> {
    set v | v in voters && v in votes && !votes[v]
  }

  /** A node that has just won its term: its own empty entry ends its log, and it knows nothing of the others. */
  ghost predicate Wins(voters: set<Id>, n: Node, n': Node) {
    && n'.id == n.id && n'.term == n.term && n'.vote == n.vote && n'.committed == n.committed
    && n'.role == Leader && n'.lead == n.id && n'.log == n.log + [Entry(|n.log| + 1, n.term, Normal, [])]
    && n'.heard == {} && n'.readOnly == NO_READS && n'.progress.Keys == voters
    && (forall v :: v in voters ==> n'.progress[v] == if v == n.id then |n.log| else 0)
  }

  lemma CountsAgree(voters: set<Id>, votes: map<Id, bool>)
    ensures VoteWon(voters, votes) <==> 2 * |Yes(voters, votes)| > |voters|
    ensures VoteLost(voters, votes) <==>
            !VoteWon(voters, votes) && 2 * (|voters| - |No(voters, votes)|) <= |voters|
  {
    assert Yes(voters, votes) == Granted(voters, votes) && No(voters, votes) == Denied(voters, votes);
    var no := No(voters, votes);
    assert |voters - no| == |voters| - |no| by { assert voters == (voters - no) + no; }
  }

  /** A candidate leads with the yes of more than half, gives up when more than half can no longer say yes, and
      otherwise goes on counting. */
  lemma VoteCount(voters: set<Id>, n: Node, m: Msg)
    requires m.VoteResp? && n.term == m.term && n.role == Candidate
    ensures var e := Handle(voters, n, Recv(m));
            var votes := Counted(n.votes, m.from, !m.reject);
            var won := 2 * |Yes(voters, votes)| > |voters|;
            var lost := !won && 2 * (|voters| - |No(voters, votes)|) <= |voters|;
            && e.Step? && e.out == {} && e.released == []
            && (won ==> Wins(voters, n, e.node))
            && (lost ==>
                  && e.node.role == Follower && e.node.lead == NO_NODE && e.node.vote == n.vote
                  && Adopted(voters, n, e.node, n.term))
            && (!won && !lost ==> e.node == n.(votes := votes))
  {
    hide VoteWon, VoteLost, Yes, No;
    CountsAgree(voters, Counted(n.votes, m.from, !m.reject));
  }

  /** An answer to a campaign that is over is ignored. */
  lemma LateVote(voters: set<Id>, n: Node, m: Msg)
    requires m.VoteResp? && n.term == m.term && n.role != Candidate
    ensures Handle(voters, n, Recv(m)) == Step(n, {}, [])
  {
  }

  // ---------------------------------------------------------------- followers

  /** The node follows whoever sent m in that term, and is otherwise as it was but for log and commit position. */
  ghost predicate Obeys(n: Node, n': Node, m: Msg) {
    && n'.id == n.id && n'.role == Follower && n'.lead == m.from && n'.term == m.term
    && n'.vote == if n.term < m.term then NO_NODE else n.vote
  }

  /** A message from the leader of this term or a later one to a node that does not lead this one. */
  predicate FromAbove(n: Node, m: Msg) {
    (m.App? || m.Heartbeat? || m.Snap?) && n.term <= m.term && (n.term == m.term ==> n.role != Leader)
  }

  /** The largest position at or below `from` whose term is at most `term`, or 0. */
  ghost predicate Fallback(log: seq<Entry>, from: nat, term: Term, hint: nat) {
    && hint <= from && (hint == 0 || TermAt(log, hint) <= term)
    && forall j :: hint < j <= from ==> TermAt(log, j) > term
  }

  lemma FullTerms(log: seq<Entry>)
    ensures forall i: nat :: TermOf(FullView(log), i) == TermAt(log, i)
  {
  }

  lemma HintIsFallback(log: seq<Entry>, from: nat, term: Term)
    requires from <= |log|
    ensures Fallback(log, from, term, ConflictByTerm(FullView(log), from, term))
  {
    FullTerms(log);
    ConflictByTermSkips(FullView(log), from, term);
  }

  /** The node that handles a message from above: a follower of its sender, in the message's term. */
  function Met(voters: set<Id>, n: Node, m: Msg): Node {
    AsFollower(voters, MeetTerm(voters, n, m), m)
  }

  lemma MetObeys(voters: set<Id>, n: Node, m: Msg)
    requires FromAbove(n, m)
    ensures var f := Met(voters, n, m);
            && Obeys(n, f, m) && f.log == n.log && f.committed == n.committed
            && Handle(voters, n, Recv(m)) ==
               if m.App? then HandleApp(f, m) else if m.Heartbeat? then HandleHeartbeat(f, m) else HandleSnap(f, m)
  {
    hide HandleApp, HandleHeartbeat, HandleSnap;
  }

  /** An append that starts below the commit position is answered with the commit position. */
  lemma EarlyApp(voters: set<Id>, n: Node, m: Msg)
    requires m.App? && FromAbove(n, m) && m.index < n.committed
    ensures var e := Handle(voters, n, Recv(m));
            && e.Step? && e.released == []
            && Obeys(n, e.node, m) && e.node.log == n.log && e.node.committed == n.committed
            && e.out == {AppResp(n.id, m.from, m.term, n.committed, false, 0, 0)}
  {
    MetObeys(voters, n, m);
    hide Handle, Met;
  }

  /** An append after an entry the log does not have is refused, with the last position at which the two may agree. */
  lemma RefusedApp(voters: set<Id>, n: Node, m: Msg)
    requires m.App? && FromAbove(n, m) && n.committed <= m.index && TermAt(n.log, m.index) != m.logTerm
    ensures var e := Handle(voters, n, Recv(m));
            && e.Step? && e.released == []
            && Obeys(n, e.node, m) && e.node.log == n.log && e.node.committed == n.committed
            && exists hint: nat ::
                 && Fallback(n.log, Min(m.index, |n.log|), m.logTerm, hint)
                 && e.out == {AppResp(n.id, m.from, m.term, m.index, true, hint, TermAt(n.log, hint))}
  {
    MetObeys(voters, n, m);
    hide Handle, Met, Fallback;
    var hint := ConflictByTerm(FullView(n.log), Min(m.index, |n.log|), m.logTerm);
    HintIsFallback(n.log, Min(m.index, |n.log|), m.logTerm);
    FullTerms(n.log);
    MaybeAppendRefuses(n.log, n.committed, m.index, m.logTerm, m.commit, m.entries);
    hide MaybeAppend, ConflictByTerm;
  }

  /** What an append after an entry the log has makes of the log: nothing if the log holds all entries; otherwise the
      log up to the first it does not hold, and the entries from there on. */
  ghost predicate Appends(log: seq<Entry>, committed: nat, m: Msg, panics: bool, log': seq<Entry>)
    requires m.App?
  {
    var v, target := FullView(log), Min(m.commit, m.index + |m.entries|);
    && (HoldsAll(v, m.index, m.entries) ==>
          (panics <==> target > committed && target > |log|) && (!panics ==> log' == log))
    && (forall c: nat :: FirstConflict(v, m.index, m.entries, c) ==>
          (panics <==> m.index + c > |log|) && (!panics ==> log' == log[..m.index + c] + m.entries[c..]))
  }

  lemma AppendOutcome(n: Node, m: Msg)
    requires m.App? && n.committed <= m.index && TermAt(n.log, m.index) == m.logTerm && IndexedFrom(m.entries, m.index)
    ensures var r := MaybeAppend(FullView(n.log), n.committed, m.index, m.logTerm, m.commit, m.entries);
            var last := m.index + |m.entries|;
            && !r.Rejected? && (r.Appended? ==> r.last == last && r.committed == Max(n.committed, Min(m.commit, last)))
            && Appends(n.log, n.committed, m, r == Panicked, if r.Appended? then r.view.ents else [])
  {
    hide MaybeAppend, HoldsAll, FirstConflict, IndexedFrom, FindConflict;
    assert TermOf(FullView(n.log), m.index) == TermAt(n.log, m.index);
    MaybeAppendExactly(FullView(n.log), n.committed, m.index, m.logTerm, m.commit, m.entries);
    FindConflictExactly(FullView(n.log), m.index, m.entries);
  }

  /** An append whose entries the log has already moves the commit position at most; one with news is written from the
      first new entry on. Both are answered with the last position sent. */
  lemma AcceptedApp(voters: set<Id>, n: Node, m: Msg)
    requires m.App? && FromAbove(n, m) && n.committed <= m.index && TermAt(n.log, m.index) == m.logTerm
    requires IndexedFrom(m.entries, m.index)
    ensures var e := Handle(voters, n, Recv(m));
            var last := m.index + |m.entries|;
            && (e.Step? ==>
                  && e.released == [] && Obeys(n, e.node, m)
                  && e.node.committed == Max(n.committed, Min(m.commit, last))
                  && e.out == {AppResp(n.id, m.from, m.term, last, false, 0, 0)})
            && Appends(n.log, n.committed, m, e == Panic, if e.Step? then e.node.log else [])
  {
    hide Handle, Met, HandleApp, Appends, IndexedFrom;
    MetObeys(voters, n, m);
    FollowerAppends(Met(voters, n, m), m);
  }

  lemma FollowerAppends(n: Node, m: Msg)
    requires m.App? && n.committed <= m.index && TermAt(n.log, m.index) == m.logTerm && IndexedFrom(m.entries, m.index)
    ensures var e := HandleApp(n, m);
            var last := m.index + |m.entries|;
            && (e.Step? ==>
                  && e.released == [] && e.node == n.(log := e.node.log, committed := e.node.committed)
                  && e.node.committed == Max(n.committed, Min(m.commit, last))
                  && e.out == {AppResp(n.id, m.from, n.term, last, false, 0, 0)})
            && Appends(n.log, n.committed, m, e == Panic, if e.Step? then e.node.log else [])
  {
    hide MaybeAppend, Appends, IndexedFrom, ConflictByTerm;
    AppendOutcome(n, m);
  }

  /** A heartbeat moves the commit position to what it carries, and is answered with its context. */
  lemma HeartbeatAnswer(voters: set<Id>, n: Node, m: Msg)
    requires m.Heartbeat? && FromAbove(n, m)
    ensures var e := Handle(voters, n, Recv(m));
            && (e == Panic <==> m.commit > n.committed && m.commit > |n.log|)
            && (e.Step? ==>
                  && e.released == [] && Obeys(n, e.node, m) && e.node.log == n.log
                  && e.node.committed == Max(n.committed, m.commit)
                  && e.out == {HeartbeatResp(n.id, m.from, m.term, m.ctx)})
  {
    MetObeys(voters, n, m);
    hide Handle, Met;
  }

  /** A snapshot behind the commit position is ignored, one the log agrees with commits it, and any other replaces the
      log. */
  lemma SnapAnswer(voters: set<Id>, n: Node, m: Msg)
    requires m.Snap? && FromAbove(n, m) && m.prefix != []
    ensures var e := Handle(voters, n, Recv(m));
            var index := |m.prefix|;
            var agrees := TermAt(n.log, index) == TermAt(m.prefix, index);
            && (e == Panic <==> n.committed < index && agrees && |n.log| < index)
            && (e.Step? ==>
                  && e.released == [] && Obeys(n, e.node, m)
                  && e.node.committed == Max(n.committed, index)
                  && e.node.log == (if index <= n.committed || agrees then n.log else m.prefix)
                  && e.out == {AppResp(n.id, m.from, m.term, Max(n.committed, index), false, 0, 0)})
  {
    MetObeys(voters, n, m);
    hide Handle, Met;
  }

  /** A leader ignores what another claims to send as leader of its term. */
  lemma LeaderStands(voters: set<Id>, n: Node, m: Msg)
    requires (m.App? || m.Heartbeat? || m.Snap?) && n.term == m.term && n.role == Leader
    ensures Handle(voters, n, Recv(m)) == Step(n, {}, [])
  {
  }

  // ---------------------------------------------------------------- leaders

  /** How many voters have reached position k. */
  ghost function At(voters: set<Id>, progress: map<Id, nat>, k: nat): set<Id>
    requires voters <= progress.Keys
  {
    set v | v in voters && progress[v] >= k
  }

  /** k is the largest position more than half of the voters have reached. */
  ghost predicate MajorityEnd(voters: set<Id>, progress: map<Id, nat>, k: nat)
    requires voters <= progress.Keys
  {
    && 2 * |At(voters, progress, k)| > |voters|
    && forall j :: k < j ==> 2 * |At(voters, progress, j)| <= |voters|
  }

  lemma MajorityEndIs(voters: set<Id>, progress: map<Id, nat>, k: nat)
    requires voters <= progress.Keys && voters != {} && MajorityEnd(voters, progress, k)
    ensures CommittedIndex(voters, progress) == k
  {
    var bound := MaxProgress(voters, progress);
    assert forall j: nat :: At(voters, progress, j) == Reached(voters, progress, j);
    assert IsQuorum(Reached(voters, progress, k), voters);
    var v :| v in At(voters, progress, k);
    assert k <= progress[v] <= bound;
  }

  lemma MajorityEndExists(voters: set<Id>, progress: map<Id, nat>) returns (k: nat)
    requires voters <= progress.Keys && voters != {}
    ensures MajorityEnd(voters, progress, k)
  {
    k := CommittedIndex(voters, progress);
    assert forall j: nat :: At(voters, progress, j) == Reached(voters, progress, j);
    assert At(voters, progress, 0) == voters;
    var bound := MaxProgress(voters, progress);
    assert forall j: nat :: bound < j ==> At(voters, progress, j) == {};
  }

  /** An acknowledgement raises what the leader knows of its sender, and the commit position goes to the largest
      position more than half have reached, if that is news and ends with an entry of the leader's own term. */
  lemma AckAnswer(voters: set<Id>, n: Node, m: Msg, k: nat)
    requires m.AppResp? && !m.reject && n.term == m.term && n.role == Leader
    requires n.progress.Keys == voters && m.from in voters
    requires MajorityEnd(voters, n.progress[m.from := Max(n.progress[m.from], m.index)], k)
    ensures var e := Handle(voters, n, Recv(m));
            var news := m.index > n.progress[m.from] && k > n.committed && TermAt(n.log, k) == n.term;
            && (e == Panic <==> news && k > |n.log|)
            && (e.Step? ==>
                  && e.out == {} && e.released == []
                  && e.node == n.(progress := n.progress[m.from := Max(n.progress[m.from], m.index)],
                                  heard := n.heard + {m.from}, committed := if news then k else n.committed))
  {
    var progress := n.progress[m.from := Max(n.progress[m.from], m.index)];
    MajorityEndIs(voters, progress, k);
    assert m.index <= n.progress[m.from] ==> progress == n.progress;
    hide CommittedIndex, MajorityEnd;
  }

  /** The same of what the leader has stored itself. */
  lemma SelfAckAnswer(voters: set<Id>, n: Node, index: nat, k: nat)
    requires n.role == Leader && n.progress.Keys == voters && n.id in voters && index <= |n.log|
    requires MajorityEnd(voters, n.progress[n.id := Max(n.progress[n.id], index)], k)
    ensures var e := Handle(voters, n, SelfAck(index));
            var news := index > n.progress[n.id] && k > n.committed && TermAt(n.log, k) == n.term;
            && (e == Panic <==> news && k > |n.log|)
            && (e.Step? ==>
                  && e.out == {} && e.released == []
                  && e.node == n.(progress := n.progress[n.id := Max(n.progress[n.id], index)],
                                  committed := if news then k else n.committed))
  {
    var progress := n.progress[n.id := Max(n.progress[n.id], index)];
    MajorityEndIs(voters, progress, k);
    assert index <= n.progress[n.id] ==> progress == n.progress;
    hide CommittedIndex, MajorityEnd;
  }

  /** A rejection shows that its sender is there, and nothing else. */
  lemma RejectAnswer(voters: set<Id>, n: Node, m: Msg)
    requires m.AppResp? && m.reject && n.term == m.term && n.role == Leader && m.from in n.progress
    ensures Handle(voters, n, Recv(m)) == Step(n.(heard := n.heard + {m.from}), {}, [])
  {
  }

  /** Who does not lead has no use for acknowledgements. */
  lemma NoLeaderNoAck(voters: set<Id>, n: Node, m: Msg)
    requires (m.AppResp? || m.HeartbeatResp?) && n.term == m.term && n.role != Leader
    ensures Handle(voters, n, Recv(m)) == Step(n, {}, [])
  {
  }

  /** A leader's log grows by what was proposed, item by item, with position and term and otherwise unchanged. */
  lemma ProposeAnswer(voters: set<Id>, n: Node, items: seq<(Kind, seq<Byte>)>)
    requires n.role == Leader
    ensures var e := Handle(voters, n, Propose(items));
            && e.Step? && e.out == {} && e.released == [] && e.node == n.(log := e.node.log)
            && |e.node.log| == |n.log| + |items| && e.node.log[..|n.log|] == n.log
            && forall i :: 0 <= i < |items| ==>
                 var x := e.node.log[|n.log| + i];
                 x.kind == items[i].0 && x.data == items[i].1 && x.term == n.term && x.index == |n.log| + i + 1
  {
  }

  /** Who does not lead drops proposals. */
  lemma NoLeaderNoProposal(voters: set<Id>, n: Node, items: seq<(Kind, seq<Byte>)>)
    requires n.role != Leader
    ensures Handle(voters, n, Propose(items)) == Step(n, {}, [])
  {
  }

  /** An append carries the entries from `next` on, the term of the entry before them, and the commit position. */
  lemma SendAppAnswer(voters: set<Id>, n: Node, to: Id, next: nat, count: nat)
    requires n.role == Leader && to in voters && to != n.id && 0 < next && next - 1 + count <= |n.log|
    ensures exists m ::
              && Handle(voters, n, SendApp(to, next, count)) == Step(n, {m}, [])
              && m.App? && m.from == n.id && m.to == to && m.term == n.term && m.commit == n.committed
              && m.index == next - 1 && m.logTerm == TermAt(n.log, next - 1)
              && |m.entries| == count && forall i :: 0 <= i < count ==> m.entries[i] == n.log[next - 1 + i]
  {
    var m := App(n.id, to, n.term, next - 1, TermAt(n.log, next - 1), n.log[next - 1..next - 1 + count], n.committed);
    assert Handle(voters, n, SendApp(to, next, count)) == Step(n, {m}, []);
  }

  /** A snapshot is of committed entries and goes only to a node that has answered. */
  lemma SendSnapAnswer(voters: set<Id>, n: Node, to: Id, index: nat)
    ensures var e := Handle(voters, n, SendSnap(to, index));
            && e.Step? && e.node == n && e.released == []
            && e.out == if n.role == Leader && to in voters && to != n.id && to in n.heard
                           && 0 < index <= n.committed && index <= |n.log|
                        then {Snap(n.id, to, n.term, n.log[..index])} else {}
  {
  }

  /** A heartbeat carries the part of the commit position its receiver has acknowledged, and the context queued last. */
  lemma BeatAnswer(voters: set<Id>, n: Node, to: Id)
    requires n.role == Leader && to in voters && to != n.id && to in n.progress
    ensures exists m ::
              && Handle(voters, n, Beat(to)) == Step(n, {m}, [])
              && m.Heartbeat? && m.from == n.id && m.to == to && m.term == n.term
              && m.commit <= n.committed && m.commit <= n.progress[to]
              && (m.commit == n.committed || m.commit == n.progress[to])
              && m.ctx == if n.readOnly.queue == [] then [] else n.readOnly.queue[|n.readOnly.queue| - 1]
  {
    var m := Heartbeat(n.id, to, n.term, Min(n.progress[to], n.committed), LastPendingCtx(n.readOnly));
    assert Handle(voters, n, Beat(to)) == Step(n, {m}, []);
  }

  /** A restart keeps term, vote, log and commit position, and nothing else. */
  lemma RestartAnswer(voters: set<Id>, n: Node)
    ensures var e := Handle(voters, n, Restart);
            && e.Step? && e.out == {} && e.released == [] && Adopted(voters, n, e.node, n.term)
            && e.node.vote == n.vote && e.node.role == Follower && e.node.lead == NO_NODE
  {
  }

  // ---------------------------------------------------------------- reads

  /** The queue with the read in it: at its end and with this index, unless it was there, and confirmed by id. */
  ghost predicate Noted(r: ReadOnly, index: nat, id: Id, ctx: Ctx, r': ReadOnly) {
    && r'.queue == (if ctx in r.pending then r.queue else r.queue + [ctx])
    && r'.pending.Keys == r.pending.Keys + {ctx}
    && (forall x :: x in r.pending && x != ctx ==> r'.pending[x] == r.pending[x])
    && r'.pending[ctx] == if ctx in r.pending then ReadStatus(r.pending[ctx].index, r.pending[ctx].acks + {id})
                          else ReadStatus(index, {id})
  }

  lemma NotedIs(r: ReadOnly, index: nat, id: Id, ctx: Ctx)
    ensures Noted(r, index, id, ctx, RecvAck(AddRequest(r, index, ctx), id, ctx))
  {
  }

  lemma HeartbeatsAre(voters: set<Id>, n: Node, ctx: Ctx)
    requires n.progress.Keys == voters
    ensures forall m :: m in Heartbeats(voters, n, ctx) <==>
              m.Heartbeat? && m.to in voters && m.to != n.id
              && m == Heartbeat(n.id, m.to, n.term, Min(n.progress[m.to], n.committed), ctx)
  {
  }

  /** A leader that has committed in its term notes the read with its commit position, unless it has it already, counts
      itself, and asks every other voter. */
  lemma ReadAnswer(voters: set<Id>, n: Node, ctx: Ctx)
    requires n.role == Leader && |voters| != 1 && TermAt(n.log, n.committed) == n.term && n.progress.Keys == voters
    ensures var e := Handle(voters, n, ReadReq(ctx));
            && e.Step? && e.released == []
            && e.node == n.(readOnly := e.node.readOnly, asked := n.asked + {ctx})
            && Noted(n.readOnly, n.committed, n.id, ctx, e.node.readOnly)
            && forall m :: m in e.out <==>
                 m.Heartbeat? && m.to in voters && m.to != n.id
                 && m == Heartbeat(n.id, m.to, n.term, Min(n.progress[m.to], n.committed), ctx)
  {
    NotedIs(n.readOnly, n.committed, n.id, ctx);
    HeartbeatsAre(voters, n, ctx);
    hide Noted, Heartbeats, RecvAck, AddRequest;
  }

  /** A lone voter answers at once; a leader that has committed nothing in its term yet, and any other node, does
      nothing. */
  lemma OtherReads(voters: set<Id>, n: Node, ctx: Ctx)
    ensures n.role == Leader && |voters| == 1 ==>
              Handle(voters, n, ReadReq(ctx)) == Step(n, {}, [Released(ctx, n.committed)])
    ensures n.role != Leader || (|voters| != 1 && TermAt(n.log, n.committed) != n.term) ==>
              Handle(voters, n, ReadReq(ctx)) == Step(n, {}, [])
  {
  }

  function Confirmed(r: ReadOnly, ctx: Ctx, acks: set<Id>): ReadOnly
    requires ctx in r.pending
  {
    r.(pending := r.pending[ctx := ReadStatus(r.pending[ctx].index, acks)])
  }

  /** A follower's confirmation of a pending read is counted; if more than half have confirmed it, it goes out together
      with every read queued before it. */
  lemma ConfirmAnswer(voters: set<Id>, n: Node, m: Msg)
    requires m.HeartbeatResp? && n.term == m.term && n.role == Leader && m.from in n.progress
    requires m.ctx != [] && m.ctx in n.readOnly.pending
    requires forall i :: 0 <= i < |n.readOnly.queue| ==> n.readOnly.queue[i] in n.readOnly.pending
    ensures var e := Handle(voters, n, Recv(m));
            var acks := n.readOnly.pending[m.ctx].acks + {m.from};
            var r := Confirmed(n.readOnly, m.ctx, acks);
            && e.Step? && e.out == {}
            && e.node == n.(heard := n.heard + {m.from}, readOnly := e.node.readOnly)
            && (2 * |acks * voters| <= |voters| ==> e.node.readOnly == r && e.released == [])
            && (2 * |acks * voters| > |voters| ==>
                  forall p: nat :: p < |r.queue| && r.queue[p] == m.ctx && m.ctx !in r.queue[..p] ==>
                    Goes(r, p, e.node.readOnly, e.released))
  {
    var acks := n.readOnly.pending[m.ctx].acks + {m.from};
    var r := Confirmed(n.readOnly, m.ctx, acks);
    assert r == RecvAck(n.readOnly, m.from, m.ctx);
    CountIsFirst(r.queue, m.ctx);
    var k := ReleaseCount(r.queue, m.ctx);
    assert AllPending(r, k);
    forall p: nat | p < |r.queue| && r.queue[p] == m.ctx && m.ctx !in r.queue[..p] ensures k == p + 1 {
      OnlyFirst(r.queue, m.ctx, p, k);
    }
    if k > 0 { ReleaseGoes(r, m.ctx); }
    hide Goes, ReleaseCount, AfterRelease, Answers, AllPending;
  }

  /** Any other confirmation only shows that its sender is there. */
  lemma UnaskedConfirm(voters: set<Id>, n: Node, m: Msg)
    requires m.HeartbeatResp? && n.term == m.term && n.role == Leader && m.from in n.progress
    requires m.ctx == [] || m.ctx !in n.readOnly.pending
    ensures Handle(voters, n, Recv(m)) == Step(n.(heard := n.heard + {m.from}), {}, [])
  {
  }
}
