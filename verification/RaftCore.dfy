/**
 The part of the protocol that decides safety, stripped of messages and roles.
 A Core records each node's term and log together with the history of the run: who campaigned
 with which log, who voted for whom, which log each term's leader built, how far each node has
 acknowledged that log, and what was declared committed.
 */
module RaftCore {
  import opened RaftTypes
  import opened Quorum

  datatype Ballot = Ballot(voter: Id, term: Term, cand: Id)
  datatype Commit = Commit(term: Term, index: nat)

  type LeaderLogs = map<Term, seq<Entry>>

  datatype Core = Core(
    voters: set<Id>,
    term: map<Id, Term>,
    log: map<Id, seq<Entry>>,
    leaderLog: LeaderLogs,
    leaderOf: map<Term, Id>,
    campaign: map<(Id, Term), seq<Entry>>,
    ballots: set<Ballot>,
    acked: Acks,
    commits: set<Commit>)

  type Acks = map<(Id, Term), nat>

  function Acked(acks: Acks, v: Id, t: Term): nat {
    if (v, t) in acks then acks[(v, t)] else 0
  }

  /** A log that ends before or at the last entry a leader of that entry's term wrote. */
  ghost predicate Traced(lls: LeaderLogs, log: seq<Entry>) {
    log == [] || (LastTerm(log) in lls && log <= lls[LastTerm(log)])
  }

  /** Index k of term t's leader log was written by that leader itself. */
  ghost predicate OwnAt(s: Core, t: Term, k: nat) {
    t in s.leaderLog && 0 < k <= |s.leaderLog[t]| && s.leaderLog[t][k - 1].term == t
  }

  ghost function OpenSet(s: Core, t: Term, k: nat): set<Id>
    requires s.voters <= s.term.Keys
  {
    set v | v in s.voters && (k <= Acked(s.acked, v, t) || s.term[v] <= t)
  }

  /** A majority has acknowledged, or may still acknowledge, index k to the leader of term t. */
  ghost predicate Choosable(s: Core, t: Term, k: nat)
    requires s.voters <= s.term.Keys
  {
    OwnAt(s, t, k) && IsQuorum(OpenSet(s, t, k), s.voters)
  }

  ghost function VotersFor(s: Core, t: Term, c: Id): set<Id> {
    set v | v in s.voters && Ballot(v, t, c) in s.ballots
  }

  ghost function AckedSet(s: Core, t: Term, k: nat): set<Id> {
    set v | v in s.voters && k <= Acked(s.acked, v, t)
  }

  // ---------------------------------------------------------------- the invariant

  ghost predicate Shape(s: Core) {
    && s.term.Keys == s.voters && s.log.Keys == s.voters && s.leaderOf.Keys == s.leaderLog.Keys
    && (BOOT_TERM in s.leaderOf ==> s.leaderOf[BOOT_TERM] !in s.voters)
  }

  /** Every leader log is built from earlier leader logs and then its own entries. */
  ghost predicate LeaderLogsOk(lls: LeaderLogs) {
    forall t {:trigger LeaderLogOk(lls, t)} :: t in lls ==> LeaderLogOk(lls, t)
  }

  ghost predicate LeaderLogOk(lls: LeaderLogs, t: Term) {
    && t in lls
    && 0 < t
    && Ascending(lls[t])
    && forall i: nat {:trigger Linked(lls, t, i)} :: i < |lls[t]| ==> Linked(lls, t, i)
  }

  /** Entry i of term t's leader log was written by the leader of its own term, after the same prefix. */
  ghost predicate Linked(lls: LeaderLogs, t: Term, i: nat) {
    && t in lls && i < |lls[t]|
    && var u := lls[t][i].term;
       0 < u <= t && u in lls && lls[t][..i + 1] <= lls[u]
  }

  ghost predicate NodeLogsOk(s: Core)
    requires Shape(s)
  {
    forall v :: v in s.voters ==>
      Traced(s.leaderLog, s.log[v]) && LastTerm(s.log[v]) <= s.term[v] && BOOT_TERM <= s.term[v]
  }

  ghost predicate CampaignsOk(s: Core)
    requires Shape(s)
  {
    forall v: Id, t: Term :: (v, t) in s.campaign ==>
      && v in s.voters && BOOT_TERM < t <= s.term[v]
      && Traced(s.leaderLog, s.campaign[(v, t)]) && LastTerm(s.campaign[(v, t)]) < t
  }

  ghost predicate BallotsOk(s: Core)
    requires Shape(s)
  {
    && (forall b :: b in s.ballots ==>
          b.voter in s.voters && b.term <= s.term[b.voter] && (b.cand, b.term) in s.campaign)
    && (forall b, b' :: b in s.ballots && b' in s.ballots && b.voter == b'.voter && b.term == b'.term ==>
          b.cand == b'.cand)
  }

  /** A term after bootstrap has a leader log only if its leader won a majority with the log it campaigned with. */
  ghost predicate ElectionsOk(s: Core)
    requires Shape(s)
  {
    forall t {:trigger ElectionOk(s, t)} :: t in s.leaderLog && t != BOOT_TERM ==> ElectionOk(s, t)
  }

  ghost predicate ElectionOk(s: Core, t: Term)
    requires Shape(s)
  {
    && t in s.leaderLog
    && var w := s.leaderOf[t];
    && w in s.voters
    && (w, t) in s.campaign
    && IsQuorum(VotersFor(s, t, w), s.voters)
    && s.campaign[(w, t)] < s.leaderLog[t]
    && (forall i :: |s.campaign[(w, t)]| <= i < |s.leaderLog[t]| ==> s.leaderLog[t][i].term == t)
    && (s.term[w] == t ==> s.log[w] == s.leaderLog[t])
  }

  ghost predicate AcksOk(s: Core)
    requires Shape(s)
  {
    forall v: Id, t: Term {:trigger Acked(s.acked, v, t)} :: v in s.voters && Acked(s.acked, v, t) > 0 ==>
      && t in s.leaderLog && Acked(s.acked, v, t) <= |s.leaderLog[t]|
      && t <= s.term[v]
      && (t == s.term[v] ==> s.leaderLog[t][..Acked(s.acked, v, t)] <= s.log[v])
  }

  /** What a later leader's log must contain. */
  ghost predicate LeadersKeep(s: Core)
    requires Shape(s)
  {
    forall t: Term, k: nat, u: Term :: Choosable(s, t, k) && u in s.leaderLog && t < u ==>
      s.leaderLog[t][..k] <= s.leaderLog[u]
  }

  /** What a node that acknowledged must still hold. */
  ghost predicate NodesKeep(s: Core)
    requires Shape(s)
  {
    forall t: Term, k: nat, v: Id :: Choosable(s, t, k) && v in s.voters && k <= Acked(s.acked, v, t) ==>
      s.leaderLog[t][..k] <= s.log[v]
  }

  /** What the log of a candidate must contain once an acknowledging node voted for it. */
  ghost predicate BallotsKeep(s: Core)
    requires Shape(s) && BallotsOk(s)
  {
    forall t: Term, k: nat, b: Ballot ::
      Choosable(s, t, k) && b in s.ballots && t < b.term && k <= Acked(s.acked, b.voter, t) ==>
        s.leaderLog[t][..k] <= s.campaign[(b.cand, b.term)]
  }

  ghost predicate CommitsOk(s: Core)
    requires Shape(s)
  {
    forall c :: c in s.commits ==> OwnAt(s, c.term, c.index) && IsQuorum(AckedSet(s, c.term, c.index), s.voters)
  }

  ghost predicate StaticInv(s: Core) {
    && Shape(s) && LeaderLogsOk(s.leaderLog) && NodeLogsOk(s) && CampaignsOk(s) && BallotsOk(s) && ElectionsOk(s)
    && AcksOk(s) && CommitsOk(s)
  }

  ghost predicate CoreInv(s: Core) {
    StaticInv(s) && LeadersKeep(s) && NodesKeep(s) && BallotsKeep(s)
  }

  // ---------------------------------------------------------------- the transitions

  function BumpTerm(s: Core, v: Id, t: Term): Core
    requires v in s.term
  {
    s.(term := s.term[v := Max(s.term[v], t)])
  }

  function Campaign(s: Core, v: Id): Core
    requires v in s.term && v in s.log
  {
    var t := s.term[v] + 1;
    s.(term := s.term[v := t],
       campaign := s.campaign[(v, t) := s.log[v]],
       ballots := s.ballots + {Ballot(v, t, v)})
  }

  ghost predicate CanVote(s: Core, v: Id, c: Id)
    requires Shape(s)
  {
    && v in s.voters
    && (c, s.term[v]) in s.campaign
    && (forall b :: b in s.ballots && b.voter == v && b.term == s.term[v] ==> b.cand == c)
    && var lc := s.campaign[(c, s.term[v])];
       UpToDate(|lc|, LastTerm(lc), s.log[v])
  }

  function CastVote(s: Core, v: Id, c: Id): Core
    requires v in s.term
  {
    s.(ballots := s.ballots + {Ballot(v, s.term[v], c)})
  }

  ghost predicate CanElect(s: Core, v: Id, e: Entry)
    requires Shape(s)
  {
    && v in s.voters
    && (v, s.term[v]) in s.campaign && s.log[v] == s.campaign[(v, s.term[v])]
    && (s.term[v] in s.leaderOf ==> s.leaderOf[s.term[v]] != v)
    && IsQuorum(VotersFor(s, s.term[v], v), s.voters)
    && e.term == s.term[v]
  }

  function Elect(s: Core, v: Id, e: Entry): Core
    requires v in s.term && v in s.log
  {
    var t := s.term[v];
    s.(log := s.log[v := s.log[v] + [e]],
       leaderLog := s.leaderLog[t := s.log[v] + [e]],
       leaderOf := s.leaderOf[t := v],
       acked := s.acked[(v, t) := |s.log[v]|])
  }

  ghost predicate Leads(s: Core, v: Id)
    requires Shape(s)
  {
    v in s.voters && s.term[v] in s.leaderOf && s.leaderOf[s.term[v]] == v
  }

  function Extend(s: Core, v: Id, ents: seq<Entry>): Core
    requires v in s.term && v in s.log && s.term[v] in s.leaderLog
  {
    var log := s.log[v] + ents;
    s.(log := s.log[v := log], leaderLog := s.leaderLog[s.term[v] := log])
  }

  function Replicate(s: Core, v: Id, k: nat): Core
    requires v in s.term && v in s.log && s.term[v] in s.leaderLog && k <= |s.leaderLog[s.term[v]]|
  {
    var t := s.term[v];
    s.(log := s.log[v := Merge(s.log[v], s.leaderLog[t], k)],
       acked := s.acked[(v, t) := Max(Acked(s.acked, v, t), k)])
  }

  function Decide(s: Core, t: Term, k: nat): Core {
    s.(commits := s.commits + {Commit(t, k)})
  }

  // ---------------------------------------------------------------- monotonicity

  /** What every transition keeps: terms and leader logs only grow, late nodes never acknowledge. */
  ghost predicate Grows(s: Core, s': Core)
    requires Shape(s) && Shape(s')
  {
    && s'.voters == s.voters
    && (forall v :: v in s.voters ==> s.term[v] <= s'.term[v])
    && Extends(s.leaderLog, s'.leaderLog)
    && (forall v, t :: v in s.voters && Acked(s'.acked, v, t) != Acked(s.acked, v, t) ==>
          s.term[v] <= t && Acked(s.acked, v, t) <= Acked(s'.acked, v, t))
  }

  lemma ChoosableBack(s: Core, s': Core, t: Term, k: nat)
    requires Shape(s) && Shape(s') && Grows(s, s') && Choosable(s', t, k)
    requires t in s.leaderLog && k <= |s.leaderLog[t]|
    ensures Choosable(s, t, k) && s.leaderLog[t][..k] == s'.leaderLog[t][..k]
  {
    assert OwnAt(s, t, k) by { assert s.leaderLog[t][k - 1] == s'.leaderLog[t][k - 1]; }
    assert OpenSet(s', t, k) <= OpenSet(s, t, k);
    QuorumGrows(OpenSet(s', t, k), OpenSet(s, t, k), s.voters);
  }

  /** An index nobody acknowledged can no longer be chosen once a later term has a leader. */
  lemma OvertakenNotChoosable(s: Core, t: Term, k: nat, u: Term)
    requires Shape(s) && BallotsOk(s) && ElectionsOk(s)
    requires u in s.leaderLog && 0 < t < u
    requires forall v :: v in s.voters ==> Acked(s.acked, v, t) < k
    ensures !Choosable(s, t, k)
  {
    assert ElectionOk(s, u);
    if Choosable(s, t, k) {
      var w := QuorumsMeet(OpenSet(s, t, k), VotersFor(s, u, s.leaderOf[u]), s.voters);
      assert false;
    }
  }

  lemma TracedPrefix(lls: LeaderLogs, log: seq<Entry>, n: nat)
    requires LeaderLogsOk(lls) && Traced(lls, log) && n <= |log|
    ensures Traced(lls, log[..n])
  {
    if n > 0 {
      var ll := lls[LastTerm(log)];
      assert ll[..n] == log[..n];
      assert LeaderLogOk(lls, LastTerm(log));
      assert Linked(lls, LastTerm(log), n - 1);
      assert log[..n][n - 1] == ll[n - 1];
    }
  }

  lemma TracedAscending(lls: LeaderLogs, log: seq<Entry>)
    requires LeaderLogsOk(lls) && Traced(lls, log)
    ensures Ascending(log)
    ensures forall i :: 0 <= i < |log| ==> 0 < log[i].term <= LastTerm(log)
  {
    if log != [] {
      var ll := lls[LastTerm(log)];
      assert LeaderLogOk(lls, LastTerm(log));
      forall i, j | 0 <= i <= j < |log| ensures log[i].term <= log[j].term {
        assert log[i] == ll[i] && log[j] == ll[j];
      }
      forall i | 0 <= i < |log| ensures 0 < log[i].term <= LastTerm(log) {
        assert log[i] == ll[i] && Linked(lls, LastTerm(log), i);
      }
    }
  }

  /** Log matching for traced logs: the same term at one index forces equality up to it. */
  lemma TracedMatch(lls: LeaderLogs, a: seq<Entry>, b: seq<Entry>, n: nat)
    requires LeaderLogsOk(lls) && Traced(lls, a) && Traced(lls, b)
    requires 0 < n <= |a| && n <= |b| && a[n - 1].term == b[n - 1].term
    ensures a[..n] == b[..n]
  {
    TracedPrefix(lls, a, n);
    TracedPrefix(lls, b, n);
    assert a[..n][n - 1] == a[n - 1] && b[..n][n - 1] == b[n - 1];
    var ll := lls[a[n - 1].term];
    assert a[..n] == ll[..n];
  }

  ghost predicate Extends(lls: LeaderLogs, lls': LeaderLogs) {
    forall t :: t in lls ==> t in lls' && lls[t] <= lls'[t]
  }

  lemma TracedKept(lls: LeaderLogs, lls': LeaderLogs)
    requires Extends(lls, lls')
    ensures forall log {:trigger Traced(lls, log)} {:trigger Traced(lls', log)} :: Traced(lls, log) ==>
            Traced(lls', log)
  {
  }

  /** A leader's own log is traced as soon as it ends with an entry of its term. */
  lemma TracedOwn(lls: LeaderLogs, t: Term)
    requires t in lls && LastTerm(lls[t]) == t
    ensures Traced(lls, lls[t])
  {
  }

  // ---------------------------------------------------------------- every transition keeps the invariant

  /** Nothing but terms, votes and commit decisions changed. */
  ghost predicate SameLogs(s: Core, s': Core) {
    && s'.voters == s.voters && s'.log == s.log
    && s'.leaderLog == s.leaderLog && s'.leaderOf == s.leaderOf && s'.acked == s.acked
  }

  lemma ChoosableAllBack(s: Core, s': Core)
    requires Shape(s) && Shape(s') && Grows(s, s') && s'.leaderLog == s.leaderLog
    ensures forall t: Term, k: nat :: Choosable(s', t, k) ==> Choosable(s, t, k)
  {
    forall t: Term, k: nat | Choosable(s', t, k) ensures Choosable(s, t, k) {
      ChoosableBack(s, s', t, k);
    }
  }

  lemma SameLogsKeep(s: Core, s': Core)
    requires Shape(s) && Shape(s') && SameLogs(s, s') && Grows(s, s')
    requires LeadersKeep(s) && NodesKeep(s)
    ensures LeadersKeep(s') && NodesKeep(s')
  {
    ChoosableAllBack(s, s');
  }

  lemma ElectionKept(s: Core, s': Core, u: Term)
    requires Shape(s) && Shape(s') && ElectionOk(s, u)
    requires s'.voters == s.voters && s.ballots <= s'.ballots
    requires u in s'.leaderLog && s'.leaderLog[u] == s.leaderLog[u] && s'.leaderOf[u] == s.leaderOf[u]
    requires (s.leaderOf[u], u) in s'.campaign && s'.campaign[(s.leaderOf[u], u)] == s.campaign[(s.leaderOf[u], u)]
    requires s'.term[s.leaderOf[u]] == u ==> s.term[s.leaderOf[u]] == u && s'.log[s.leaderOf[u]] == s.log[s.leaderOf[u]]
    ensures ElectionOk(s', u)
  {
    QuorumGrows(VotersFor(s, u, s.leaderOf[u]), VotersFor(s', u, s.leaderOf[u]), s.voters);
  }

  lemma CommitsKept(s: Core, s': Core)
    requires Shape(s) && Shape(s') && Grows(s, s') && CommitsOk(s)
    requires s'.commits == s.commits
    ensures CommitsOk(s')
  {
    forall c | c in s'.commits
      ensures OwnAt(s', c.term, c.index) && IsQuorum(AckedSet(s', c.term, c.index), s'.voters)
    {
      QuorumGrows(AckedSet(s, c.term, c.index), AckedSet(s', c.term, c.index), s.voters);
    }
  }

  lemma BallotsKeepKept(s: Core, s': Core)
    requires Shape(s) && Shape(s') && SameLogs(s, s') && Grows(s, s')
    requires BallotsOk(s) && BallotsOk(s') && BallotsKeep(s)
    requires s'.ballots == s.ballots && s'.campaign == s.campaign
    ensures BallotsKeep(s')
  {
    ChoosableAllBack(s, s');
  }

  lemma BumpTermLogs(s: Core, v: Id, t: Term)
    requires Shape(s) && v in s.voters
    requires NodeLogsOk(s) && CampaignsOk(s)
    ensures var s' := BumpTerm(s, v, t); NodeLogsOk(s') && CampaignsOk(s')
  {
  }

  lemma BumpTermVotes(s: Core, v: Id, t: Term)
    requires Shape(s) && v in s.voters
    requires CampaignsOk(s) && BallotsOk(s) && ElectionsOk(s)
    ensures var s' := BumpTerm(s, v, t); BallotsOk(s') && ElectionsOk(s')
  {
    var s' := BumpTerm(s, v, t);
    forall u | u in s'.leaderLog && u != BOOT_TERM ensures ElectionOk(s', u) {
      assert ElectionOk(s, u);
      ElectionKept(s, s', u);
    }
  }

  lemma BumpTermAcks(s: Core, v: Id, t: Term)
    requires Shape(s) && v in s.voters
    requires AcksOk(s)
    ensures var s' := BumpTerm(s, v, t); AcksOk(s') && Grows(s, s')
  {
  }

  lemma BumpTermKeeps(s: Core, v: Id, t: Term)
    requires CoreInv(s) && v in s.voters
    ensures CoreInv(BumpTerm(s, v, t)) && Grows(s, BumpTerm(s, v, t))
  {
    var s' := BumpTerm(s, v, t);
    hide Shape, Grows, LeaderLogsOk, NodeLogsOk, CampaignsOk, BallotsOk, ElectionsOk, AcksOk, CommitsOk, LeadersKeep,
      NodesKeep, BallotsKeep;
    BumpTermLogs(s, v, t);
    BumpTermVotes(s, v, t);
    BumpTermAcks(s, v, t);
    CommitsKept(s, s');
    SameLogsKeep(s, s');
    BallotsKeepKept(s, s');
  }

  // Campaign

  lemma CampaignVotes(s: Core, v: Id)
    requires Shape(s) && v in s.voters
    requires CampaignsOk(s) && BallotsOk(s) && ElectionsOk(s)
    ensures var s' := Campaign(s, v); BallotsOk(s') && ElectionsOk(s')
  {
    var s' := Campaign(s, v);
    assert (v, s.term[v] + 1) !in s.campaign;
    forall u | u in s'.leaderLog && u != BOOT_TERM ensures ElectionOk(s', u) {
      assert ElectionOk(s, u);
      ElectionKept(s, s', u);
    }
  }

  lemma CampaignLogs(s: Core, v: Id)
    requires Shape(s) && v in s.voters
    requires NodeLogsOk(s) && CampaignsOk(s) && AcksOk(s)
    ensures var s' := Campaign(s, v); NodeLogsOk(s') && CampaignsOk(s') && AcksOk(s') && Grows(s, s')
  {
  }

  lemma CampaignBallotsKeep(s: Core, v: Id)
    requires Shape(s) && v in s.voters && CampaignsOk(s) && BallotsOk(s) && NodesKeep(s) && BallotsKeep(s)
    requires Grows(s, Campaign(s, v)) && BallotsOk(Campaign(s, v))
    ensures BallotsKeep(Campaign(s, v))
  {
    var s' := Campaign(s, v);
    ChoosableAllBack(s, s');
    assert (v, s.term[v] + 1) !in s.campaign;
  }

  lemma CampaignKeeps(s: Core, v: Id)
    requires CoreInv(s) && v in s.voters
    ensures CoreInv(Campaign(s, v)) && Grows(s, Campaign(s, v))
  {
    var s' := Campaign(s, v);
    hide Shape, Grows, LeaderLogsOk, NodeLogsOk, CampaignsOk, BallotsOk, ElectionsOk, AcksOk, CommitsOk, LeadersKeep,
      NodesKeep, BallotsKeep;
    CampaignLogs(s, v);
    CampaignVotes(s, v);
    CommitsKept(s, s');
    SameLogsKeep(s, s');
    CampaignBallotsKeep(s, v);
  }

  // CastVote

  lemma CastVoteVotes(s: Core, v: Id, c: Id)
    requires Shape(s) && CanVote(s, v, c)
    requires BallotsOk(s) && ElectionsOk(s)
    ensures var s' := CastVote(s, v, c); BallotsOk(s') && ElectionsOk(s') && Grows(s, s')
  {
    var s' := CastVote(s, v, c);
    forall u | u in s'.leaderLog && u != BOOT_TERM ensures ElectionOk(s', u) {
      assert ElectionOk(s, u);
      ElectionKept(s, s', u);
    }
  }

  /** A voter that acknowledged index k of term t only votes for logs that contain it. */
  lemma VoteCarries(s: Core, v: Id, c: Id, t: Term, k: nat)
    requires Shape(s) && LeaderLogsOk(s.leaderLog) && NodeLogsOk(s) && CampaignsOk(s)
    requires LeadersKeep(s) && NodesKeep(s) && CanVote(s, v, c)
    requires Choosable(s, t, k) && t < s.term[v] && k <= Acked(s.acked, v, t)
    ensures s.leaderLog[t][..k] <= s.campaign[(c, s.term[v])]
  {
    var lls, lv, lc := s.leaderLog, s.log[v], s.campaign[(c, s.term[v])];
    var p := lls[t][..k];
    assert p <= lv;
    assert lv[k - 1] == p[k - 1] && p[k - 1].term == t;
    TracedAscending(lls, lv);
    TracedAscending(lls, lc);
    assert t <= LastTerm(lv) <= LastTerm(lc);
    if LastTerm(lc) == LastTerm(lv) {
      assert lv <= lc;
    } else {
      assert p <= lls[LastTerm(lc)];
      assert |lc| <= |lv| ==> lc[|lc| - 1] != lv[|lc| - 1];
    }
  }

  lemma CastVoteBallotsKeep(s: Core, v: Id, c: Id)
    requires Shape(s) && CanVote(s, v, c) && BallotsOk(s)
    requires LeaderLogsOk(s.leaderLog) && NodeLogsOk(s) && CampaignsOk(s)
    requires LeadersKeep(s) && NodesKeep(s) && BallotsKeep(s)
    requires Grows(s, CastVote(s, v, c)) && BallotsOk(CastVote(s, v, c))
    ensures BallotsKeep(CastVote(s, v, c))
  {
    var s' := CastVote(s, v, c);
    forall t: Term, k: nat, b: Ballot |
      Choosable(s', t, k) && b in s'.ballots && t < b.term && k <= Acked(s'.acked, b.voter, t)
      ensures s'.leaderLog[t][..k] <= s'.campaign[(b.cand, b.term)]
    {
      ChoosableBack(s, s', t, k);
      if b !in s.ballots {
        VoteCarries(s, v, c, t, k);
      }
    }
  }

  lemma CastVoteKeeps(s: Core, v: Id, c: Id)
    requires CoreInv(s) && CanVote(s, v, c)
    ensures CoreInv(CastVote(s, v, c)) && Grows(s, CastVote(s, v, c))
  {
    var s' := CastVote(s, v, c);
    assert Shape(s');
    hide Shape, Grows, LeaderLogsOk, NodeLogsOk, CampaignsOk, BallotsOk, ElectionsOk, AcksOk, CommitsOk, LeadersKeep,
      NodesKeep, BallotsKeep;
    CastVoteVotes(s, v, c);
    CommitsKept(s, s');
    SameLogsKeep(s, s');
    CastVoteBallotsKeep(s, v, c);
  }

  // Elect

  /** Election safety: a candidate with a majority is the first leader of its term. */
  lemma ElectFresh(s: Core, v: Id, e: Entry)
    requires Shape(s) && CampaignsOk(s) && BallotsOk(s) && ElectionsOk(s) && CanElect(s, v, e)
    ensures s.term[v] !in s.leaderLog
  {
    var t := s.term[v];
    if t in s.leaderLog {
      assert ElectionOk(s, t);
      var w := QuorumsMeet(VotersFor(s, t, v), VotersFor(s, t, s.leaderOf[t]), s.voters);
    }
  }

  lemma ElectLeaderLogs(s: Core, v: Id, e: Entry)
    requires Shape(s) && CanElect(s, v, e) && s.term[v] !in s.leaderLog
    requires LeaderLogsOk(s.leaderLog) && NodeLogsOk(s) && CampaignsOk(s)
    ensures LeaderLogsOk(Elect(s, v, e).leaderLog)
  {
    var lls, lls', t := s.leaderLog, Elect(s, v, e).leaderLog, s.term[v];
    var log := s.log[v];
    TracedAscending(lls, log);
    forall u | u in lls' ensures LeaderLogOk(lls', u) {
      if u != t {
        assert LeaderLogOk(lls, u);
        forall i: nat | i < |lls'[u]| ensures Linked(lls', u, i) {
          assert Linked(lls, u, i);
        }
      } else {
        forall i: nat | i < |lls'[t]| ensures Linked(lls', t, i) {
          if i < |log| {
            TracedPrefix(lls, log, i + 1);
            assert log[..i + 1][i] == log[i] && (log + [e])[..i + 1] == log[..i + 1];
          }
        }
      }
    }
  }

  lemma ElectLogs(s: Core, v: Id, e: Entry)
    requires Shape(s) && v in s.voters && s.term[v] !in s.leaderLog && s.term[v] != BOOT_TERM && e.term == s.term[v]
    requires NodeLogsOk(s)
    ensures var s' := Elect(s, v, e); Shape(s') && NodeLogsOk(s')
  {
    var s' := Elect(s, v, e);
    assert LastTerm(s'.log[v]) == s.term[v];
    TracedKept(s.leaderLog, s'.leaderLog);
    TracedOwn(s'.leaderLog, s.term[v]);
    hide Traced, Extends;
    forall w | w in s'.voters && w != v ensures Traced(s'.leaderLog, s'.log[w]) {
      assert Traced(s.leaderLog, s.log[w]);
    }
  }

  lemma ElectCampaigns(s: Core, v: Id, e: Entry)
    requires Shape(s) && CanElect(s, v, e) && s.term[v] !in s.leaderLog
    requires CampaignsOk(s)
    ensures var s' := Elect(s, v, e); Shape(s') && CampaignsOk(s')
  {
    TracedKept(s.leaderLog, Elect(s, v, e).leaderLog);
    hide Traced, Extends;
  }

  lemma ElectAcks(s: Core, v: Id, e: Entry)
    requires Shape(s) && CanElect(s, v, e) && s.term[v] !in s.leaderLog
    requires CampaignsOk(s) && AcksOk(s)
    ensures var s' := Elect(s, v, e); Shape(s') && AcksOk(s') && Grows(s, s')
  {
    var s' := Elect(s, v, e);
    forall w: Id, t: Term | w in s.voters && Acked(s'.acked, w, t) != Acked(s.acked, w, t)
      ensures w == v && t == s.term[v] && Acked(s.acked, w, t) == 0 && Acked(s'.acked, w, t) == |s.log[v]|
    {
    }
  }

  lemma ElectVotes(s: Core, v: Id, e: Entry)
    requires Shape(s) && CanElect(s, v, e) && s.term[v] !in s.leaderLog
    requires CampaignsOk(s) && BallotsOk(s) && ElectionsOk(s)
    ensures var s' := Elect(s, v, e); Shape(s') && BallotsOk(s') && ElectionsOk(s')
  {
    var s' := Elect(s, v, e);
    forall u | u in s'.leaderLog && u != BOOT_TERM ensures ElectionOk(s', u) {
      if u == s.term[v] {
        assert VotersFor(s', u, v) == VotersFor(s, u, v);
      } else {
        assert ElectionOk(s, u);
        ElectionKept(s, s', u);
      }
    }
  }

  /** The new leader's log contains everything an earlier term may have chosen. */
  lemma ElectCarries(s: Core, v: Id, e: Entry, t: Term, k: nat)
    requires Shape(s) && CanElect(s, v, e) && BallotsOk(s) && BallotsKeep(s)
    requires Choosable(s, t, k) && t < s.term[v]
    ensures s.leaderLog[t][..k] <= s.log[v]
  {
    var w := QuorumsMeet(OpenSet(s, t, k), VotersFor(s, s.term[v], v), s.voters);
    assert Ballot(w, s.term[v], v) in s.ballots;
  }

  lemma ElectNotAcked(s: Core, v: Id, e: Entry, k: nat)
    requires Shape(s) && CanElect(s, v, e) && s.term[v] !in s.leaderLog && AcksOk(s)
    requires Ascending(s.log[v]) && LastTerm(s.log[v]) < s.term[v]
    requires OwnAt(Elect(s, v, e), s.term[v], k)
    ensures forall w :: w in s.voters ==> Acked(Elect(s, v, e).acked, w, s.term[v]) < k
  {
    assert |s.log[v]| < k;
    forall w | w in s.voters ensures Acked(s.acked, w, s.term[v]) == 0 {}
  }

  lemma ElectBack(s: Core, v: Id, e: Entry, t: Term, k: nat)
    requires Shape(s) && CanElect(s, v, e) && s.term[v] !in s.leaderLog
    requires LeaderLogsOk(s.leaderLog) && NodeLogsOk(s) && CampaignsOk(s) && AcksOk(s)
    requires Grows(s, Elect(s, v, e)) && Choosable(Elect(s, v, e), t, k)
    ensures if t == s.term[v] then forall w :: w in s.voters ==> Acked(Elect(s, v, e).acked, w, t) < k
            else Choosable(s, t, k) && s.leaderLog[t] == Elect(s, v, e).leaderLog[t]
    ensures t != s.term[v] ==> forall w :: Acked(Elect(s, v, e).acked, w, t) == Acked(s.acked, w, t)
  {
    if t == s.term[v] {
      TracedAscending(s.leaderLog, s.log[v]);
      assert LastTerm(s.log[v]) < s.term[v];
      hide LeaderLogsOk, NodeLogsOk, CampaignsOk, Grows, OpenSet, IsQuorum, VotersFor;
      ElectNotAcked(s, v, e, k);
    } else {
      hide LeaderLogsOk, NodeLogsOk, CampaignsOk, AcksOk, IsQuorum, VotersFor;
      ChoosableBack(s, Elect(s, v, e), t, k);
    }
  }

  lemma ElectLeadersKeep(s: Core, v: Id, e: Entry)
    requires Shape(s) && CanElect(s, v, e) && s.term[v] !in s.leaderLog
    requires LeaderLogsOk(s.leaderLog) && NodeLogsOk(s) && CampaignsOk(s) && AcksOk(s) && BallotsOk(s)
    requires LeadersKeep(s) && BallotsKeep(s)
    requires var s' := Elect(s, v, e); Shape(s') && BallotsOk(s') && ElectionsOk(s') && Grows(s, s')
    ensures LeadersKeep(Elect(s, v, e))
  {
    var s' := Elect(s, v, e);
    assert 0 < s.term[v];
    hide NodeLogsOk, CampaignsOk, LeaderLogsOk, AcksOk, BallotsOk, BallotsKeep, ElectionsOk, Grows, OpenSet, IsQuorum,
      VotersFor;
    forall t: Term, k: nat, u: Term | Choosable(s', t, k) && u in s'.leaderLog && t < u
      ensures s'.leaderLog[t][..k] <= s'.leaderLog[u]
    {
      ElectBack(s, v, e, t, k);
      if t == s.term[v] {
        OvertakenNotChoosable(s', t, k, u);
      } else if u == s.term[v] {
        ElectCarries(s, v, e, t, k);
      }
    }
  }

  lemma ElectNodes(s: Core, v: Id, e: Entry)
    requires Shape(s) && CanElect(s, v, e) && s.term[v] !in s.leaderLog
    requires LeaderLogsOk(s.leaderLog) && NodeLogsOk(s) && CampaignsOk(s) && AcksOk(s) && NodesKeep(s)
    requires Grows(s, Elect(s, v, e))
    ensures NodesKeep(Elect(s, v, e))
  {
    var s' := Elect(s, v, e);
    hide NodeLogsOk, CampaignsOk, LeaderLogsOk, AcksOk, Grows, OpenSet, IsQuorum;
    forall t: Term, k: nat, w: Id | Choosable(s', t, k) && w in s'.voters && k <= Acked(s'.acked, w, t)
      ensures s'.leaderLog[t][..k] <= s'.log[w]
    {
      ElectNode(s, v, e, t, k, w);
    }
  }

  lemma ElectNode(s: Core, v: Id, e: Entry, t: Term, k: nat, w: Id)
    requires Shape(s) && CanElect(s, v, e) && s.term[v] !in s.leaderLog
    requires LeaderLogsOk(s.leaderLog) && NodeLogsOk(s) && CampaignsOk(s) && AcksOk(s) && NodesKeep(s)
    requires Grows(s, Elect(s, v, e)) && Choosable(Elect(s, v, e), t, k)
    requires w in s.voters && k <= Acked(Elect(s, v, e).acked, w, t)
    ensures var s' := Elect(s, v, e); s'.leaderLog[t][..k] <= s'.log[w]
  {
    hide NodeLogsOk, CampaignsOk, LeaderLogsOk, AcksOk, Grows, OpenSet, IsQuorum, CanElect;
    ElectBack(s, v, e, t, k);
    hide Acked;
  }

  lemma ElectBallots(s: Core, v: Id, e: Entry)
    requires Shape(s) && CanElect(s, v, e) && s.term[v] !in s.leaderLog
    requires LeaderLogsOk(s.leaderLog) && NodeLogsOk(s) && CampaignsOk(s) && AcksOk(s) && BallotsOk(s) && BallotsKeep(s)
    requires var s' := Elect(s, v, e); Grows(s, s') && BallotsOk(s')
    ensures BallotsKeep(Elect(s, v, e))
  {
    var s' := Elect(s, v, e);
    hide NodeLogsOk, CampaignsOk, LeaderLogsOk, AcksOk, Grows, OpenSet, IsQuorum;
    forall t: Term, k: nat, b: Ballot |
      Choosable(s', t, k) && b in s'.ballots && t < b.term && k <= Acked(s'.acked, b.voter, t)
      ensures s'.leaderLog[t][..k] <= s'.campaign[(b.cand, b.term)]
    {
      ElectBack(s, v, e, t, k);
    }
  }

  lemma ElectKeeps(s: Core, v: Id, e: Entry)
    requires CoreInv(s) && CanElect(s, v, e)
    ensures CoreInv(Elect(s, v, e)) && Grows(s, Elect(s, v, e)) && s.term[v] !in s.leaderLog
  {
    ElectFresh(s, v, e);
    var s' := Elect(s, v, e);
    assert s.term[v] != BOOT_TERM && Shape(s');
    hide Shape, Grows, LeaderLogsOk, NodeLogsOk, CampaignsOk, BallotsOk, ElectionsOk, AcksOk, CommitsOk, LeadersKeep,
      NodesKeep, BallotsKeep;
    ElectLeaderLogs(s, v, e);
    ElectLogs(s, v, e);
    ElectCampaigns(s, v, e);
    ElectAcks(s, v, e);
    ElectVotes(s, v, e);
    CommitsKept(s, s');
    ElectLeadersKeep(s, v, e);
    ElectNodes(s, v, e);
    ElectBallots(s, v, e);
  }

  // Extend

  ghost predicate CanExtend(s: Core, v: Id, ents: seq<Entry>)
    requires Shape(s)
  {
    Leads(s, v) && forall i :: 0 <= i < |ents| ==> ents[i].term == s.term[v]
  }

  lemma ExtendLeaderLogs(s: Core, v: Id, ents: seq<Entry>)
    requires Shape(s) && CanExtend(s, v, ents) && LeaderLogsOk(s.leaderLog) && s.log[v] == s.leaderLog[s.term[v]]
    ensures LeaderLogsOk(Extend(s, v, ents).leaderLog)
  {
    var lls, lls', t := s.leaderLog, Extend(s, v, ents).leaderLog, s.term[v];
    assert LeaderLogOk(lls, t);
    forall u | u in lls' ensures LeaderLogOk(lls', u) {
      assert LeaderLogOk(lls, u);
      forall i: nat | i < |lls'[u]| ensures Linked(lls', u, i) {
        if i < |lls[u]| {
          assert Linked(lls, u, i);
          assert lls'[u][..i + 1] == lls[u][..i + 1];
        }
      }
      if u == t {
        forall i, j | 0 <= i <= j < |lls'[t]| ensures lls'[t][i].term <= lls'[t][j].term {
          if i < |lls[t]| { assert Linked(lls, t, i); }
        }
      }
    }
  }

  lemma ExtendLogs(s: Core, v: Id, ents: seq<Entry>)
    requires Shape(s) && CanExtend(s, v, ents) && s.log[v] == s.leaderLog[s.term[v]]
    requires LeaderLogsOk(s.leaderLog) && NodeLogsOk(s) && ElectionsOk(s)
    ensures NodeLogsOk(Extend(s, v, ents))
  {
    var s' := Extend(s, v, ents);
    TracedKept(s.leaderLog, s'.leaderLog);
    assert ElectionOk(s, s.term[v]);
    assert LastTerm(s'.log[v]) == s.term[v];
    TracedOwn(s'.leaderLog, s.term[v]);
    hide Traced, Extends, LeaderLogsOk, ElectionsOk, ElectionOk;
    forall w | w in s'.voters && w != v ensures Traced(s'.leaderLog, s'.log[w]) {
      assert Traced(s.leaderLog, s.log[w]);
    }
  }

  lemma ExtendCampaigns(s: Core, v: Id, ents: seq<Entry>)
    requires Shape(s) && CanExtend(s, v, ents) && s.log[v] == s.leaderLog[s.term[v]]
    requires CampaignsOk(s)
    ensures CampaignsOk(Extend(s, v, ents))
  {
    TracedKept(s.leaderLog, Extend(s, v, ents).leaderLog);
    hide Traced, Extends;
  }

  lemma ExtendAcks(s: Core, v: Id, ents: seq<Entry>)
    requires Shape(s) && CanExtend(s, v, ents) && s.log[v] == s.leaderLog[s.term[v]]
    requires AcksOk(s)
    ensures var s' := Extend(s, v, ents); AcksOk(s') && Grows(s, s')
  {
    var s' := Extend(s, v, ents);
    assert Extends(s.leaderLog, s'.leaderLog);
    forall w: Id, t: Term | w in s.voters && Acked(s.acked, w, t) > 0
      ensures s'.leaderLog[t][..Acked(s.acked, w, t)] == s.leaderLog[t][..Acked(s.acked, w, t)]
    {
    }
  }

  lemma ExtendVotes(s: Core, v: Id, ents: seq<Entry>)
    requires Shape(s) && CanExtend(s, v, ents)
    requires BallotsOk(s) && ElectionsOk(s)
    ensures var s' := Extend(s, v, ents); BallotsOk(s') && ElectionsOk(s')
  {
    var s' := Extend(s, v, ents);
    forall u | u in s'.leaderLog && u != BOOT_TERM ensures ElectionOk(s', u) {
      assert ElectionOk(s, u);
      if u == s.term[v] {
        assert VotersFor(s', u, v) == VotersFor(s, u, v);
      } else {
        ElectionKept(s, s', u);
      }
    }
  }

  lemma ExtendBack(s: Core, v: Id, ents: seq<Entry>, t: Term, k: nat)
    requires Shape(s) && CanExtend(s, v, ents) && s.log[v] == s.leaderLog[s.term[v]] && AcksOk(s)
    requires Grows(s, Extend(s, v, ents)) && Choosable(Extend(s, v, ents), t, k)
    ensures if t == s.term[v] && k > |s.log[v]| then forall w :: w in s.voters ==> Acked(s.acked, w, t) < k
            else Choosable(s, t, k) && s.leaderLog[t][..k] == Extend(s, v, ents).leaderLog[t][..k]
  {
    if !(t == s.term[v] && k > |s.log[v]|) {
      ChoosableBack(s, Extend(s, v, ents), t, k);
    }
  }

  lemma ExtendLeaderKeeps(s: Core, v: Id, ents: seq<Entry>, t: Term, k: nat, u: Term)
    requires Shape(s) && CanExtend(s, v, ents) && s.log[v] == s.leaderLog[s.term[v]] && 0 < s.term[v]
    requires AcksOk(s) && LeadersKeep(s)
    requires var s' := Extend(s, v, ents); BallotsOk(s') && ElectionsOk(s') && Grows(s, s')
    requires Choosable(Extend(s, v, ents), t, k) && u in Extend(s, v, ents).leaderLog && t < u
    ensures Extend(s, v, ents).leaderLog[t][..k] <= Extend(s, v, ents).leaderLog[u]
  {
    hide AcksOk, BallotsOk, ElectionsOk, OpenSet, IsQuorum, Grows;
    var s' := Extend(s, v, ents);
    ExtendBack(s, v, ents, t, k);
    if t == s.term[v] && k > |s.log[v]| {
      OvertakenNotChoosable(s', t, k, u);
    } else {
      assert s.leaderLog[t][..k] <= s.leaderLog[u];
    }
  }

  lemma ExtendLeadersKeep(s: Core, v: Id, ents: seq<Entry>)
    requires Shape(s) && CanExtend(s, v, ents) && s.log[v] == s.leaderLog[s.term[v]]
    requires AcksOk(s) && NodeLogsOk(s) && LeadersKeep(s)
    requires var s' := Extend(s, v, ents); BallotsOk(s') && ElectionsOk(s') && Grows(s, s')
    ensures LeadersKeep(Extend(s, v, ents))
  {
    var s' := Extend(s, v, ents);
    assert 0 < s.term[v];
    hide NodeLogsOk, AcksOk, BallotsOk, ElectionsOk, OpenSet, IsQuorum, Grows;
    forall t: Term, k: nat, u: Term | Choosable(s', t, k) && u in s'.leaderLog && t < u
      ensures s'.leaderLog[t][..k] <= s'.leaderLog[u]
    {
      ExtendLeaderKeeps(s, v, ents, t, k, u);
    }
  }

  lemma ExtendNodesKeep(s: Core, v: Id, ents: seq<Entry>)
    requires Shape(s) && CanExtend(s, v, ents) && s.log[v] == s.leaderLog[s.term[v]]
    requires AcksOk(s) && BallotsOk(s) && NodesKeep(s) && BallotsKeep(s)
    requires var s' := Extend(s, v, ents); Grows(s, s') && BallotsOk(s')
    ensures NodesKeep(Extend(s, v, ents)) && BallotsKeep(Extend(s, v, ents))
  {
    var s' := Extend(s, v, ents);
    hide AcksOk, Grows, OpenSet, IsQuorum;
    forall t: Term, k: nat, w: Id | Choosable(s', t, k) && w in s'.voters && k <= Acked(s'.acked, w, t)
      ensures s'.leaderLog[t][..k] <= s'.log[w]
    {
      ExtendBack(s, v, ents, t, k);
    }
    forall t: Term, k: nat, b: Ballot |
      Choosable(s', t, k) && b in s'.ballots && t < b.term && k <= Acked(s'.acked, b.voter, t)
      ensures s'.leaderLog[t][..k] <= s'.campaign[(b.cand, b.term)]
    {
      ExtendBack(s, v, ents, t, k);
    }
  }

  lemma ExtendKeeps(s: Core, v: Id, ents: seq<Entry>)
    requires CoreInv(s) && CanExtend(s, v, ents)
    ensures CoreInv(Extend(s, v, ents)) && Grows(s, Extend(s, v, ents))
  {
    assert ElectionOk(s, s.term[v]);
    var s' := Extend(s, v, ents);
    assert Shape(s');
    hide Shape, Grows, LeaderLogsOk, NodeLogsOk, CampaignsOk, BallotsOk, ElectionsOk, AcksOk, CommitsOk, LeadersKeep,
      NodesKeep, BallotsKeep;
    ExtendLeaderLogs(s, v, ents);
    ExtendLogs(s, v, ents);
    ExtendCampaigns(s, v, ents);
    ExtendAcks(s, v, ents);
    ExtendVotes(s, v, ents);
    CommitsKept(s, s');
    ExtendLeadersKeep(s, v, ents);
    ExtendNodesKeep(s, v, ents);
  }

  // Replicate

  ghost predicate CanReplicate(s: Core, v: Id, k: nat)
    requires Shape(s)
  {
    v in s.voters && s.term[v] in s.leaderLog && k <= |s.leaderLog[s.term[v]]|
  }

  lemma MergeKeeps(log: seq<Entry>, ll: seq<Entry>, k: nat, p: seq<Entry>)
    requires k <= |ll| && p <= log && p <= ll
    ensures p <= Merge(log, ll, k)
  {
    assert |p| > k ==> ll[..k] == p[..k] == log[..k];
  }

  lemma ReplicateLogs(s: Core, v: Id, k: nat)
    requires Shape(s) && CanReplicate(s, v, k)
    requires LeaderLogsOk(s.leaderLog) && NodeLogsOk(s)
    ensures NodeLogsOk(Replicate(s, v, k))
  {
    var ll := s.leaderLog[s.term[v]];
    LeaderPrefixTraced(s.leaderLog, s.term[v], k);
    hide LeaderLogsOk, Traced;
  }

  lemma LeaderPrefixTraced(lls: LeaderLogs, t: Term, k: nat)
    requires LeaderLogsOk(lls) && t in lls && k <= |lls[t]|
    ensures Traced(lls, lls[t][..k]) && LastTerm(lls[t][..k]) <= t
  {
    assert LeaderLogOk(lls, t);
    if k > 0 {
      assert Linked(lls, t, k - 1);
      assert lls[t][..k][k - 1] == lls[t][k - 1];
    }
  }

  lemma ReplicateAcks(s: Core, v: Id, k: nat)
    requires Shape(s) && CanReplicate(s, v, k)
    requires AcksOk(s)
    ensures var s' := Replicate(s, v, k); AcksOk(s') && Grows(s, s')
  {
    var s' := Replicate(s, v, k);
    var t := s.term[v];
    var ll := s.leaderLog[t];
    var a := Acked(s.acked, v, t);
    forall w: Id, u: Term | w != v || u != t ensures Acked(s'.acked, w, u) == Acked(s.acked, w, u) {}
    MergeKeeps(s.log[v], ll, k, ll[..a]);
    assert ll[..k] <= s'.log[v] && ll[..a] <= s'.log[v];
  }

  lemma ReplicateVotes(s: Core, v: Id, k: nat)
    requires Shape(s) && CanReplicate(s, v, k)
    requires BallotsOk(s) && ElectionsOk(s)
    ensures var s' := Replicate(s, v, k); BallotsOk(s') && ElectionsOk(s')
  {
    var s' := Replicate(s, v, k);
    forall u | u in s'.leaderLog && u != BOOT_TERM ensures ElectionOk(s', u) {
      assert ElectionOk(s, u);
      ElectionKept(s, s', u);
    }
  }

  lemma ReplicateOwnLog(s: Core, v: Id, k: nat)
    requires Shape(s) && CanReplicate(s, v, k) && AcksOk(s)
    ensures var s' := Replicate(s, v, k);
            var ll := s.leaderLog[s.term[v]];
            Acked(s'.acked, v, s.term[v]) <= |ll| && ll[..Acked(s'.acked, v, s.term[v])] <= s'.log[v]
  {
    var ll := s.leaderLog[s.term[v]];
    MergeKeeps(s.log[v], ll, k, ll[..Acked(s.acked, v, s.term[v])]);
  }

  lemma ReplicateNodeKeeps(s: Core, v: Id, k: nat, t: Term, n: nat)
    requires Shape(s) && CanReplicate(s, v, k) && LeadersKeep(s) && NodesKeep(s) && AcksOk(s)
    requires Choosable(s, t, n) && n <= Acked(Replicate(s, v, k).acked, v, t)
    ensures s.leaderLog[t][..n] <= Replicate(s, v, k).log[v]
  {
    var ll := s.leaderLog[s.term[v]];
    hide OpenSet, IsQuorum;
    if t == s.term[v] {
      ReplicateOwnLog(s, v, k);
    } else {
      assert n <= Acked(s.acked, v, t);
      assert t < s.term[v];
      MergeKeeps(s.log[v], ll, k, s.leaderLog[t][..n]);
    }
  }

  lemma ReplicateNodesKeep(s: Core, v: Id, k: nat)
    requires Shape(s) && CanReplicate(s, v, k) && LeadersKeep(s) && NodesKeep(s) && AcksOk(s)
    requires Grows(s, Replicate(s, v, k))
    ensures NodesKeep(Replicate(s, v, k))
  {
    var s' := Replicate(s, v, k);
    ChoosableAllBack(s, s');
    hide AcksOk, Grows, LeadersKeep, OpenSet, IsQuorum, Merge;
    forall t: Term, n: nat, w: Id | Choosable(s', t, n) && w in s'.voters && n <= Acked(s'.acked, w, t)
      ensures s'.leaderLog[t][..n] <= s'.log[w]
    {
      assert Choosable(s, t, n);
      if w == v {
        ReplicateNodeKeeps(s, v, k, t, n);
      } else {
        assert Acked(s'.acked, w, t) == Acked(s.acked, w, t);
      }
    }
  }

  lemma ReplicateOthersKeep(s: Core, v: Id, k: nat)
    requires Shape(s) && CanReplicate(s, v, k) && BallotsOk(s) && LeadersKeep(s) && BallotsKeep(s)
    requires Grows(s, Replicate(s, v, k)) && BallotsOk(Replicate(s, v, k))
    ensures LeadersKeep(Replicate(s, v, k)) && BallotsKeep(Replicate(s, v, k))
  {
    var s' := Replicate(s, v, k);
    ChoosableAllBack(s, s');
    forall b, t: Term | b in s.ballots && t < b.term
      ensures Acked(s'.acked, b.voter, t) == Acked(s.acked, b.voter, t) {}
  }

  lemma ReplicateKeeps(s: Core, v: Id, k: nat)
    requires CoreInv(s) && CanReplicate(s, v, k)
    ensures CoreInv(Replicate(s, v, k)) && Grows(s, Replicate(s, v, k))
  {
    var s' := Replicate(s, v, k);
    assert Shape(s');
    hide Shape, Grows, LeaderLogsOk, NodeLogsOk, CampaignsOk, BallotsOk, ElectionsOk, AcksOk, CommitsOk, LeadersKeep,
      NodesKeep, BallotsKeep;
    ReplicateLogs(s, v, k);
    ReplicateAcks(s, v, k);
    ReplicateVotes(s, v, k);
    CommitsKept(s, s');
    ReplicateNodesKeep(s, v, k);
    ReplicateOthersKeep(s, v, k);
  }

  // Decide

  lemma DecideStatic(s: Core, t: Term, k: nat)
    requires Shape(s) && ElectionsOk(s) && CommitsOk(s)
    requires OwnAt(s, t, k) && IsQuorum(AckedSet(s, t, k), s.voters)
    ensures ElectionsOk(Decide(s, t, k)) && CommitsOk(Decide(s, t, k))
  {
    var s' := Decide(s, t, k);
    forall c | c in s'.commits
      ensures OwnAt(s', c.term, c.index) && IsQuorum(AckedSet(s', c.term, c.index), s'.voters)
    {
      assert AckedSet(s', c.term, c.index) == AckedSet(s, c.term, c.index);
    }
    forall u | u in s'.leaderLog && u != BOOT_TERM ensures ElectionOk(s', u) {
      assert ElectionOk(s, u);
      ElectionKept(s, s', u);
    }
  }

  lemma DecideOthers(s: Core, t: Term, k: nat)
    requires Shape(s) && NodeLogsOk(s) && CampaignsOk(s) && BallotsOk(s) && AcksOk(s)
    ensures var s' := Decide(s, t, k); NodeLogsOk(s') && CampaignsOk(s') && BallotsOk(s') && AcksOk(s') && Grows(s, s')
  {
  }

  lemma DecideKeeps(s: Core, t: Term, k: nat)
    requires CoreInv(s) && OwnAt(s, t, k) && IsQuorum(AckedSet(s, t, k), s.voters)
    ensures CoreInv(Decide(s, t, k)) && Grows(s, Decide(s, t, k))
  {
    var s' := Decide(s, t, k);
    assert Shape(s');
    hide Shape, Grows, LeaderLogsOk, NodeLogsOk, CampaignsOk, BallotsOk, ElectionsOk, AcksOk, CommitsOk, LeadersKeep,
      NodesKeep, BallotsKeep;
    DecideStatic(s, t, k);
    DecideOthers(s, t, k);
    SameLogsKeep(s, s');
    BallotsKeepKept(s, s');
  }

  // ---------------------------------------------------------------- the initial state

  /** Every node starts in the bootstrap term with the same committed bootstrap entries. */
  ghost function Init(voters: set<Id>, boot: seq<Entry>): Core {
    Core(voters, map v | v in voters :: BOOT_TERM, map v | v in voters :: boot,
         map[BOOT_TERM := boot], map[BOOT_TERM := NO_NODE], map[], {},
         map v | v in voters :: (v, BOOT_TERM) := |boot|,
         if boot == [] then {} else {Commit(BOOT_TERM, |boot|)})
  }

  ghost predicate BootLog(boot: seq<Entry>) {
    IndexedFrom(boot, 0) && forall i :: 0 <= i < |boot| ==> boot[i].term == BOOT_TERM
  }

  lemma InitStatic(voters: set<Id>, boot: seq<Entry>)
    requires NO_NODE !in voters && voters != {} && BootLog(boot)
    ensures StaticInv(Init(voters, boot))
  {
    var s := Init(voters, boot);
    InitAcked(voters, boot);
    forall i: nat | i < |boot| ensures Linked(s.leaderLog, BOOT_TERM, i) {}
    assert LeaderLogOk(s.leaderLog, BOOT_TERM);
    hide IsQuorum, Acked;
  }

  lemma InitKeeps(voters: set<Id>, boot: seq<Entry>)
    requires NO_NODE !in voters && voters != {} && StaticInv(Init(voters, boot))
    ensures var s := Init(voters, boot); LeadersKeep(s) && NodesKeep(s) && BallotsKeep(s)
  {
    hide LeaderLogsOk, NodeLogsOk, CampaignsOk, ElectionsOk, AcksOk, CommitsOk, OpenSet, IsQuorum, Acked;
  }

  lemma InitOk(voters: set<Id>, boot: seq<Entry>)
    requires NO_NODE !in voters && voters != {} && BootLog(boot)
    ensures CoreInv(Init(voters, boot))
  {
    hide StaticInv, Init, LeadersKeep, NodesKeep, BallotsKeep;
    InitStatic(voters, boot);
    InitKeeps(voters, boot);
  }

  lemma InitAcked(voters: set<Id>, boot: seq<Entry>)
    requires voters != {}
    ensures var s := Init(voters, boot);
            && (forall v :: v in voters ==> Acked(s.acked, v, BOOT_TERM) == |boot|)
            && (forall v, t :: t != BOOT_TERM ==> Acked(s.acked, v, t) == 0)
            && IsQuorum(AckedSet(s, BOOT_TERM, |boot|), voters)
  {
    var s := Init(voters, boot);
    forall v | v in voters ensures Acked(s.acked, v, BOOT_TERM) == |boot| {
      assert (v, BOOT_TERM) in s.acked;
    }
    assert AckedSet(s, BOOT_TERM, |boot|) == voters;
  }

  // ---------------------------------------------------------------- what the invariant gives

  lemma CommitChoosable(s: Core, c: Commit)
    requires Shape(s) && CommitsOk(s) && c in s.commits
    ensures Choosable(s, c.term, c.index)
  {
    QuorumGrows(AckedSet(s, c.term, c.index), OpenSet(s, c.term, c.index), s.voters);
  }

  /** Leader completeness: what was committed in a term is in every later leader's log. */
  lemma LeaderCompleteness(s: Core, c: Commit, u: Term)
    requires Shape(s) && CommitsOk(s) && LeadersKeep(s) && c in s.commits && u in s.leaderLog && c.term <= u
    ensures c.term in s.leaderLog && c.index <= |s.leaderLog[c.term]|
    ensures s.leaderLog[c.term][..c.index] <= s.leaderLog[u]
  {
    CommitChoosable(s, c);
  }

  /** Of two committed prefixes, one extends the other. */
  lemma CommitsAgree(s: Core, c: Commit, d: Commit)
    requires CoreInv(s) && c in s.commits && d in s.commits
    ensures OwnAt(s, c.term, c.index) && OwnAt(s, d.term, d.index)
    ensures var p, q := s.leaderLog[c.term][..c.index], s.leaderLog[d.term][..d.index];
            p <= q || q <= p
    ensures c.term < d.term ==> c.index < d.index
  {
    if c.term < d.term {
      LaterCommitIsLonger(s, c, d);
    } else if d.term < c.term {
      LaterCommitIsLonger(s, d, c);
    }
  }

  lemma LaterCommitIsLonger(s: Core, c: Commit, d: Commit)
    requires CoreInv(s) && c in s.commits && d in s.commits && c.term < d.term
    ensures OwnAt(s, c.term, c.index) && OwnAt(s, d.term, d.index)
    ensures c.index < d.index
    ensures s.leaderLog[c.term][..c.index] <= s.leaderLog[d.term][..d.index]
  {
    assert OwnAt(s, c.term, c.index) && OwnAt(s, d.term, d.index);
    LeaderCompleteness(s, c, d.term);
    var p, ll := s.leaderLog[c.term][..c.index], s.leaderLog[d.term];
    assert ll[c.index - 1] == p[c.index - 1];
    assert LeaderLogOk(s.leaderLog, d.term);
  }
}
