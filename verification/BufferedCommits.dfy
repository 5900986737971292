/** What a leader has committed in the system as it really runs: what it stored itself counts once it is stored. */
module BufferedCommits {
  import opened RaftTypes
  import opened RaftNode
  import opened Cluster
  import opened ClusterSafety
  import opened ClusterCommits
  import opened Buffered
  import opened BufferedSim
  import opened BufferedLog
  import opened LogStore
  import opened BufferedSafety

  /** At every moment a leader has committed, of its own term, exactly the positions that more than half of the voters
      have reached according to it. */
  lemma InMemoryCommitsMajority(sys: seq<System>, i: nat, v: Id, k: nat)
    requires IsSystemRun(sys) && i < |sys| && v in sys[i].hosts && sys[i].hosts[v].vol.role == Leader
    ensures sys[i].hosts[v].vol.progress.Keys == sys[i].voters
    ensures var n := sys[i].hosts[v].vol;
            0 < k <= |n.log| && n.log[k - 1].term == n.term ==>
              (k <= n.committed <==> 2 * |set u | u in sys[i].voters && n.progress[u] >= k| > |sys[i].voters|)
  {
    hide IsRun, IsSystemRun;
    var run, n := TwoInMemory(sys, i, v, v);
    LeaderCommitsMajority(run, |run| - 1, v, k);
  }

  lemma AckCounts(voters: set<Id>, n: Node, index: nat)
    requires n.role == Leader && n.progress.Keys == voters && n.id in voters
    requires Acknowledge(voters, n, n.id, index).Step?
    ensures var n' := Acknowledge(voters, n, n.id, index).node;
            n'.role == Leader && n'.progress == n.progress[n.id := Max(n.progress[n.id], index)]
  {
    hide CommittedIndex;
    assert index <= n.progress[n.id] ==> n.progress == n.progress[n.id := Max(n.progress[n.id], index)];
  }

  /** Once a Ready with entries is done with, a leader counts itself for everything it has on disk. */
  lemma StoredIsCounted(sys: seq<System>, i: nat, v: Id)
    requires IsSystemRun(sys) && i < |sys| - 1 && Acts(sys[i], sys[i + 1], v, Advance)
    requires sys[i].hosts[v].vol.role == Leader && sys[i].hosts[v].ready.ents != []
    ensures var h, n' := sys[i].hosts[v], sys[i + 1].hosts[v].vol;
            && n'.role == Leader && n'.progress.Keys == sys[i].voters && v in sys[i].voters
            && n'.progress[v] >= |h.disk.log| == h.ready.ents[|h.ready.ents| - 1].index
            && forall u :: u in sys[i].voters && u != v ==> n'.progress[u] == h.vol.progress[u]
  {
    hide IsRun, IsSystemRun, Handle, Backs, Stabilised, Acknowledge, TailInv;
    var h := sys[i].hosts[v];
    InMemoryCommitsMajority(sys, i, v, 0);
    var run, _ := RunBacked(sys, i, i);
    VolatileId(run, sys[i], v);
    StoredIsDisk(run, sys[i], v);
    HostIsVoter(run, sys[i], v);
    assert EndsOk(h);
    AckCounts(sys[i].voters, h.vol, LastOf(h.ready).value.0);
  }

  lemma HostIsVoter(run: seq<Cluster>, s: System, v: Id)
    requires Backs(run, s) && v in s.hosts
    ensures v in s.voters
  {
    hide IsRun, HostTraced;
    NonEmptyRun(run);
    assert v in Disks(s);
    NodeIds(run, v);
  }
}
