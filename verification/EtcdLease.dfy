/** Leadership through a key of etcd (internal/coordination/etcd/coordinator.go: run,
    tryAcquireLeader): the coordinators and the server as a transition system.  Calls may fail,
    answers may get lost after the server acted, and leases may expire at any moment. */
module EtcdLease {

  /** How far a coordinator is in acquiring leadership. */
  datatype Phase = Resting | Granted(lease: nat) | Answered(lease: nat, won: bool, value: string)

  datatype Node = Node(isLeader: bool, leaderID: string, leaseID: nat, phase: Phase)

  datatype Key = Free | Held(value: string, lease: nat)

  /** `owner` remembers to whom each lease was granted. */
  datatype State = State(nodes: seq<Node>, key: Key, live: set<nat>, owner: map<nat, nat>)

  datatype Step =
    | KeepAlive(n: nat, ok: bool)
    | Grant(n: nat, lease: nat, ok: bool)
    | Commit(n: nat, lost: bool)
    | Receive(n: nat)
    | Expire(lease: nat)

  // ---------------------------------------------------------------- the coordinator

  function Begin(): Node {
    Node(false, "", 0, Resting)
  }

  predicate Renews(x: Node) {
    x.isLeader && x.leaseID != 0
  }

  function GiveUp(x: Node): Node {
    x.(isLeader := false, leaseID := 0)
  }

  /** What the answer to the transaction makes of the coordinator. */
  function Adopt(x: Node, id: string): Node
    requires x.phase.Answered?
  {
    if x.phase.won then Node(true, id, x.phase.lease, Resting) else Node(false, x.phase.value, 0, Resting)
  }

  // ---------------------------------------------------------------- the system

  predicate Enabled(ids: seq<string>, s: State, e: Step) {
    match e
    case KeepAlive(n, ok) => n < |s.nodes| && s.nodes[n].phase.Resting? && Renews(s.nodes[n])
        && (ok ==> s.nodes[n].leaseID in s.live)
    case Grant(n, lease, ok) => n < |s.nodes| && s.nodes[n].phase.Resting? && !Renews(s.nodes[n]) && lease != 0
        && lease !in s.owner
    case Commit(n, lost) => n < |s.nodes| && s.nodes[n].phase.Granted?
    case Receive(n) => n < |s.nodes| && n < |ids| && s.nodes[n].phase.Answered?
    case Expire(lease) => lease in s.live
  }

  function Put(s: State, n: nat, x: Node): State
    requires n < |s.nodes|
  {
    s.(nodes := s.nodes[n := x])
  }

  /** The server's part of the transaction: put the key if it was never created. */
  function Claim(ids: seq<string>, s: State, n: nat, lease: nat): Key
    requires n < |ids|
  {
    if s.key.Free? then Held(ids[n], lease) else s.key
  }

  function Next(ids: seq<string>, s: State, e: Step): State
    requires Enabled(ids, s, e) && |ids| == |s.nodes|
  {
    match e
    case KeepAlive(n, ok) => if ok then s else Put(s, n, GiveUp(s.nodes[n]))
    case Grant(n, lease, ok) =>
      var t := s.(live := s.live + {lease}, owner := s.owner[lease := n]);
      if ok then Put(t, n, s.nodes[n].(phase := Granted(lease))) else t
    case Commit(n, lost) =>
      var x, lease := s.nodes[n], s.nodes[n].phase.lease;
      // etcd refuses to attach a key to a lease that is gone
      if s.key.Free? && lease !in s.live then Put(s, n, x.(phase := Resting))
      else
        var t := s.(key := Claim(ids, s, n, lease));
        var answer := Answered(lease, s.key.Free?, if s.key.Held? then s.key.value else "");
        Put(t, n, x.(phase := if lost then Resting else answer))
    case Receive(n) => Put(s, n, Adopt(s.nodes[n], ids[n]))
    case Expire(lease) =>
      s.(live := s.live - {lease}, key := if s.key.Held? && s.key.lease == lease then Free else s.key)
  }

  ghost predicate IsRun(ids: seq<string>, run: seq<State>, steps: seq<Step>) {
    && |run| == |steps| + 1
    && run[0] == Fresh(|ids|)
    && forall i | 0 <= i < |steps| ::
         |ids| == |run[i].nodes| && Enabled(ids, run[i], steps[i]) && run[i + 1] == Next(ids, run[i], steps[i])
  }

  function Fresh(n: nat): State {
    State(seq(n, i => Begin()), Free, {}, map[])
  }

  // ---------------------------------------------------------------- the invariant

  /** The coordinator thinks it leads, and its lease has not expired. */
  predicate Leads(s: State, n: nat) {
    n < |s.nodes| && s.nodes[n].isLeader && s.nodes[n].leaseID in s.live
  }

  predicate Owns(s: State, n: nat, lease: nat) {
    lease in s.owner && s.owner[lease] == n
  }

  ghost predicate NodeInv(ids: seq<string>, s: State, n: nat)
    requires n < |s.nodes| == |ids|
  {
    var x := s.nodes[n];
    && (x.isLeader ==> Owns(s, n, x.leaseID) && x.leaderID == ids[n])
    && (x.isLeader && x.leaseID in s.live ==> s.key == Held(ids[n], x.leaseID))
    && (!x.isLeader ==> x.leaseID == 0)
    && (!x.phase.Resting? ==> Owns(s, n, x.phase.lease) && !x.isLeader)
    && (x.phase.Granted? ==> !(s.key.Held? && s.key.lease == x.phase.lease))
    && (x.phase.Answered? && x.phase.won && x.phase.lease in s.live ==> s.key == Held(ids[n], x.phase.lease))
  }

  ghost predicate Inv(ids: seq<string>, s: State) {
    && |s.nodes| == |ids|
    && 0 !in s.owner
    && s.live <= s.owner.Keys
    && (forall l | l in s.owner :: s.owner[l] < |ids|)
    && (s.key.Held? ==> s.key.lease in s.live && s.key.value == ids[s.owner[s.key.lease]])
    && forall n | 0 <= n < |s.nodes| :: NodeInv(ids, s, n)
  }

  /** The coordinators other than n are as they were, and what they rely on still holds. */
  lemma OthersKeep(ids: seq<string>, s: State, t: State, n: nat)
    requires Inv(ids, s) && |t.nodes| == |s.nodes|
    requires forall m | 0 <= m < |s.nodes| && m != n :: t.nodes[m] == s.nodes[m]
    requires forall l | l in s.owner :: l in t.owner && t.owner[l] == s.owner[l]
    requires t.live * s.owner.Keys <= s.live
    requires t.key == s.key || (t.key.Held? && t.key.lease in s.owner && s.owner[t.key.lease] == n && s.key.Free?)
    ensures forall m | 0 <= m < |s.nodes| && m != n :: NodeInv(ids, t, m)
  {
    forall m | 0 <= m < |s.nodes| && m != n ensures NodeInv(ids, t, m) {
      assert NodeInv(ids, s, m);
    }
  }

  lemma InvStep(ids: seq<string>, s: State, e: Step)
    requires Inv(ids, s) && Enabled(ids, s, e)
    ensures Inv(ids, Next(ids, s, e))
  {
    var t := Next(ids, s, e);
    if e.Expire? {
      forall m | 0 <= m < |s.nodes| ensures NodeInv(ids, t, m) {
        assert NodeInv(ids, s, m);
      }
    } else {
      assert NodeInv(ids, s, e.n);
      OthersKeep(ids, s, t, e.n);
      assert NodeInv(ids, t, e.n);
    }
  }

  lemma {:induction false} InvRun(ids: seq<string>, run: seq<State>, steps: seq<Step>, i: nat)
    requires IsRun(ids, run, steps) && i < |run|
    ensures Inv(ids, run[i])
  {
    if i == 0 {
      FreshInv(ids);
    } else {
      InvRun(ids, run, steps, i - 1);
      InvStep(ids, run[i - 1], steps[i - 1]);
    }
  }

  lemma FreshInv(ids: seq<string>)
    ensures Inv(ids, Fresh(|ids|))
  {
    var s := Fresh(|ids|);
    forall n | 0 <= n < |s.nodes| ensures NodeInv(ids, s, n) {
      assert s.nodes[n] == Begin();
    }
  }

  /** At every moment at most one coordinator thinks it leads under a live lease, even if two share
      a name, and then the key holds its name under that lease. */
  lemma OneLeaderWithLiveLease(ids: seq<string>, run: seq<State>, steps: seq<Step>, i: nat, n: nat, m: nat)
    requires IsRun(ids, run, steps) && i < |run| && Leads(run[i], n) && Leads(run[i], m)
    ensures n == m && n < |ids| && run[i].key == Held(ids[n], run[i].nodes[n].leaseID)
        && run[i].nodes[n].leaderID == ids[n]
  {
    InvRun(ids, run, steps, i);
    assert NodeInv(ids, run[i], n) && NodeInv(ids, run[i], m);
  }

  /** A coordinator comes to lead only by a transaction that found the key free; as long as its
      lease lives nobody else can. */
  lemma LeadershipIsExclusive(ids: seq<string>, s: State, e: Step, n: nat)
    requires Inv(ids, s) && Enabled(ids, s, e) && Leads(s, n)
    requires !(e.Expire? && e.lease == s.nodes[n].leaseID) && !(e.KeepAlive? && e.n == n && !e.ok)
    ensures Leads(Next(ids, s, e), n) && Next(ids, s, e).key == s.key
    ensures forall m: nat | m != n :: !Leads(Next(ids, s, e), m)
  {
    InvStep(ids, s, e);
    var t := Next(ids, s, e);
    assert NodeInv(ids, s, n) && NodeInv(ids, t, n);
    forall m: nat | m != n ensures !Leads(t, m) {
      assert m < |t.nodes| ==> NodeInv(ids, t, m);
    }
  }

  // ---------------------------------------------------------------- what an attempt brings

  lemma OthersLeave(ids: seq<string>, s: State, e: Step, n: nat)
    requires |ids| == |s.nodes| && Enabled(ids, s, e) && n < |s.nodes| && s.nodes[n].phase.Answered? && e != Receive(n)
    ensures |Next(ids, s, e).nodes| == |s.nodes| && Next(ids, s, e).nodes[n] == s.nodes[n]
  {
  }

  lemma {:induction false} AnswerWaits(ids: seq<string>, run: seq<State>, steps: seq<Step>, i: nat, j: nat, n: nat)
    requires IsRun(ids, run, steps) && i <= j < |run|
    requires n < |run[i].nodes| && run[i].nodes[n].phase.Answered?
    requires forall k | i <= k < j :: steps[k] != Receive(n)
    ensures n < |run[j].nodes| && run[j].nodes[n] == run[i].nodes[n]
    decreases j - i
  {
    if i == j {
    } else {
      AnswerWaits(ids, run, steps, i, j - 1, n);
      OthersLeave(ids, run[j - 1], steps[j - 1], n);
    }
  }

  /** In every run, a coordinator whose transaction was answered leads afterwards under its lease if
      the key was free at the transaction, and otherwise follows whoever then held the key. */
  lemma AttemptTells(ids: seq<string>, run: seq<State>, steps: seq<Step>, i: nat, j: nat, n: nat)
    requires IsRun(ids, run, steps) && i < j < |steps| && steps[i] == Commit(n, false) && steps[j] == Receive(n)
    requires forall k | i < k < j :: steps[k] != Receive(n)
    requires n < |run[i].nodes| && run[i].nodes[n].phase.Granted?
    requires run[i].key.Held? || run[i].nodes[n].phase.lease in run[i].live
    ensures n < |ids| && n < |run[j + 1].nodes|
    ensures match run[i].key
            case Free => run[j + 1].nodes[n] == Node(true, ids[n], run[i].nodes[n].phase.lease, Resting)
            case Held(value, lease) =>
              && lease in run[i].owner && run[i].owner[lease] < |ids| && value == ids[run[i].owner[lease]]
              && run[j + 1].nodes[n] == Node(false, value, 0, Resting)
  {
    InvRun(ids, run, steps, i);
    AnswerWaits(ids, run, steps, i + 1, j, n);
  }

  // ---------------------------------------------------------------- witnesses

  /** The run that the steps make, if each is enabled. */
  ghost predicate Reaches(ids: seq<string>, s: State, steps: seq<Step>, t: State)
    decreases |steps|
  {
    if steps == [] then s == t
    else |ids| == |s.nodes| && Enabled(ids, s, steps[0]) && Reaches(ids, Next(ids, s, steps[0]), steps[1..], t)
  }

  lemma One(ids: seq<string>, s: State, e: Step, rest: seq<Step>, t: State)
    requires |ids| == |s.nodes| && Enabled(ids, s, e) && Reaches(ids, Next(ids, s, e), rest, t)
    ensures Reaches(ids, s, [e] + rest, t)
  {
    assert ([e] + rest)[1..] == rest;
  }

  /** Among any two or more coordinators two may think they lead: one of them under a lease that has expired. */
  lemma TwoMayBelieve(ids: seq<string>) returns (t: State)
    requires |ids| >= 2
    ensures Reaches(ids, Fresh(|ids|),
                    [Grant(0, 1, true), Commit(0, false), Receive(0), Expire(1),
                     Grant(1, 2, true), Commit(1, false), Receive(1)], t)
    ensures t.nodes[0].isLeader && t.nodes[1].isLeader && Leads(t, 1) && !Leads(t, 0)
  {
    var s0 := Fresh(|ids|);
    var s1 := Next(ids, s0, Grant(0, 1, true));
    var s2 := Next(ids, s1, Commit(0, false));
    var s3 := Next(ids, s2, Receive(0));
    var s4 := Next(ids, s3, Expire(1));
    var s5 := Next(ids, s4, Grant(1, 2, true));
    var s6 := Next(ids, s5, Commit(1, false));
    t := Next(ids, s6, Receive(1));
    var r7: seq<Step> := [];
    var r6 := [Receive(1)] + r7;
    var r5 := [Commit(1, false)] + r6;
    var r4 := [Grant(1, 2, true)] + r5;
    var r3 := [Expire(1)] + r4;
    var r2 := [Receive(0)] + r3;
    var r1 := [Commit(0, false)] + r2;
    hide Next, Enabled;
    One(ids, s6, Receive(1), r7, t);
    One(ids, s5, Commit(1, false), r6, t);
    One(ids, s4, Grant(1, 2, true), r5, t);
    One(ids, s3, Expire(1), r4, t);
    One(ids, s2, Receive(0), r3, t);
    One(ids, s1, Commit(0, false), r2, t);
    One(ids, s0, Grant(0, 1, true), r1, t);
    assert [Grant(0, 1, true)] + r1
        == [Grant(0, 1, true), Commit(0, false), Receive(0), Expire(1), Grant(1, 2, true), Commit(1, false),
            Receive(1)];
  }

  /** Nobody leads while a key stands whose coordinator gave up its lease or never heard that it
      had won: every attempt fails until that lease expires, even the coordinator's own. */
  ghost predicate Orphaned(s: State) {
    && s.key.Held? && s.key.lease in s.live
    && forall n | 0 <= n < |s.nodes| ::
         !Leads(s, n) && !(s.nodes[n].phase.Answered? && s.nodes[n].phase.won && s.nodes[n].phase.lease in s.live)
  }

  lemma OrphanedKeyBlocks(ids: seq<string>, s: State, e: Step)
    requires Inv(ids, s) && Enabled(ids, s, e) && Orphaned(s)
    ensures if e == Expire(s.key.lease) then Next(ids, s, e).key.Free? else Orphaned(Next(ids, s, e))
  {
    var t := Next(ids, s, e);
    if e != Expire(s.key.lease) {
      forall n | 0 <= n < |t.nodes|
        ensures !Leads(t, n) && !(t.nodes[n].phase.Answered? && t.nodes[n].phase.won
            && t.nodes[n].phase.lease in t.live)
      {
        assert NodeInv(ids, s, n);
        assert !Leads(s, n);
      }
    }
  }

  /** One failed renewal is enough to orphan the key: the leader gives up, its lease lives on. */
  lemma FailedRenewalOrphans(ids: seq<string>, s: State, n: nat)
    requires Inv(ids, s) && Leads(s, n) && s.nodes[n].phase.Resting?
    ensures Enabled(ids, s, KeepAlive(n, false)) && Orphaned(Next(ids, s, KeepAlive(n, false)))
  {
    assert NodeInv(ids, s, n);
    var t := Next(ids, s, KeepAlive(n, false));
    forall m | 0 <= m < |t.nodes|
      ensures !Leads(t, m) && !(t.nodes[m].phase.Answered? && t.nodes[m].phase.won && t.nodes[m].phase.lease in t.live)
    {
      assert NodeInv(ids, s, m);
    }
  }
}

module EtcdLeaseClass {
  import L = EtcdLease

  /** The answers of one call of tryAcquireLeader. */
  datatype Txn = Failed | Answer(succeeded: bool, values: seq<string>)

  class Coordinator {
    const localID: string
    var isLeader: bool
    var leaderID: string
    var leaseID: nat

    ghost function Node(phase: L.Phase): L.Node
      reads this
    {
      L.Node(isLeader, leaderID, leaseID, phase)
    }

    constructor (localID: string)
      ensures this.localID == localID && Node(L.Resting) == L.Begin()
    {
      this.localID, isLeader, leaderID, leaseID := localID, false, "", 0;
    }

    /** Renew, or else ask for a lease (0: refused) and try to create the key under it. */
    method TryAcquireLeader(renewed: bool, lease: nat, txn: Txn)
      modifies this
      ensures var x := old(Node(L.Resting));
              if L.Renews(x) && renewed then Node(L.Resting) == x
              else
                var y := if L.Renews(x) then L.GiveUp(x) else x;
                if lease == 0 || txn.Failed? then Node(L.Resting) == y
                else Node(L.Resting) ==
                     L.Adopt(y.(phase := L.Answered(lease, txn.succeeded, if txn.values == [] then ""
                         else txn.values[0])), localID)
    {
      if isLeader && leaseID != 0 {
        if renewed {
          return;
        }
        isLeader, leaseID := false, 0;
      }
      if lease == 0 {
        return;
      }
      match txn
      case Failed => return;
      case Answer(succeeded, values) =>
        if succeeded {
          isLeader, leaderID, leaseID := true, localID, lease;
          return;
        }
        var leaderVal := "";
        if |values| > 0 {
          leaderVal := values[0];
        }
        isLeader, leaderID, leaseID := false, leaderVal, 0;
    }
  }
}
