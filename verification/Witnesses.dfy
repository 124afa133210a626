/** Where the election's guarantees end, exactly: for which numbers of members two leaders may have
    won one round or may meet in one view, and under which conditions a new leader may lack
    transactions that had been acknowledged. */
module Witnesses {
  import opened RaftNode
  import opened Cluster
  import opened ElectionSafety
  import opened Durability
  import opened Elections

  lemma FreshFollowers(cfg: Config) returns (s: State)
    requires cfg.Valid() && cfg.members != {}
    ensures Init(cfg, s) && s.acked == 0
    ensures forall x | x in cfg.members :: Waiting(s, x) && s.nodes[x].view == 0
    ensures forall x | x in s.nodes :: s.nodes[x].pos == 0 && s.nodes[x].io
  {
    var all := cfg.members + cfg.idles;
    s := State(map x | x in all :: Node(x, if x in cfg.members then Follower else Idle, 0, NO_ONE, NO_ONE, 0, true,
                                        false, false, 0, 0, false),
               map x | x in all :: Book({}, {}, 0, 0, {}, map[]), map[], map[], {}, map[], 0);
    assert Holders(cfg, s, 0) == cfg.Ackers();
    SubsetSize(cfg.members, cfg.Ackers());
  }

  lemma {:induction false} Choose(s: set<NodeId>, k: nat) returns (t: set<NodeId>)
    requires k <= |s|
    ensures t <= s && |t| == k
  {
    if k == 0 {
      t := {};
    } else {
      var x :| x in s;
      t := Choose(s - {x}, k - 1);
      t := t + {x};
    }
  }

  lemma Without(s: set<NodeId>, t: set<NodeId>)
    requires t <= s
    ensures |s - t| == |s| - |t|
  {
    assert s == t + (s - t);
  }

  // ---------------------------------------------------------------- two leaders in one view

  /** Two members lead and carry the same current view. */
  ghost predicate ShareView(cfg: Config, s: State, acts: seq<Action>, x: NodeId, y: NodeId)
    requires Typed(cfg, s)
  {
    var t := Run(cfg, s, acts);
    x != y && x in t.nodes && y in t.nodes && t.nodes[x].role == t.nodes[y].role == Leader
    && t.nodes[x].view == t.nodes[y].view
  }

  lemma Bump(cfg: Config, t: State, x: NodeId) returns (u: State)
    requires Typed(cfg, t) && x in cfg.members && t.nodes[x].role == Leader
    ensures u == Next(cfg, t, MissedMember(x)) && Around(cfg, t, u, x) && u.nodes[x] == BumpView(t.nodes[x])
  {
    u := Next(cfg, t, MissedMember(x));
  }

  function Yes(voters: set<NodeId>): map<NodeId, VoteAnswers> {
    map y | y in voters :: VoteAnswers(true, false, false, true)
  }

  /** x wins round 1 and bumps its view to 3 because z did not answer. */
  lemma BumpedLeader(cfg: Config, x: NodeId, z: NodeId, voters: set<NodeId>)
    returns (s: State, acts: seq<Action>, u: State)
    requires cfg.Valid() && |cfg.members| >= 3 && x in cfg.members && z in cfg.members && x != z
    requires voters <= cfg.members - {x, z} && |voters| == |cfg.members| / 2
    ensures Init(cfg, s) && Typed(cfg, s) && u == Run(cfg, s, acts) && Typed(cfg, u)
    ensures u.nodes[x].role == Leader && u.nodes[x].view == 3
    ensures Waiting(u, z) && u.nodes[z].view == 0 && u.nodes[z].pos == 0
    ensures AllMayVote(u, voters, 3, 0, Yes(voters))
  {
    hide Next, Run, Init, Gathered, AllMayVote, Yes;
    var a := Yes(voters);
    s := FreshFollowers(cfg);
    InitTyped(cfg, s);
    FreshMayVote(cfg, s, voters);
    var p, t := Elect(cfg, s, x, voters, 1, a);
    GatheredLeaves(s, t, x, voters, 1, a, z);
    u := Bump(cfg, t, x);
    AgainMayVote(cfg, s, t, u, x, voters);
    RunOne(cfg, t, MissedMember(x));
    RunAppend(cfg, s, p, [MissedMember(x)]);
    acts := p + [MissedMember(x)];
  }

  /** In any cluster of three or more, x may win round 1 and bump its view to 3, and z then win
      round 3 with the same voters. */
  lemma LeadersMayShareAView(cfg: Config, x: NodeId, z: NodeId) returns (s: State, acts: seq<Action>)
    requires cfg.Valid() && |cfg.members| >= 3 && x in cfg.members && z in cfg.members && x != z
    ensures Init(cfg, s) && ShareView(cfg, s, acts, x, z)
  {
    hide Run, Init, Gathered, AllMayVote, Yes;
    Without(cfg.members, {x, z});
    var voters := Choose(cfg.members - {x, z}, |cfg.members| / 2);
    var p, u;
    s, p, u := BumpedLeader(cfg, x, z, voters);
    var q, v := Elect(cfg, u, z, voters, 3, Yes(voters));
    GatheredLeaves(u, v, z, voters, 3, Yes(voters), x);
    RunAppend(cfg, s, p, q);
    acts := p + q;
  }

  lemma FreshMayVote(cfg: Config, s: State, voters: set<NodeId>)
    requires voters <= cfg.members
    requires forall x | x in cfg.members :: Waiting(s, x) && s.nodes[x].view == 0
    requires forall x | x in s.nodes :: s.nodes[x].pos == 0 && s.nodes[x].io
    ensures AllMayVote(s, voters, 1, 0, Yes(voters))
  {
  }

  lemma GatheredLeaves(t: State, u: State, x: NodeId, voters: set<NodeId>, view: nat, a: map<NodeId, VoteAnswers>,
                       z: NodeId)
    requires Gathered(t, u, x, voters, view, a) && z in t.nodes && z != x && z !in voters
    ensures z in u.nodes && u.nodes[z] == t.nodes[z]
  {
  }

  lemma AgainMayVote(cfg: Config, s: State, t: State, u: State, x: NodeId, voters: set<NodeId>)
    requires forall y | y in s.nodes :: s.nodes[y].pos == 0
    requires Gathered(s, t, x, voters, 1, Yes(voters)) && Around(cfg, t, u, x) && x !in voters
    ensures AllMayVote(u, voters, 3, 0, Yes(voters))
  {
    forall y | y in voters ensures MayVote(u, y, 3, 0, Yes(voters)) {
      assert Voted(s, t, y, 1, Yes(voters));
    }
  }

  /** Leaders never share a current view. */
  ghost predicate ViewsDiffer(cfg: Config) {
    forall s, acts, x, y | Init(cfg, s) && x in cfg.members && y in cfg.members :: !ShareView(cfg, s, acts, x, y)
  }

  lemma SomeShareAView(cfg: Config) returns (s: State, acts: seq<Action>, x: NodeId, y: NodeId)
    requires cfg.Valid() && |cfg.members| >= 2
    ensures Init(cfg, s) && x in cfg.members && y in cfg.members && ShareView(cfg, s, acts, x, y)
  {
    hide Run, ShareView, ShareRound;
    if |cfg.members| == 2 {
      x, y := TwoElements(cfg.members);
      s, acts := TwoMembersShareARound(cfg, x, y);
    } else {
      x :| x in cfg.members;
      Without(cfg.members, {x});
      y :| y in cfg.members - {x};
      s, acts := LeadersMayShareAView(cfg, x, y);
    }
  }

  /** The current views of simultaneous leaders are sure to differ in a cluster of one only ... */
  lemma ViewsDifferExactlyAlone(cfg: Config)
    requires cfg.Valid() && cfg.members != {}
    ensures ViewsDiffer(cfg) <==> |cfg.members| == 1
  {
    hide Run;
    if |cfg.members| == 1 {
      forall s, acts, x, y | Init(cfg, s) && x in cfg.members && y in cfg.members
        ensures !ShareView(cfg, s, acts, x, y)
      {
        if x != y {
          SubsetSize({x, y}, cfg.members);
        }
      }
    } else {
      var s, acts, x, y := SomeShareAView(cfg);
    }
  }

  /** ... but those of leaders whose view is still that of the round they won always differ. */
  lemma UnbumpedLeadersDiffer(cfg: Config, run: seq<State>, acts: seq<Action>, i: nat, x: NodeId, y: NodeId)
    requires IsRun(cfg, run, acts) && i < |run| && |cfg.members| >= 3
    requires x in run[i].nodes && y in run[i].nodes && x != y
    requires run[i].nodes[x].role == Leader && run[i].nodes[x].view == run[i].nodes[x].round
    requires run[i].nodes[y].role == Leader && run[i].nodes[y].view == run[i].nodes[y].round
    ensures run[i].nodes[x].view != run[i].nodes[y].view
  {
    hide IsRun;
    OneLeaderPerRound(cfg, run, acts, i, x, y);
  }

  // ---------------------------------------------------------------- losing what was acknowledged

  /** x leads after a round that began with everything up to `openAcked` acknowledged, and lacks some. */
  ghost predicate Lost(t: State, x: NodeId) {
    x in t.nodes && x in t.books && t.nodes[x].role == Leader && t.nodes[x].round > 0
    && t.nodes[x].pos < t.books[x].openAcked
  }

  /** The nodes in `careful` never granted a vote while they were not promotable. */
  ghost predicate Careful(t: State, careful: set<NodeId>) {
    forall b | b in t.grants && b.voter in careful :: t.grants[b].promotable
  }

  /** No run in which these nodes are careful loses what was acknowledged before a winning round. */
  ghost predicate LosesNothing(cfg: Config, careful: set<NodeId>) {
    forall s, acts, x | Init(cfg, s) && x in cfg.members ::
      Careful(Run(cfg, s, acts), careful) ==> !Lost(Run(cfg, s, acts), x)
  }

  lemma Writing(cfg: Config, t: State, x: NodeId, p: nat) returns (u: State)
    requires Typed(cfg, t) && x in cfg.members && t.nodes[x].pos < p
    ensures u == Next(cfg, t, Write(x, p)) && Typed(cfg, u) && u.acked == t.acked && u.grants == t.grants
    ensures u.nodes == t.nodes[x := t.nodes[x].(pos := p)]
  {
    u := Next(cfg, t, Write(x, p));
  }

  lemma Replicating(cfg: Config, t: State, x: NodeId, y: NodeId, p: nat) returns (u: State)
    requires Typed(cfg, t) && x in t.nodes && y in t.nodes && t.nodes[y].io && t.nodes[y].pos < p <= t.nodes[x].pos
    ensures u == Next(cfg, t, Replicate(y, x, p)) && Typed(cfg, u) && u.acked == t.acked && u.grants == t.grants
    ensures u.nodes == t.nodes[y := t.nodes[y].(pos := p)]
  {
    u := Next(cfg, t, Replicate(y, x, p));
  }

  lemma {:induction false} ReplicateAll(cfg: Config, t: State, x: NodeId, todo: set<NodeId>, p: nat)
    returns (acts: seq<Action>, u: State)
    requires Typed(cfg, t) && x in t.nodes && x !in todo && p <= t.nodes[x].pos
    requires forall h | h in todo :: h in t.nodes && t.nodes[h].io && t.nodes[h].pos < p
    ensures u == Run(cfg, t, acts) && Typed(cfg, u) && u.acked == t.acked && u.grants == t.grants
    ensures u.nodes.Keys == t.nodes.Keys
    ensures forall h | h in t.nodes :: u.nodes[h] == if h in todo then t.nodes[h].(pos := p) else t.nodes[h]
    decreases |todo|
  {
    hide Run, Next, Typed;
    if todo == {} {
      acts, u := [], t;
      RunNothing(cfg, t);
    } else {
      var y :| y in todo;
      var m := Replicating(cfg, t, x, y, p);
      RunOne(cfg, t, Replicate(y, x, p));
      acts, u := ReplicateAll(cfg, m, x, todo - {y}, p);
      RunAppend(cfg, t, [Replicate(y, x, p)], acts);
      acts := [Replicate(y, x, p)] + acts;
    }
  }

  lemma EnoughHolders(cfg: Config, t: State, x: NodeId, holders: set<NodeId>, p: nat)
    requires Typed(cfg, t) && x in cfg.members && x in holders && holders <= cfg.Ackers()
    requires |holders| > cfg.WaitCount() && forall h | h in holders :: t.nodes[h].pos >= p
    ensures |Holders(cfg, t, p) - {x}| >= cfg.WaitCount() && t.nodes[x].pos >= p
  {
    Without(holders, {x});
    SubsetSize(holders - {x}, Holders(cfg, t, p) - {x});
  }

  lemma Acknowledging(cfg: Config, t: State, x: NodeId, holders: set<NodeId>, p: nat) returns (u: State)
    requires Typed(cfg, t) && x in cfg.members && x in holders && holders <= cfg.Ackers() && t.acked < p
    requires |holders| > cfg.WaitCount() && forall h | h in holders :: t.nodes[h].pos >= p
    ensures u == Next(cfg, t, Acknowledge(x, p)) && Typed(cfg, u) && u.acked == p && u.nodes == t.nodes
    ensures u.grants == t.grants
  {
    hide Poll, Ask, Settle, Take, Put, Moved, HandleVote, HandleBeat, CheckVotes, Holders;
    EnoughHolders(cfg, t, x, holders, p);
    u := Next(cfg, t, Acknowledge(x, p));
  }

  lemma AckersTyped(cfg: Config, t: State)
    requires Typed(cfg, t)
    ensures cfg.members <= cfg.Ackers() <= t.nodes.Keys
  {
  }

  /** x writes up to p, these holders receive it, and it is acknowledged. */
  lemma WriteAndAck(cfg: Config, t: State, x: NodeId, holders: set<NodeId>, p: nat)
    returns (acts: seq<Action>, u: State)
    requires Typed(cfg, t) && x in cfg.members && x in holders && holders <= cfg.Ackers()
    requires |holders| > cfg.WaitCount() && t.acked < p && t.nodes[x].pos < p
    requires forall h | h in holders && h != x :: t.nodes[h].io && t.nodes[h].pos < p
    ensures u == Run(cfg, t, acts) && Typed(cfg, u) && u.acked == p && u.grants == t.grants
    ensures u.nodes.Keys == t.nodes.Keys
    ensures forall h | h in t.nodes :: u.nodes[h] == if h in holders then t.nodes[h].(pos := p) else t.nodes[h]
  {
    hide Next, Run, Typed;
    AckersTyped(cfg, t);
    var t1 := Writing(cfg, t, x, p);
    var q, t2 := ReplicateAll(cfg, t1, x, holders - {x}, p);
    u := Acknowledging(cfg, t2, x, holders, p);
    RunOne(cfg, t, Write(x, p));
    RunAppend(cfg, t, [Write(x, p)], q);
    RunOne(cfg, t2, Acknowledge(x, p));
    RunAppend(cfg, t, [Write(x, p)] + q, [Acknowledge(x, p)]);
    acts := [Write(x, p)] + q + [Acknowledge(x, p)];
  }

  /** Voters keep their IO thread running; those that hold the transaction are not promotable. */
  function Split(voters: set<NodeId>, holders: set<NodeId>): map<NodeId, VoteAnswers> {
    map y | y in voters :: VoteAnswers(false, false, false, y !in holders)
  }

  /** After the first election: the other members wait in view 0 or 1, and nobody has anything. */
  ghost predicate Begun(cfg: Config, t: State, x: NodeId) {
    && Typed(cfg, t) && x in cfg.members
    && (forall y | y in cfg.members && y != x :: Waiting(t, y) && t.nodes[y].view <= 1)
    && (forall y | y in t.nodes :: t.nodes[y].pos == 0 && (y != x ==> t.nodes[y].io))
  }

  lemma FirstElection(cfg: Config, x: NodeId) returns (s: State, acts: seq<Action>, t: State)
    requires cfg.Valid() && |cfg.members| >= 3 && x in cfg.members
    ensures Init(cfg, s) && Typed(cfg, s) && t == Run(cfg, s, acts) && Begun(cfg, t, x) && t.acked == 0
    ensures forall b | b in t.grants :: t.grants[b].promotable
  {
    hide Run, Init, Gathered, AllMayVote, Split, Begun;
    Without(cfg.members, {x});
    var voters := Choose(cfg.members - {x}, |cfg.members| / 2);
    s := FreshFollowers(cfg);
    InitTyped(cfg, s);
    FreshMaySplit(cfg, s, voters);
    acts, t := Elect(cfg, s, x, voters, 1, Split(voters, {}));
    ElectedBegins(cfg, s, t, x, voters);
  }

  lemma FreshMaySplit(cfg: Config, s: State, voters: set<NodeId>)
    requires voters <= cfg.members
    requires forall x | x in cfg.members :: Waiting(s, x) && s.nodes[x].view == 0
    requires forall x | x in s.nodes :: s.nodes[x].pos == 0 && s.nodes[x].io
    ensures AllMayVote(s, voters, 1, 0, Split(voters, {}))
  {
  }

  lemma ElectedBegins(cfg: Config, s: State, t: State, x: NodeId, voters: set<NodeId>)
    requires Typed(cfg, s) && Typed(cfg, t) && x in cfg.members && voters <= cfg.members - {x} && s.grants == map[]
    requires forall y | y in cfg.members :: Waiting(s, y) && s.nodes[y].view == 0
    requires forall y | y in s.nodes :: s.nodes[y].pos == 0 && s.nodes[y].io
    requires Gathered(s, t, x, voters, 1, Split(voters, {})) && t.nodes[x].pos == 0
    ensures Begun(cfg, t, x) && forall b | b in t.grants :: t.grants[b].promotable
  {
    forall y | y in s.nodes && y != x
      ensures t.nodes[y].pos == 0 && t.nodes[y].io && (y in cfg.members ==> Waiting(t, y) && t.nodes[y].view <= 1)
    {
      if y in voters {
        assert Voted(s, t, y, 1, Split(voters, {}));
      }
    }
  }

  /** From t to u the holders have received transaction 1. */
  ghost predicate Received(t: State, u: State, holders: set<NodeId>) {
    && u.nodes.Keys == t.nodes.Keys
    && forall h | h in t.nodes :: u.nodes[h] == if h in holders then t.nodes[h].(pos := 1) else t.nodes[h]
  }

  lemma HoldersMayVote(cfg: Config, t: State, u: State, x: NodeId, z: NodeId, voters: set<NodeId>, holders: set<NodeId>)
    requires Begun(cfg, t, x) && voters <= cfg.members - {x, z} && Received(t, u, holders)
    requires z in cfg.members && z != x && z !in holders
    ensures Waiting(u, z) && u.nodes[z].pos == 0
    ensures AllMayVote(u, voters, u.nodes[z].view + 2, 0, Split(voters, holders))
  {
    forall y | y in voters ensures MayVote(u, y, u.nodes[z].view + 2, 0, Split(voters, holders)) {
      assert Waiting(t, y) && t.nodes[y].view <= 1;
    }
  }

  lemma BegunHolders(cfg: Config, t: State, x: NodeId, holders: set<NodeId>) returns (acts: seq<Action>, u: State)
    requires Begun(cfg, t, x) && x in holders && holders <= cfg.Ackers() && |holders| > cfg.WaitCount() && t.acked == 0
    ensures Typed(cfg, t) && u == Run(cfg, t, acts) && Typed(cfg, u) && u.acked == 1 && u.grants == t.grants
    ensures Received(t, u, holders)
  {
    hide Run, Waiting;
    acts, u := WriteAndAck(cfg, t, x, holders, 1);
  }

  /** x is elected and has a transaction acknowledged by `holders`, of whom z is none. */
  lemma Acknowledged(cfg: Config, x: NodeId, z: NodeId, voters: set<NodeId>, holders: set<NodeId>)
    returns (s: State, acts: seq<Action>, u: State)
    requires cfg.Valid() && |cfg.members| >= 3
    requires x in cfg.members && x in holders && holders <= cfg.Ackers() && |holders| > cfg.WaitCount()
    requires z in cfg.members && z !in holders && voters <= cfg.members - {x, z}
    ensures Init(cfg, s) && Typed(cfg, s) && u == Run(cfg, s, acts) && Typed(cfg, u) && u.acked == 1
    ensures Waiting(u, z) && u.nodes[z].pos == 0
    ensures AllMayVote(u, voters, u.nodes[z].view + 2, 0, Split(voters, holders))
    ensures forall b | b in u.grants :: u.grants[b].promotable
  {
    hide Run, Init, AllMayVote, Begun, Split, Received;
    var p, q, t;
    s, p, t := FirstElection(cfg, x);
    q, u := BegunHolders(cfg, t, x, holders);
    HoldersMayVote(cfg, t, u, x, z, voters, holders);
    RunAppend(cfg, s, p, q);
    acts := p + q;
  }

  /** z wins the votes of `voters` although x had a transaction acknowledged by `holders`, if no
      careful node is among both. */
  lemma Losing(cfg: Config, careful: set<NodeId>, x: NodeId, z: NodeId, voters: set<NodeId>, holders: set<NodeId>)
    returns (s: State, acts: seq<Action>)
    requires cfg.Valid() && |cfg.members| >= 3
    requires x in cfg.members && x in holders && holders <= cfg.Ackers() && |holders| > cfg.WaitCount()
    requires z in cfg.members && z !in holders
    requires voters <= cfg.members - {x, z} && |voters| == |cfg.members| / 2
    requires voters * holders * careful == {}
    ensures Init(cfg, s) && Careful(Run(cfg, s, acts), careful) && Lost(Run(cfg, s, acts), z)
  {
    hide Run, Init, Gathered, AllMayVote, Split, Careful;
    var p, u;
    s, p, u := Acknowledged(cfg, x, z, voters, holders);
    var q, v := Elect(cfg, u, z, voters, 2, Split(voters, holders));
    RunAppend(cfg, s, p, q);
    acts := p + q;
    SplitIsCareful(u, v, z, voters, holders, u.nodes[z].view + 2, careful);
  }

  lemma SplitIsCareful(t: State, u: State, z: NodeId, voters: set<NodeId>, holders: set<NodeId>, view: nat,
                       careful: set<NodeId>)
    requires Gathered(t, u, z, voters, view, Split(voters, holders)) && voters * holders * careful == {}
    requires forall b | b in t.grants :: t.grants[b].promotable
    ensures Careful(u, careful)
  {
    forall b | b in u.grants && b.voter in careful ensures u.grants[b].promotable {
      if !(b in t.grants && u.grants[b] == t.grants[b]) {
        assert b.voter !in voters * holders * careful;
      }
    }
  }

  /** A member that is not careful can be the only one among both voters and holders. */
  lemma CarelessVoterLoses(cfg: Config, careful: set<NodeId>, y: NodeId)
    returns (s: State, acts: seq<Action>, z: NodeId)
    requires cfg.Valid() && |cfg.members| >= 3 && y in cfg.members && y !in careful
    ensures z in cfg.members && Init(cfg, s)
    ensures Careful(Run(cfg, s, acts), careful) && Lost(Run(cfg, s, acts), z)
  {
    hide Run, Init;
    var n := |cfg.members|;
    Without(cfg.members, {y});
    var x :| x in cfg.members - {y};
    Without(cfg.members, {x, y});
    var more := Choose(cfg.members - {x, y}, (n - 1) / 2 - 1);
    var rest := cfg.members - {x, y} - more;
    Without(cfg.members - {x, y}, more);
    z :| z in rest;
    Without(rest, {z});
    var voters := rest - {z} + {y};
    s, acts := Losing(cfg, careful, x, z, voters, more + {x, y});
  }

  /** With an idle node among the holders, voters and holders need not meet at all. */
  lemma IdleHolderLoses(cfg: Config, careful: set<NodeId>, w: NodeId) returns (s: State, acts: seq<Action>, z: NodeId)
    requires cfg.Valid() && |cfg.members| >= 3 && w in cfg.ackingIdles
    ensures z in cfg.members && Init(cfg, s)
    ensures Careful(Run(cfg, s, acts), careful) && Lost(Run(cfg, s, acts), z)
  {
    hide Run, Init;
    var n := |cfg.members|;
    var x :| x in cfg.members;
    Without(cfg.members, {x});
    var more := Choose(cfg.members - {x}, (n - 1) / 2 - 1);
    var rest := cfg.members - {x} - more;
    Without(cfg.members - {x}, more);
    z :| z in rest;
    Without(rest, {z});
    s, acts := Losing(cfg, careful, x, z, rest - {z}, more + {x, w});
  }

  lemma CarefulClusterLosesNothing(cfg: Config, careful: set<NodeId>, s: State, acts: seq<Action>, x: NodeId)
    requires Init(cfg, s) && |cfg.members| >= 3 && cfg.members <= careful && cfg.ackingIdles == {}
    requires Careful(Run(cfg, s, acts), careful)
    ensures !Lost(Run(cfg, s, acts), x)
  {
    hide Run, Init, DataInv, Careful;
    InitTyped(cfg, s);
    DataRun(cfg, s, acts);
    WinnerLosesNothing(cfg, Run(cfg, s, acts), x, careful);
  }

  lemma WinnerLosesNothing(cfg: Config, t: State, x: NodeId, careful: set<NodeId>)
    requires DataInv(cfg, t) && cfg.members <= careful && cfg.ackingIdles == {} && Careful(t, careful)
    ensures !Lost(t, x)
  {
    hide DataInv, Careful, Attests;
    if Lost(t, x) {
      CarefulTally(cfg, t, x, careful);
      WinnerReaches(cfg, t, x);
    }
  }

  lemma CarefulTally(cfg: Config, t: State, x: NodeId, careful: set<NodeId>)
    requires DataInv(cfg, t) && cfg.members <= careful && Careful(t, careful) && x in t.nodes && x in t.books
    ensures forall y | y in t.books[x].tally :: Attests(t, x, y)
  {
    hide GrantsOK, RequestsOK, ResponsesOK, OneVotePerView, PositionsOK, AskedOK, OpeningsOK, AckedOK;
    forall y | y in t.books[x].tally ensures Attests(t, x, y) {
      assert NodeOK(cfg, x, t.nodes[x], t.books[x]);
      assert Ballot(x, t.nodes[x].round, y) in t.grants;
    }
  }

  /** Exactly when nothing acknowledged is lost: all members are careful, and no idle node's
      acknowledgement counts. */
  lemma LosesNothingExactly(cfg: Config, careful: set<NodeId>)
    requires cfg.Valid() && |cfg.members| >= 3
    ensures LosesNothing(cfg, careful) <==> cfg.members <= careful && cfg.ackingIdles == {}
  {
    hide Run, Careful, Lost;
    if !(cfg.members <= careful) {
      var y :| y in cfg.members && y !in careful;
      var s, acts, z := CarelessVoterLoses(cfg, careful, y);
    } else if cfg.ackingIdles != {} {
      var w :| w in cfg.ackingIdles;
      var s, acts, z := IdleHolderLoses(cfg, careful, w);
    } else {
      forall s, acts, x | Init(cfg, s) && x in cfg.members && Careful(Run(cfg, s, acts), careful)
        ensures !Lost(Run(cfg, s, acts), x)
      {
        CarefulClusterLosesNothing(cfg, careful, s, acts, x);
      }
    }
  }

  // ---------------------------------------------------------------- two winners of one round

  ghost predicate ShareRound(cfg: Config, s: State, acts: seq<Action>, x: NodeId, y: NodeId)
    requires Typed(cfg, s)
  {
    var t := Run(cfg, s, acts);
    x != y && x in t.nodes && y in t.nodes && t.nodes[x].role == t.nodes[y].role == Leader
    && t.nodes[x].round == t.nodes[y].round
  }

  /** Two members may win one round, and then also share its view. */
  lemma TwoMembersShareARound(cfg: Config, x: NodeId, y: NodeId) returns (s: State, acts: seq<Action>)
    requires cfg.Valid() && cfg.members == {x, y} && x != y
    ensures Init(cfg, s) && ShareRound(cfg, s, acts, x, y) && ShareView(cfg, s, acts, x, y)
  {
    hide Next, Run, Init;
    s := FreshFollowers(cfg);
    InitTyped(cfg, s);
    var p, t := ElectOneself(cfg, s, x, y);
    var q, u := ElectOneself(cfg, t, y, x);
    RunAppend(cfg, s, p, q);
    acts := p + q;
  }

  /** No two members ever lead having won rounds of the same view. */
  ghost predicate RoundsAreSafe(cfg: Config) {
    forall s, acts, x, y | Init(cfg, s) && x in cfg.members && y in cfg.members :: !ShareRound(cfg, s, acts, x, y)
  }

  lemma TwoElements(m: set<NodeId>) returns (x: NodeId, y: NodeId)
    requires |m| == 2
    ensures x != y && m == {x, y}
  {
    x :| x in m;
    assert |m - {x}| == 1;
    y :| y in m - {x};
    assert |m - {x} - {y}| == 0;
  }

  lemma SafeUnlessTwo(cfg: Config, s: State, acts: seq<Action>, x: NodeId, y: NodeId)
    requires Init(cfg, s) && |cfg.members| != 2 && x in cfg.members && y in cfg.members
    ensures !ShareRound(cfg, s, acts, x, y)
  {
    hide Run, Init, Inv;
    InitTyped(cfg, s);
    if x != y {
      SubsetSize({x, y}, cfg.members);
      InvRun(cfg, s, acts);
      var t := Run(cfg, s, acts);
      if x in t.nodes && y in t.nodes && t.nodes[x].role == t.nodes[y].role == Leader {
        LeadersWonApart(cfg, t, x, y);
      }
    }
  }

  /** Exactly when the election is safe: for every number of members but two. */
  lemma RoundsAreSafeExactlyUnlessTwoMembers(cfg: Config)
    requires cfg.Valid() && cfg.members != {}
    ensures RoundsAreSafe(cfg) <==> |cfg.members| != 2
  {
    hide Run;
    if |cfg.members| == 2 {
      var x, y := TwoElements(cfg.members);
      var s, acts := TwoMembersShareARound(cfg, x, y);
    } else {
      forall s, acts, x, y | Init(cfg, s) && x in cfg.members && y in cfg.members
        ensures !ShareRound(cfg, s, acts, x, y)
      {
        SafeUnlessTwo(cfg, s, acts, x, y);
      }
    }
  }
}
