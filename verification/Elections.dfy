/** Runs in which a node wins an election: in a cluster of any size by the votes of any half of the
    other members, and among two members by its own failing MySQL. */
module Elections {
  import opened RaftNode
  import opened Cluster
  import opened ElectionSafety

  lemma RunOne(cfg: Config, t: State, a: Action)
    requires Typed(cfg, t)
    ensures Run(cfg, t, [a]) == Next(cfg, t, a)
  {
    hide Next;
    assert [a][..0] == [];
  }

  lemma {:induction false} RunAppend(cfg: Config, t: State, p: seq<Action>, q: seq<Action>)
    requires Typed(cfg, t)
    ensures Run(cfg, t, p + q) == Run(cfg, Run(cfg, t, p), q)
    decreases |q|
  {
    hide Next;
    if q == [] {
      assert p + q == p;
    } else {
      RunAppend(cfg, t, p, q[..|q| - 1]);
      assert (p + q)[..|p + q| - 1] == p + q[..|q| - 1];
    }
  }

  lemma RunTwo(cfg: Config, t: State, a: Action, b: Action)
    requires Typed(cfg, t)
    ensures Run(cfg, t, [a, b]) == Next(cfg, Next(cfg, t, a), b)
  {
    hide Run, Next;
    RunOne(cfg, t, a);
    RunOne(cfg, Next(cfg, t, a), b);
    RunAppend(cfg, t, [a], [b]);
    assert [a] + [b] == [a, b];
  }

  lemma RunThree(cfg: Config, t: State, a: Action, b: Action, c: Action)
    requires Typed(cfg, t)
    ensures Run(cfg, t, [a, b, c]) == Next(cfg, Next(cfg, Next(cfg, t, a), b), c)
  {
    hide Run, Next;
    RunTwo(cfg, t, a, b);
    RunOne(cfg, Next(cfg, Next(cfg, t, a), b), c);
    RunAppend(cfg, t, [a, b], [c]);
    assert [a, b] + [c] == [a, b, c];
  }

  /** Everything but node x, the mail and the history of votes is as in t. */
  ghost predicate Around(cfg: Config, t: State, u: State, x: NodeId) {
    && Typed(cfg, u) && u.acked == t.acked && x in t.nodes
    && t.nodes.Keys == u.nodes.Keys
    && forall y | y in t.nodes && y != x :: u.nodes[y] == t.nodes[y]
  }

  /** x polls in a round whose requests carry `view`; it has asked `sent` and counted `tally`. */
  ghost predicate Polling(t: State, x: NodeId, view: nat, pos: nat, acked: nat, sent: set<NodeId>, tally: set<NodeId>) {
    && x in t.nodes && x in t.books
    && t.nodes[x].id == x && t.nodes[x].role == Candidate && t.nodes[x].polling && !t.nodes[x].switchMaster
    && t.nodes[x].view == t.nodes[x].round == view && t.nodes[x].votes == 1 + |tally| && t.nodes[x].pos == pos
    && t.books[x].sent == sent && t.books[x].tally == tally && t.books[x].openAcked == acked
  }

  ghost predicate Waiting(t: State, x: NodeId) {
    x in t.nodes && t.nodes[x].id == x && t.nodes[x].role == Follower && !t.nodes[x].changeError
  }

  /** x leads, having won the round of its current view. */
  ghost predicate Leading(t: State, x: NodeId, view: nat, pos: nat, acked: nat, tally: set<NodeId>) {
    && x in t.nodes && x in t.books
    && t.nodes[x].id == x && t.nodes[x].role == Leader
    && t.nodes[x].view == t.nodes[x].round == view && t.nodes[x].pos == pos
    && t.books[x].tally == tally && t.books[x].openAcked == acked
  }

  // ---------------------------------------------------------------- opening a round

  lemma Candidacy(cfg: Config, t: State, x: NodeId) returns (u: State)
    requires Typed(cfg, t) && x in cfg.members && cfg.members != {x} && Waiting(t, x)
    ensures u == Next(cfg, t, ElectionTimeout(x, true)) && Around(cfg, t, u, x)
    ensures u.grants == t.grants
    ensures u.nodes[x] == SetState(t.nodes[x].(io := false), Candidate)
  {
    assert cfg.members - {x} != {};
    u := Next(cfg, t, ElectionTimeout(x, true));
  }

  lemma Opening(cfg: Config, t: State, x: NodeId) returns (u: State)
    requires Typed(cfg, t) && x in cfg.members && t.nodes[x].role == Candidate && t.nodes[x].id == x
    ensures u == Next(cfg, t, StartRound(x)) && Around(cfg, t, u, x) && u.grants == t.grants
    ensures u.nodes[x] == OpenRound(t.nodes[x])
    ensures u.books[x].sent == {} && u.books[x].tally == {} && u.books[x].openAcked == t.acked
  {
    u := Next(cfg, t, StartRound(x));
  }

  /** A follower times out and opens k rounds, the first k - 1 of which nobody is asked in. */
  lemma {:induction false} OpenRounds(cfg: Config, t: State, x: NodeId, k: nat) returns (acts: seq<Action>, u: State)
    requires Typed(cfg, t) && x in cfg.members && cfg.members != {x} && 1 <= k && Waiting(t, x)
    ensures u == Run(cfg, t, acts) && Around(cfg, t, u, x) && u.grants == t.grants
    ensures Polling(u, x, t.nodes[x].view + k, t.nodes[x].pos, t.acked, {}, {})
  {
    hide Run, Next;
    var m;
    if k == 1 {
      m := Candidacy(cfg, t, x);
      acts := [ElectionTimeout(x, true)];
      RunOne(cfg, t, ElectionTimeout(x, true));
    } else {
      acts, m := OpenRounds(cfg, t, x, k - 1);
    }
    u := Opening(cfg, m, x);
    RunOne(cfg, m, StartRound(x));
    RunAppend(cfg, t, acts, [StartRound(x)]);
    acts := acts + [StartRound(x)];
  }

  // ---------------------------------------------------------------- one vote

  lemma AskPeer(cfg: Config, t: State, b: Ballot, pos: nat, acked: nat, tally: set<NodeId>) returns (u: State)
    requires Typed(cfg, t) && b.cand in cfg.members && b.voter in cfg.members && b.cand != b.voter
    requires Polling(t, b.cand, b.view, pos, acked, tally, tally) && b.voter !in tally
    ensures u == Next(cfg, t, SendVote(b.cand, b.voter, false)) && Typed(cfg, u)
    ensures u.nodes == t.nodes && u.grants == t.grants && u.acked == t.acked
    ensures Polling(u, b.cand, b.view, pos, acked, tally + {b.voter}, tally)
    ensures u.requests == t.requests[b := VoteRequest(b.cand, b.view, pos)]
  {
    hide Poll, Settle, Take, Moved, HandleVote, HandleBeat, CheckVotes;
    u := Next(cfg, t, SendVote(b.cand, b.voter, false));
  }

  /** The answers of MySQL with which a voter at this position grants a candidate's request. */
  predicate Willing(n: Node, pos: nat, a: VoteAnswers) {
    !a.gtidError && !a.smallerLag && (n.pos > pos ==> !a.promotable)
  }

  function AfterGrant(n: Node, b: Ballot, a: VoteAnswers): Node {
    n.(io := n.io && !a.stopped, view := b.view, leader := NO_ONE, votedFor := b.cand)
  }

  lemma FollowerGrants(cfg: Config, n: Node, req: VoteRequest, b: Ballot, a: VoteAnswers)
    requires n.role == Follower && cfg.Known(n.id, b.cand) && n.view < b.view && Willing(n, req.pos, a)
    requires req.from == b.cand && req.view == b.view
    ensures FollowerVote(cfg, n, req, a) == VoteOutcome(AfterGrant(n, b, a), VoteResponse(OK, n.view, Follower))
  {
  }

  lemma Settled(cfg: Config, t: State, b: Ballot, a: VoteAnswers)
    requires Typed(cfg, t) && b in t.requests && b.voter in t.nodes
    ensures Next(cfg, t, DeliverVote(b, a))
         == Settle(cfg, t, b, a.promotable, HandleVote(cfg, t.nodes[b.voter], t.requests[b], a))
  {
    hide Poll, Ask, Settle, Take, Put, Moved, HandleVote, HandleBeat, CheckVotes;
  }

  /** The voter is a follower that grants the request. */
  lemma PeerGrants(cfg: Config, t: State, b: Ballot, a: VoteAnswers) returns (u: State)
    requires Typed(cfg, t) && b.cand in cfg.members && b.voter in cfg.members && b.cand != b.voter
    requires b in t.requests && t.requests[b].from == b.cand && t.requests[b].view == b.view
    requires Waiting(t, b.voter) && t.nodes[b.voter].view < b.view
    requires Willing(t.nodes[b.voter], t.requests[b].pos, a)
    ensures u == Next(cfg, t, DeliverVote(b, a)) && Around(cfg, t, u, b.voter)
    ensures forall z | z in t.books && z != b.voter :: z in u.books && u.books[z] == t.books[z]
    ensures b in u.responses && Counts(u.responses[b])
    ensures u.nodes[b.voter] == AfterGrant(t.nodes[b.voter], b, a)
    ensures b in u.grants && u.grants == t.grants[b := u.grants[b]] && u.grants[b].promotable == a.promotable
  {
    hide FollowerVote, Next;
    FollowerGrants(cfg, t.nodes[b.voter], t.requests[b], b, a);
    Settled(cfg, t, b, a);
    u := Next(cfg, t, DeliverVote(b, a));
  }

  lemma Taken(cfg: Config, t: State, b: Ballot)
    requires Typed(cfg, t) && b in t.responses && b.cand in cfg.members
    requires t.nodes[b.cand].polling && t.nodes[b.cand].round == b.view
    ensures Next(cfg, t, TakeResponse(b)) == Absorb(cfg, t, b, ReceiveVote(cfg, t.nodes[b.cand], t.responses[b]))
  {
    hide Absorb, ReceiveVote, Poll, Ask, Settle, Put, Moved, HandleVote, HandleBeat, CheckVotes;
  }

  /** One more vote, but not yet everybody's. */
  lemma TakeGrant(cfg: Config, t: State, b: Ballot, pos: nat, acked: nat, tally: set<NodeId>) returns (u: State)
    requires Typed(cfg, t) && b.cand in cfg.members && |tally| + 2 < |cfg.members|
    requires b in t.responses && Counts(t.responses[b]) && b.voter !in tally
    requires Polling(t, b.cand, b.view, pos, acked, tally + {b.voter}, tally)
    ensures u == Next(cfg, t, TakeResponse(b)) && Around(cfg, t, u, b.cand) && u.grants == t.grants
    ensures Polling(u, b.cand, b.view, pos, acked, tally + {b.voter}, tally + {b.voter})
  {
    hide Next;
    Taken(cfg, t, b);
    u := Next(cfg, t, TakeResponse(b));
  }

  /** The candidate asks follower y, which grants, and counts its vote. */
  lemma OneVote(cfg: Config, t: State, b: Ballot, pos: nat, acked: nat, tally: set<NodeId>, a: VoteAnswers)
    returns (acts: seq<Action>, u: State)
    requires Typed(cfg, t) && b.cand in cfg.members && b.voter in cfg.members && b.cand != b.voter
    requires Polling(t, b.cand, b.view, pos, acked, tally, tally) && b.voter !in tally && |tally| + 2 < |cfg.members|
    requires Waiting(t, b.voter) && t.nodes[b.voter].view < b.view && Willing(t.nodes[b.voter], pos, a)
    ensures u == Run(cfg, t, acts) && Typed(cfg, u) && u.acked == t.acked
    ensures Polling(u, b.cand, b.view, pos, acked, tally + {b.voter}, tally + {b.voter})
    ensures forall z | z in t.nodes && z != b.cand && z != b.voter :: z in u.nodes && u.nodes[z] == t.nodes[z]
    ensures b.voter in u.nodes && u.nodes[b.voter] == AfterGrant(t.nodes[b.voter], b, a)
    ensures b in u.grants && u.grants == t.grants[b := u.grants[b]] && u.grants[b].promotable == a.promotable
  {
    hide Next, Run;
    var t1 := AskPeer(cfg, t, b, pos, acked, tally);
    var t2 := PeerGrants(cfg, t1, b, a);
    u := TakeGrant(cfg, t2, b, pos, acked, tally);
    acts := [SendVote(b.cand, b.voter, false), DeliverVote(b, a), TakeResponse(b)];
    RunThree(cfg, t, acts[0], acts[1], acts[2]);
  }

  // ---------------------------------------------------------------- enough votes

  ghost predicate MayVote(t: State, y: NodeId, view: nat, pos: nat, a: map<NodeId, VoteAnswers>) {
    Waiting(t, y) && t.nodes[y].view < view && y in a && Willing(t.nodes[y], pos, a[y])
  }

  /** y has voted in the view since t, and is otherwise as it was. */
  ghost predicate Voted(t: State, u: State, y: NodeId, view: nat, a: map<NodeId, VoteAnswers>) {
    && Waiting(u, y) && y in t.nodes && y in a
    && u.nodes[y].view == view && u.nodes[y].pos == t.nodes[y].pos && u.nodes[y].io == (t.nodes[y].io && !a[y].stopped)
  }

  /** From t to u only votes of these voters were granted, with these answers. */
  ghost predicate OnlyVotes(t: State, u: State, voters: set<NodeId>, a: map<NodeId, VoteAnswers>) {
    forall b | b in u.grants ::
      || (b in t.grants && u.grants[b] == t.grants[b])
      || (b.voter in voters && b.voter in a && u.grants[b].promotable == a[b.voter].promotable)
  }

  /** From t to u the voters have voted for x in the view, and nothing else happened to the nodes. */
  ghost predicate Gathered(t: State, u: State, x: NodeId, voters: set<NodeId>, view: nat, a: map<NodeId, VoteAnswers>) {
    && (forall z | z in t.nodes && z != x && z !in voters :: z in u.nodes && u.nodes[z] == t.nodes[z])
    && (forall y | y in voters :: Voted(t, u, y, view, a))
    && OnlyVotes(t, u, voters, a)
  }

  ghost predicate AllMayVote(t: State, voters: set<NodeId>, view: nat, pos: nat, a: map<NodeId, VoteAnswers>) {
    forall y | y in voters :: MayVote(t, y, view, pos, a)
  }

  lemma GatheredNone(t: State, x: NodeId, view: nat, a: map<NodeId, VoteAnswers>)
    ensures Gathered(t, t, x, {}, view, a)
  {
  }

  lemma OthersMayVote(t: State, m: State, b: Ballot, voters: set<NodeId>, pos: nat, a: map<NodeId, VoteAnswers>)
    requires AllMayVote(t, voters, b.view, pos, a) && b.cand !in voters
    requires forall z | z in t.nodes && z != b.cand && z != b.voter :: z in m.nodes && m.nodes[z] == t.nodes[z]
    ensures AllMayVote(m, voters - {b.voter}, b.view, pos, a)
  {
    forall z | z in voters - {b.voter} ensures MayVote(m, z, b.view, pos, a) {
      assert MayVote(t, z, b.view, pos, a);
    }
  }

  lemma GatheredMore(t: State, m: State, u: State, b: Ballot, voters: set<NodeId>, a: map<NodeId, VoteAnswers>)
    requires b.voter in voters && b.cand !in voters && b.voter in a && Waiting(t, b.voter)
    requires forall z | z in t.nodes && z != b.cand && z != b.voter :: z in m.nodes && m.nodes[z] == t.nodes[z]
    requires b.voter in m.nodes && m.nodes[b.voter] == AfterGrant(t.nodes[b.voter], b, a[b.voter])
    requires b in m.grants && m.grants == t.grants[b := m.grants[b]] && m.grants[b].promotable == a[b.voter].promotable
    requires Gathered(m, u, b.cand, voters - {b.voter}, b.view, a)
    requires voters <= t.nodes.Keys
    ensures Gathered(t, u, b.cand, voters, b.view, a)
  {
    forall y | y in voters ensures Voted(t, u, y, b.view, a) {
      if y != b.voter {
        assert Voted(m, u, y, b.view, a);
      }
    }
    forall g | g in u.grants && !(g in t.grants && u.grants[g] == t.grants[g])
      ensures g.voter in voters && g.voter in a && u.grants[g].promotable == a[g.voter].promotable
    {
      assert g in m.grants && u.grants[g] == m.grants[g] ==> g == b;
    }
  }

  lemma {:induction false} GatherVotes(cfg: Config, t: State, x: NodeId, voters: set<NodeId>, view: nat, pos: nat,
                                       acked: nat, tally: set<NodeId>, a: map<NodeId, VoteAnswers>)
    returns (acts: seq<Action>, u: State)
    requires Typed(cfg, t) && x in cfg.members && voters <= cfg.members - {x} && voters !! tally
    requires |tally| + |voters| + 1 < |cfg.members|
    requires Polling(t, x, view, pos, acked, tally, tally) && AllMayVote(t, voters, view, pos, a)
    ensures u == Run(cfg, t, acts) && Typed(cfg, u) && u.acked == t.acked
    ensures Polling(u, x, view, pos, acked, tally + voters, tally + voters)
    ensures Gathered(t, u, x, voters, view, a)
    decreases |voters|
  {
    hide Next, Run, Polling, Willing, AllMayVote, Gathered, Typed, Waiting, AfterGrant;
    MembersTyped(cfg, t);
    if voters == {} {
      acts, u := [], t;
      RunNothing(cfg, t);
      GatheredNone(t, x, view, a);
      assert tally + voters == tally;
    } else {
      var y :| y in voters;
      var b := Ballot(x, view, y);
      NextMayVote(t, voters, y, view, pos, a);
      var p, m := OneVote(cfg, t, b, pos, acked, tally, a[y]);
      OthersMayVote(t, m, b, voters, pos, a);
      var q;
      q, u := GatherVotes(cfg, m, x, voters - {y}, view, pos, acked, tally + {y}, a);
      assert tally + {y} + (voters - {y}) == tally + voters;
      GatheredMore(t, m, u, b, voters, a);
      RunAppend(cfg, t, p, q);
      acts := p + q;
    }
  }

  lemma MembersTyped(cfg: Config, t: State)
    requires Typed(cfg, t)
    ensures cfg.members <= t.nodes.Keys
  {
  }

  lemma NextMayVote(t: State, voters: set<NodeId>, y: NodeId, view: nat, pos: nat, a: map<NodeId, VoteAnswers>)
    requires AllMayVote(t, voters, view, pos, a) && y in voters
    ensures MayVote(t, y, view, pos, a)
  {
  }

  lemma RunNothing(cfg: Config, t: State)
    requires Typed(cfg, t)
    ensures Run(cfg, t, []) == t
  {
  }

  lemma WinAtTimeout(cfg: Config, t: State, x: NodeId) returns (u: State)
    requires Typed(cfg, t) && x in cfg.members
    requires t.nodes[x].role == Candidate && t.nodes[x].polling && t.nodes[x].votes >= cfg.Quorum()
    ensures u == Next(cfg, t, VotesTimeout(x)) && Around(cfg, t, u, x) && u.grants == t.grants
    ensures u.nodes[x] == UpgradeToLeader(t.nodes[x])
    ensures u.books[x].tally == t.books[x].tally && u.books[x].openAcked == t.books[x].openAcked
  {
    u := Next(cfg, t, VotesTimeout(x));
  }

  /** Among three members or more, follower x wins its k-th round with the votes of any half of the
      members that are willing followers; the others need not even be asked. */
  lemma Elect(cfg: Config, t: State, x: NodeId, voters: set<NodeId>, k: nat, a: map<NodeId, VoteAnswers>)
    returns (acts: seq<Action>, u: State)
    requires Typed(cfg, t) && |cfg.members| >= 3 && x in cfg.members && 1 <= k && Waiting(t, x)
    requires voters <= cfg.members - {x} && |voters| == |cfg.members| / 2
    requires AllMayVote(t, voters, t.nodes[x].view + k, t.nodes[x].pos, a)
    ensures u == Run(cfg, t, acts) && Typed(cfg, u) && u.acked == t.acked
    ensures Leading(u, x, t.nodes[x].view + k, t.nodes[x].pos, t.acked, voters)
    ensures Gathered(t, u, x, voters, t.nodes[x].view + k, a)
  {
    hide Next, Run, Willing, AllMayVote, Gathered;
    var view, pos := t.nodes[x].view + k, t.nodes[x].pos;
    assert cfg.members != {x};
    var p, t1 := OpenRounds(cfg, t, x, k);
    MayStillVote(cfg, t, t1, x, voters, view, pos, a);
    var q, t2 := GatherVotes(cfg, t1, x, voters, view, pos, t.acked, {}, a);
    assert {} + voters == voters;
    u := WinAtTimeout(cfg, t2, x);
    RunOne(cfg, t2, VotesTimeout(x));
    RunAppend(cfg, t, p, q);
    RunAppend(cfg, t, p + q, [VotesTimeout(x)]);
    acts := p + q + [VotesTimeout(x)];
    GatheredAround(cfg, t, t1, t2, u, x, voters, view, a);
  }

  lemma MayStillVote(cfg: Config, t: State, u: State, x: NodeId, voters: set<NodeId>, view: nat, pos: nat,
                     a: map<NodeId, VoteAnswers>)
    requires Around(cfg, t, u, x) && x !in voters && AllMayVote(t, voters, view, pos, a)
    ensures AllMayVote(u, voters, view, pos, a)
  {
    hide Willing;
    forall y | y in voters ensures MayVote(u, y, view, pos, a) {
      assert MayVote(t, y, view, pos, a);
    }
  }

  /** What the candidate does before and after the votes leaves the other nodes and the votes alone. */
  lemma GatheredAround(cfg: Config, t: State, t1: State, t2: State, u: State, x: NodeId, voters: set<NodeId>, view: nat,
                       a: map<NodeId, VoteAnswers>)
    requires Around(cfg, t, t1, x) && t1.grants == t.grants && Gathered(t1, t2, x, voters, view, a)
    requires Around(cfg, t2, u, x) && u.grants == t2.grants && x !in voters
    ensures Gathered(t, u, x, voters, view, a)
  {
    forall y | y in voters ensures Voted(t, u, y, view, a) {
      assert Voted(t1, t2, y, view, a);
    }
  }

  // ---------------------------------------------------------------- two members

  /** The pair of steps by which a candidate of two, whose own MySQL does not answer, asks the
      other member and reads the answer it gave itself. */
  lemma AskOneself(cfg: Config, t: State, x: NodeId, y: NodeId) returns (acts: seq<Action>, u: State)
    requires Typed(cfg, t) && cfg.members == {x, y} && x != y
    requires t.nodes[x].role == Candidate && t.nodes[x].polling && t.nodes[x].votes == 1 && y !in t.books[x].sent
    ensures u == Run(cfg, t, acts) && Around(cfg, t, u, x)
    ensures u.nodes[x] == if t.nodes[x].switchMaster then UpgradeToLeader(t.nodes[x].(votes := 2))
                          else t.nodes[x].(switchMaster := true)
  {
    hide Run, Next;
    var t1 := AskFails(cfg, t, x, y);
    u := TakeFailure(cfg, t1, Ballot(x, t.nodes[x].round, y));
    acts := [SendVote(x, y, true), TakeResponse(Ballot(x, t.nodes[x].round, y))];
    RunTwo(cfg, t, acts[0], acts[1]);
  }

  lemma AskFails(cfg: Config, t: State, x: NodeId, y: NodeId) returns (u: State)
    requires Typed(cfg, t) && x in cfg.members && y in cfg.members && x != y
    requires t.nodes[x].role == Candidate && t.nodes[x].polling && y !in t.books[x].sent
    ensures u == Next(cfg, t, SendVote(x, y, true)) && Typed(cfg, u) && u.nodes == t.nodes && u.acked == t.acked
    ensures u.responses == t.responses[Ballot(x, t.nodes[x].round, y) := VoteResponse(ErrorMySQLDown, 0, Follower)]
  {
    u := Next(cfg, t, SendVote(x, y, true));
  }

  lemma TakeFailure(cfg: Config, t: State, b: Ballot) returns (u: State)
    requires Typed(cfg, t) && b.cand in cfg.members && |cfg.members| == 2
    requires b in t.responses && t.responses[b].code == ErrorMySQLDown
    requires t.nodes[b.cand].polling && t.nodes[b.cand].round == b.view && t.nodes[b.cand].votes == 1
    ensures u == Next(cfg, t, TakeResponse(b)) && Around(cfg, t, u, b.cand)
    ensures u.nodes[b.cand] == if t.nodes[b.cand].switchMaster then UpgradeToLeader(t.nodes[b.cand].(votes := 2))
                               else t.nodes[b.cand].(switchMaster := true)
  {
    hide Next;
    Taken(cfg, t, b);
    u := Next(cfg, t, TakeResponse(b));
  }

  /** A follower of two whose own MySQL is down elects itself in its second round. */
  lemma ElectOneself(cfg: Config, t: State, x: NodeId, y: NodeId) returns (acts: seq<Action>, u: State)
    requires Typed(cfg, t) && cfg.members == {x, y} && x != y && Waiting(t, x)
    ensures u == Run(cfg, t, acts) && Around(cfg, t, u, x)
    ensures u.nodes[x].role == Leader && u.nodes[x].round == u.nodes[x].view == t.nodes[x].view + 2
  {
    hide Next, Run;
    var p, t1 := OpenRounds(cfg, t, x, 1);
    var q, t2 := AskOneself(cfg, t1, x, y);
    var t3 := Opening(cfg, t2, x);
    var r, t4 := AskOneself(cfg, t3, x, y);
    u := t4;
    RunAppend(cfg, t, p, q);
    RunOne(cfg, t2, StartRound(x));
    RunAppend(cfg, t, p + q, [StartRound(x)]);
    RunAppend(cfg, t, p + q + [StartRound(x)], r);
    acts := p + q + [StartRound(x)] + r;
  }
}
