/** Safety of the election over whole runs: a node never votes for two candidates in one view,
    and no two nodes lead at the same time having won rounds of the same view, although a node's
    view may go back, a leader bumps its own view, and a candidate does not record its vote for
    itself. */
module ElectionSafety {
  import opened RaftNode
  import opened Cluster

  /** The node is in a round it has opened, or leads by having won it. */
  predicate Running(n: Node) {
    n.role == Leader || n.polling
  }

  ghost predicate NodeOK(cfg: Config, x: NodeId, n: Node, k: Book) {
    && n.id == x
    && n.round <= n.view
    && k.tally <= cfg.members - {x} && k.tally <= k.sent
    && (x in cfg.idles ==> n.role == Idle)
    && (n.polling ==> n.role == Candidate && 0 < n.round && n.votes == 1 + |k.tally| < |cfg.members|)
    && (n.role == Leader ==> if n.round == 0 then x == cfg.boot else 1 + |k.tally| >= cfg.Quorum())
  }

  ghost predicate NodesOK(cfg: Config, s: State)
    requires Typed(cfg, s)
  {
    forall x | x in s.nodes :: NodeOK(cfg, x, s.nodes[x], s.books[x])
  }

  /** A voter's view stays at or above every view it voted in, its vote of its current view is on
      record, and a node that is in a round has voted in no view from that round on. */
  ghost predicate GrantOK(cfg: Config, b: Ballot, n: Node) {
    && b.cand in cfg.members && b.cand != b.voter
    && b.view <= n.view
    && (b.view == n.view ==> n.votedFor == b.cand)
    && (Running(n) ==> b.view < n.round)
  }

  ghost predicate GrantsOK(cfg: Config, s: State)
    requires Typed(cfg, s)
  {
    forall b | b in s.grants :: b.voter in cfg.members && GrantOK(cfg, b, s.nodes[b.voter])
  }

  ghost predicate OneVotePerView(s: State) {
    forall b, c | b in s.grants && c in s.grants && b.voter == c.voter && b.view == c.view :: b.cand == c.cand
  }

  ghost predicate TalliesOK(cfg: Config, s: State)
    requires Typed(cfg, s)
  {
    forall x, y | x in s.nodes && y in s.books[x].tally :: Ballot(x, s.nodes[x].round, y) in s.grants
  }

  /** A ballot of a node's latest round travels at most once and is counted at most once. */
  ghost predicate MailOK(b: Ballot, round: nat, k: Book) {
    b.view <= round && (b.view == round ==> b.voter in k.sent && b.voter !in k.tally)
  }

  ghost predicate AddressOK(cfg: Config, b: Ballot) {
    b.cand in cfg.members && b.voter in cfg.members + cfg.idles && b.voter != b.cand
  }

  ghost predicate RequestsOK(cfg: Config, s: State)
    requires Typed(cfg, s)
  {
    forall b | b in s.requests ::
      && AddressOK(cfg, b) && MailOK(b, s.nodes[b.cand].round, s.books[b.cand])
      && b !in s.responses && s.requests[b].from == b.cand && s.requests[b].view == b.view
  }

  ghost predicate ResponseOK(s: State, b: Ballot, rsp: VoteResponse) {
    && (rsp.code == ErrorInvalidViewID ==> rsp.view >= b.view)
    && (Counts(rsp) ==> b in s.grants)
  }

  ghost predicate ResponsesOK(cfg: Config, s: State)
    requires Typed(cfg, s)
  {
    forall b | b in s.responses ::
      && AddressOK(cfg, b) && MailOK(b, s.nodes[b.cand].round, s.books[b.cand])
      && ResponseOK(s, b, s.responses[b])
  }

  ghost predicate Inv(cfg: Config, s: State) {
    && Typed(cfg, s)
    && |cfg.members| >= 3
    && NodesOK(cfg, s)
    && GrantsOK(cfg, s)
    && OneVotePerView(s)
    && TalliesOK(cfg, s)
    && RequestsOK(cfg, s)
    && ResponsesOK(cfg, s)
  }

  // ---------------------------------------------------------------- one node moves

  /** From s to t at most node x and its book change. */
  ghost predicate OnlyMoves(s: State, t: State, x: NodeId) {
    && x in s.nodes && s.nodes.Keys == t.nodes.Keys == s.books.Keys == t.books.Keys
    && (forall y | y in s.nodes && y != x :: t.nodes[y] == s.nodes[y] && t.books[y] == s.books[y])
  }

  lemma NodesFrame(cfg: Config, s: State, t: State, x: NodeId)
    requires Typed(cfg, s) && Typed(cfg, t) && OnlyMoves(s, t, x)
    requires NodesOK(cfg, s) && NodeOK(cfg, x, t.nodes[x], t.books[x])
    ensures NodesOK(cfg, t)
  {
  }

  lemma GrantsFrame(cfg: Config, s: State, t: State, x: NodeId)
    requires Typed(cfg, s) && Typed(cfg, t) && OnlyMoves(s, t, x) && t.grants == s.grants
    requires GrantsOK(cfg, s)
    requires forall b | b in s.grants && b.voter == x :: GrantOK(cfg, b, t.nodes[x])
    ensures GrantsOK(cfg, t)
  {
  }

  lemma MailFrame(cfg: Config, s: State, t: State, x: NodeId)
    requires Typed(cfg, s) && Typed(cfg, t) && OnlyMoves(s, t, x)
    requires t.nodes[x].round == s.nodes[x].round
    requires t.books[x].tally == s.books[x].tally && t.books[x].sent == s.books[x].sent
    requires t.grants == s.grants && t.requests == s.requests && t.responses == s.responses
    requires TalliesOK(cfg, s) && RequestsOK(cfg, s) && ResponsesOK(cfg, s)
    ensures TalliesOK(cfg, t) && RequestsOK(cfg, t) && ResponsesOK(cfg, t)
  {
  }

  /** Node x may move to n without any vote being granted or counted. */
  ghost predicate Quiet(cfg: Config, s: State, x: NodeId, n: Node)
    requires Typed(cfg, s) && x in s.nodes
  {
    && n.round == s.nodes[x].round
    && NodeOK(cfg, x, n, s.books[x])
    && (forall b | b in s.grants && b.voter == x :: GrantOK(cfg, b, n))
  }

  lemma PutKeepsNode(cfg: Config, s: State, x: NodeId, n: Node)
    requires Typed(cfg, s) && x in s.nodes && NodeOK(cfg, x, n, s.books[x])
    ensures NodeOK(cfg, x, n, Put(cfg, s, x, n).books[x])
  {
  }

  lemma QuietStep(cfg: Config, s: State, x: NodeId, n: Node)
    requires Inv(cfg, s) && x in s.nodes && Quiet(cfg, s, x, n)
    ensures Inv(cfg, Put(cfg, s, x, n))
  {
    hide NodesOK, GrantsOK, TalliesOK, RequestsOK, ResponsesOK, NodeOK, GrantOK;
    var t := Put(cfg, s, x, n);
    assert OnlyMoves(s, t, x);
    PutKeepsNode(cfg, s, x, n);
    NodesFrame(cfg, s, t, x);
    GrantsFrame(cfg, s, t, x);
    MailFrame(cfg, s, t, x);
  }

  /** Handlers that neither grant nor count move a node quietly: its view goes up, or stays
      with its vote. */
  ghost predicate Upward(cfg: Config, x: NodeId, m: Node, n: Node) {
    && n.id == m.id && n.round == m.round && n.votes == m.votes
    && (n.view > m.view || (n.view == m.view && n.votedFor == m.votedFor))
    && (n.polling ==> m.polling && n.role == Candidate)
    && (n.role == Leader ==> m.role == Leader)
    && (x in cfg.idles ==> n.role == Idle)
  }

  lemma UpwardIsQuiet(cfg: Config, s: State, x: NodeId, n: Node)
    requires Inv(cfg, s) && x in s.nodes && Upward(cfg, x, s.nodes[x], n)
    ensures Quiet(cfg, s, x, n)
  {
    assert NodeOK(cfg, x, s.nodes[x], s.books[x]);
    forall b | b in s.grants && b.voter == x ensures GrantOK(cfg, b, n) {
      assert GrantOK(cfg, b, s.nodes[x]);
    }
  }

  lemma UpwardGoesOn(cfg: Config, n: Node, m: Node, hb: Heartbeat, a: BeatAnswers)
    requires n.role == Follower && n.id !in cfg.idles && Upward(cfg, n.id, n, m)
    ensures Upward(cfg, n.id, n, AdoptView(m, hb)) && Upward(cfg, n.id, n, DegradeToInvalid(m, a))
  {
  }

  lemma FollowerBeatIsUpward(cfg: Config, n: Node, hb: Heartbeat, a: BeatAnswers)
    requires n.role == Follower && !n.polling && n.id !in cfg.idles
    ensures Upward(cfg, n.id, n, FollowerBeat(cfg, n, hb, a).node)
  {
    hide AdoptView, DegradeToInvalid;
    UpwardGoesOn(cfg, n, n.(leader := hb.from), hb, a);
    var s := if a.started then n.(io := true) else n;
    UpwardGoesOn(cfg, n, s, hb, a);
    var d := if |cfg.members| > 2 then DegradeToInvalid(s, a) else s;
    UpwardGoesOn(cfg, n, d.(leader := hb.from, changeError := false, io := true), hb, a);
  }

  lemma IdleBeatIsUpward(cfg: Config, n: Node, hb: Heartbeat, a: BeatAnswers)
    requires n.role == Idle || (n.role == Invalid && n.id !in cfg.idles)
    requires !n.polling
    ensures Upward(cfg, n.id, n, IdleBeat(cfg, n, hb, a).node)
  {
  }

  lemma BeatIsUpward(cfg: Config, n: Node, hb: Heartbeat, a: BeatAnswers)
    requires n.polling ==> n.role == Candidate
    requires n.id in cfg.idles ==> n.role == Idle
    ensures Upward(cfg, n.id, n, HandleBeat(cfg, n, hb, a).node)
  {
    match n.role
    case Follower => FollowerBeatIsUpward(cfg, n, hb, a);
    case Idle => IdleBeatIsUpward(cfg, n, hb, a);
    case Invalid => IdleBeatIsUpward(cfg, n, hb, a);
    case _ =>
  }

  lemma BeatStep(cfg: Config, s: State, x: NodeId, hb: Heartbeat, a: BeatAnswers, n: Node)
    requires Inv(cfg, s) && x in s.nodes && n == HandleBeat(cfg, s.nodes[x], hb, a).node
    ensures Inv(cfg, Put(cfg, s, x, n))
  {
    assert NodeOK(cfg, x, s.nodes[x], s.books[x]);
    BeatIsUpward(cfg, s.nodes[x], hb, a);
    UpwardStep(cfg, s, x, n);
  }

  lemma UpwardStep(cfg: Config, s: State, x: NodeId, n: Node)
    requires Inv(cfg, s) && x in s.nodes && Upward(cfg, x, s.nodes[x], n)
    ensures Inv(cfg, Put(cfg, s, x, n))
  {
    UpwardIsQuiet(cfg, s, x, n);
    QuietStep(cfg, s, x, n);
  }

  // ---------------------------------------------------------------- votes

  /** What any of the vote handlers does to a node: it grants by moving to the request's view
      and leaving any round, or it keeps or raises its view without granting. */
  ghost predicate VoteEffect(n: Node, req: VoteRequest, out: VoteOutcome) {
    && out.node.id == n.id && out.node.round == n.round && out.node.votes == n.votes
    && (out.rsp.code == ErrorInvalidViewID ==> out.rsp.view >= req.view)
    && if Counts(out.rsp) then
         && n.role != Idle
         && req.view >= n.view && out.node.view == req.view && out.node.votedFor == req.from
         && out.node.role == Follower && !out.node.polling && (n.role == Leader ==> req.view > n.view)
         && (req.view == n.view ==> n.votedFor == NO_ONE || n.votedFor == req.from)
       else
         && (out.node.view > n.view || (out.node.view == n.view && out.node.votedFor == n.votedFor))
         && (out.node.polling ==> n.polling)
         && out.node.role == n.role
  }

  lemma FollowerVoteEffect(cfg: Config, n: Node, req: VoteRequest, a: VoteAnswers)
    requires n.role == Follower && !n.polling
    ensures VoteEffect(n, req, FollowerVote(cfg, n, req, a))
  {
  }

  lemma CandidateVoteEffect(cfg: Config, n: Node, req: VoteRequest, a: VoteAnswers)
    requires n.role == Candidate
    ensures VoteEffect(n, req, CandidateVote(cfg, n, req, a))
  {
  }

  lemma LeaderVoteEffect(cfg: Config, n: Node, req: VoteRequest, a: VoteAnswers)
    requires n.role == Leader
    ensures VoteEffect(n, req, LeaderVote(cfg, n, req, a))
  {
  }

  lemma HandlerVoteEffect(cfg: Config, n: Node, req: VoteRequest, a: VoteAnswers)
    requires n.polling ==> n.role == Candidate
    ensures VoteEffect(n, req, HandleVote(cfg, n, req, a))
  {
    match n.role
    case Follower => FollowerVoteEffect(cfg, n, req, a);
    case Candidate => CandidateVoteEffect(cfg, n, req, a);
    case Leader => LeaderVoteEffect(cfg, n, req, a);
    case _ =>
  }

  lemma GrantedNode(cfg: Config, s: State, b: Ballot, out: VoteOutcome)
    requires Inv(cfg, s) && b in s.requests
    requires VoteEffect(s.nodes[b.voter], s.requests[b], out) && Counts(out.rsp)
    ensures b.voter in cfg.members && NodeOK(cfg, b.voter, out.node, s.books[b.voter])
    ensures GrantOK(cfg, b, out.node)
    ensures forall c | c in s.grants && c.voter == b.voter ::
              GrantOK(cfg, c, out.node) && (c.view == b.view ==> c.cand == b.cand)
  {
    var n := s.nodes[b.voter];
    assert NodeOK(cfg, b.voter, n, s.books[b.voter]);
    forall c | c in s.grants && c.voter == b.voter
      ensures GrantOK(cfg, c, out.node) && (c.view == b.view ==> c.cand == b.cand)
    {
      assert GrantOK(cfg, c, n);
    }
  }

  lemma RefusedNode(cfg: Config, s: State, b: Ballot, out: VoteOutcome)
    requires Inv(cfg, s) && b in s.requests
    requires VoteEffect(s.nodes[b.voter], s.requests[b], out) && !Counts(out.rsp)
    ensures Quiet(cfg, s, b.voter, out.node)
  {
    assert NodeOK(cfg, b.voter, s.nodes[b.voter], s.books[b.voter]);
    UpwardIsQuiet(cfg, s, b.voter, out.node);
  }

  lemma GrantsAfterVote(cfg: Config, s: State, t: State, b: Ballot)
    requires Typed(cfg, s) && Typed(cfg, t) && b.voter in cfg.members && OnlyMoves(s, t, b.voter)
    requires b in t.grants && t.grants == s.grants[b := t.grants[b]]
    requires GrantsOK(cfg, s) && OneVotePerView(s)
    requires GrantOK(cfg, b, t.nodes[b.voter])
    requires forall c | c in s.grants && c.voter == b.voter ::
               GrantOK(cfg, c, t.nodes[b.voter]) && (c.view == b.view ==> c.cand == b.cand)
    ensures GrantsOK(cfg, t) && OneVotePerView(t)
  {
  }

  lemma MailAfterVote(cfg: Config, s: State, t: State, b: Ballot)
    requires Typed(cfg, s) && Typed(cfg, t) && b in s.requests && b.voter in s.nodes && OnlyMoves(s, t, b.voter)
    requires t.nodes[b.voter].round == s.nodes[b.voter].round
    requires t.books[b.voter].tally == s.books[b.voter].tally && t.books[b.voter].sent == s.books[b.voter].sent
    requires b in t.responses && t.requests == s.requests - {b} && t.responses == s.responses[b := t.responses[b]]
    requires t.grants.Keys >= s.grants.Keys && ResponseOK(t, b, t.responses[b])
    requires TalliesOK(cfg, s) && RequestsOK(cfg, s) && ResponsesOK(cfg, s)
    ensures TalliesOK(cfg, t) && RequestsOK(cfg, t) && ResponsesOK(cfg, t)
  {
  }

  ghost predicate VoteShape(cfg: Config, s: State, t: State, b: Ballot, out: VoteOutcome) {
    && Typed(cfg, t) && OnlyMoves(s, t, b.voter) && b.voter in s.nodes
    && t.nodes[b.voter] == out.node
    && t.books[b.voter].tally == s.books[b.voter].tally && t.books[b.voter].sent == s.books[b.voter].sent
    && t.requests == s.requests - {b} && t.responses == s.responses[b := out.rsp]
    && if Counts(out.rsp) then b in t.grants && t.grants == s.grants[b := t.grants[b]] else t.grants == s.grants
  }

  lemma VoteStep(cfg: Config, s: State, t: State, b: Ballot, out: VoteOutcome)
    requires Inv(cfg, s) && b in s.requests && VoteEffect(s.nodes[b.voter], s.requests[b], out)
    requires VoteShape(cfg, s, t, b, out)
    ensures Inv(cfg, t)
  {
    if Counts(out.rsp) {
      GrantedNode(cfg, s, b, out);
      GrantsAfterVote(cfg, s, t, b);
    } else {
      RefusedNode(cfg, s, b, out);
      GrantsFrame(cfg, s, t, b.voter);
    }
    assert s.requests[b].view == b.view;
    NodesFrame(cfg, s, t, b.voter);
    MailAfterVote(cfg, s, t, b);
  }

  ghost predicate AskShape(cfg: Config, s: State, t: State, b: Ballot) {
    && Typed(cfg, t) && OnlyMoves(s, t, b.cand) && t.nodes == s.nodes && t.grants == s.grants
    && t.books[b.cand].tally == s.books[b.cand].tally && t.books[b.cand].sent == s.books[b.cand].sent + {b.voter}
    && (|| (t.requests == s.requests && b in t.responses && t.responses == s.responses[b := t.responses[b]]
            && t.responses[b].code == ErrorMySQLDown)
        || (t.responses == s.responses && b in t.requests && t.requests == s.requests[b := t.requests[b]]
            && t.requests[b].from == b.cand && t.requests[b].view == b.view))
  }

  lemma RequestsAfterAsk(cfg: Config, s: State, t: State, b: Ballot)
    requires Typed(cfg, s) && AddressOK(cfg, b) && AskShape(cfg, s, t, b) && b.view == s.nodes[b.cand].round
    requires b.voter !in s.books[b.cand].sent && s.books[b.cand].tally <= s.books[b.cand].sent
    requires RequestsOK(cfg, s) && ResponsesOK(cfg, s)
    ensures RequestsOK(cfg, t)
  {
    assert MailOK(b, t.nodes[b.cand].round, t.books[b.cand]);
  }

  lemma ResponsesAfterAsk(cfg: Config, s: State, t: State, b: Ballot)
    requires Typed(cfg, s) && AddressOK(cfg, b) && AskShape(cfg, s, t, b) && b.view == s.nodes[b.cand].round
    requires b.voter !in s.books[b.cand].sent && s.books[b.cand].tally <= s.books[b.cand].sent
    requires TalliesOK(cfg, s) && ResponsesOK(cfg, s)
    ensures TalliesOK(cfg, t) && ResponsesOK(cfg, t)
  {
    assert MailOK(b, t.nodes[b.cand].round, t.books[b.cand]);
  }

  lemma AskStep(cfg: Config, s: State, t: State, b: Ballot)
    requires Inv(cfg, s) && AddressOK(cfg, b) && AskShape(cfg, s, t, b) && b.view == s.nodes[b.cand].round
    requires b.voter !in s.books[b.cand].sent
    ensures Inv(cfg, t)
  {
    assert NodeOK(cfg, b.cand, s.nodes[b.cand], s.books[b.cand]);
    NodesFrame(cfg, s, t, b.cand);
    GrantsFrame(cfg, s, t, b.cand);
    RequestsAfterAsk(cfg, s, t, b);
    ResponsesAfterAsk(cfg, s, t, b);
  }

  // ---------------------------------------------------------------- the candidate loop

  lemma MailAfterPoll(cfg: Config, s: State, t: State, x: NodeId)
    requires Typed(cfg, s) && Typed(cfg, t) && OnlyMoves(s, t, x)
    requires t.nodes[x].round > s.nodes[x].round && t.books[x].tally == {}
    requires t.grants == s.grants && t.requests == s.requests && t.responses == s.responses
    requires TalliesOK(cfg, s) && RequestsOK(cfg, s) && ResponsesOK(cfg, s)
    ensures TalliesOK(cfg, t) && RequestsOK(cfg, t) && ResponsesOK(cfg, t)
  {
  }

  lemma GrantsAtPoll(cfg: Config, s: State, x: NodeId, n: Node)
    requires Inv(cfg, s) && x in s.nodes && n.view == n.round == s.nodes[x].view + 1
    ensures forall b | b in s.grants && b.voter == x :: GrantOK(cfg, b, n)
  {
    forall b | b in s.grants && b.voter == x ensures GrantOK(cfg, b, n) {
      assert GrantOK(cfg, b, s.nodes[x]);
    }
  }

  ghost predicate PollShape(cfg: Config, s: State, t: State, x: NodeId) {
    && Typed(cfg, t) && OnlyMoves(s, t, x) && t.nodes[x] == OpenRound(s.nodes[x])
    && t.books[x].tally == {} && t.books[x].sent == {}
    && t.grants == s.grants && t.requests == s.requests && t.responses == s.responses
  }

  lemma PollStep(cfg: Config, s: State, t: State, x: NodeId)
    requires Inv(cfg, s) && PollShape(cfg, s, t, x) && s.nodes[x].role == Candidate
    ensures Inv(cfg, t)
  {
    assert NodeOK(cfg, x, s.nodes[x], s.books[x]);
    assert NodeOK(cfg, x, t.nodes[x], t.books[x]);
    GrantsAtPoll(cfg, s, x, t.nodes[x]);
    NodesFrame(cfg, s, t, x);
    GrantsFrame(cfg, s, t, x);
    MailAfterPoll(cfg, s, t, x);
  }

  lemma RejectedNode(cfg: Config, c: NodeId, n: Node, k: Book, rsp: VoteResponse)
    requires |cfg.members| >= 3 && NodeOK(cfg, c, n, k) && n.polling && !Counts(rsp)
    requires rsp.code == ErrorInvalidViewID ==> rsp.view >= n.round
    ensures var m := ReceiveVote(cfg, n, rsp);
            m.round == n.round && NodeOK(cfg, c, m, k) && (Running(m) ==> m == n)
  {
  }

  /** A response moves its candidate quietly unless it counts: a rejection sets the view to the
      rejecting node's, which is not below the round's. */
  lemma RejectionIsQuiet(cfg: Config, s: State, b: Ballot)
    requires Inv(cfg, s) && b in s.responses && !Counts(s.responses[b])
    requires s.nodes[b.cand].polling && s.nodes[b.cand].round == b.view
    ensures Quiet(cfg, s, b.cand, ReceiveVote(cfg, s.nodes[b.cand], s.responses[b]))
  {
    hide ReceiveVote, TalliesOK, RequestsOK, OneVotePerView, Counts;
    var c, n := b.cand, s.nodes[b.cand];
    assert NodeOK(cfg, c, n, s.books[c]);
    assert ResponseOK(s, b, s.responses[b]);
    RejectedNode(cfg, c, n, s.books[c], s.responses[b]);
    var m := ReceiveVote(cfg, n, s.responses[b]);
    forall g | g in s.grants && g.voter == c ensures GrantOK(cfg, g, m) {
      assert GrantOK(cfg, g, n);
    }
  }

  lemma MailAfterTake(cfg: Config, s: State, t: State, b: Ballot)
    requires Typed(cfg, s) && Typed(cfg, t) && b in s.responses && OnlyMoves(s, t, b.cand)
    requires t.nodes[b.cand].round == s.nodes[b.cand].round == b.view && t.books[b.cand].sent == s.books[b.cand].sent
    requires || t.books[b.cand].tally == s.books[b.cand].tally
             || (t.books[b.cand].tally == s.books[b.cand].tally + {b.voter} && b in s.grants)
    requires t.grants == s.grants && t.requests == s.requests && t.responses == s.responses - {b}
    requires TalliesOK(cfg, s) && RequestsOK(cfg, s) && ResponsesOK(cfg, s)
    ensures TalliesOK(cfg, t) && RequestsOK(cfg, t) && ResponsesOK(cfg, t)
  {
    forall c | c in t.responses ensures MailOK(c, t.nodes[c.cand].round, t.books[c.cand]) {
      assert c.cand == b.cand && c.view == b.view ==> c.voter != b.voter;
    }
    forall c | c in t.requests ensures MailOK(c, t.nodes[c.cand].round, t.books[c.cand]) {
      assert c.cand == b.cand && c.view == b.view ==> c.voter != b.voter;
    }
  }

  /** The counted vote makes the tally one larger; on a unanimous vote the candidate leads. */
  lemma CountedNode(cfg: Config, c: NodeId, m: Node, k: Book, voter: NodeId, rsp: VoteResponse, l: Book)
    requires NodeOK(cfg, c, m, k) && m.polling && Counts(rsp) && |cfg.members| >= 3
    requires voter in cfg.members - {c} && voter in k.sent && voter !in k.tally
    requires l.tally == k.tally + {voter} && l.sent == k.sent
    ensures NodeOK(cfg, c, ReceiveVote(cfg, m, rsp), l)
  {
    assert |l.tally| == |k.tally| + 1;
  }

  lemma CountedGrants(cfg: Config, s: State, c: NodeId, n: Node)
    requires Inv(cfg, s) && c in s.nodes && s.nodes[c].polling
    requires n.view == s.nodes[c].view && n.votedFor == s.nodes[c].votedFor && n.round == s.nodes[c].round
    ensures forall g | g in s.grants && g.voter == c :: GrantOK(cfg, g, n)
  {
    forall g | g in s.grants && g.voter == c ensures GrantOK(cfg, g, n) {
      assert GrantOK(cfg, g, s.nodes[c]);
    }
  }

  ghost predicate TakeShape(cfg: Config, s: State, t: State, b: Ballot, n: Node) {
    && Typed(cfg, t) && OnlyMoves(s, t, b.cand) && t.nodes[b.cand] == n && b in s.responses
    && t.grants == s.grants && t.requests == s.requests && t.responses == s.responses - {b}
    && t.books[b.cand].sent == s.books[b.cand].sent
    && t.books[b.cand].tally == if Counts(s.responses[b]) then s.books[b.cand].tally + {b.voter}
        else s.books[b.cand].tally
  }

  lemma CountedStep(cfg: Config, s: State, t: State, b: Ballot, n: Node)
    requires Inv(cfg, s) && TakeShape(cfg, s, t, b, n) && Counts(s.responses[b])
    requires s.nodes[b.cand].polling && s.nodes[b.cand].round == b.view
    requires n == ReceiveVote(cfg, s.nodes[b.cand], s.responses[b])
    ensures Inv(cfg, t)
  {
    assert NodeOK(cfg, b.cand, s.nodes[b.cand], s.books[b.cand]);
    assert ResponseOK(s, b, s.responses[b]) && MailOK(b, b.view, s.books[b.cand]);
    CountedNode(cfg, b.cand, s.nodes[b.cand], s.books[b.cand], b.voter, s.responses[b], t.books[b.cand]);
    CountedGrants(cfg, s, b.cand, n);
    NodesFrame(cfg, s, t, b.cand);
    GrantsFrame(cfg, s, t, b.cand);
    MailAfterTake(cfg, s, t, b);
  }

  lemma RejectedStep(cfg: Config, s: State, t: State, b: Ballot, n: Node)
    requires Inv(cfg, s) && TakeShape(cfg, s, t, b, n) && !Counts(s.responses[b])
    requires s.nodes[b.cand].polling && s.nodes[b.cand].round == b.view
    requires n == ReceiveVote(cfg, s.nodes[b.cand], s.responses[b])
    ensures Inv(cfg, t)
  {
    RejectionIsQuiet(cfg, s, b);
    NodesFrame(cfg, s, t, b.cand);
    GrantsFrame(cfg, s, t, b.cand);
    MailAfterTake(cfg, s, t, b);
  }

  lemma DropStep(cfg: Config, s: State, t: State, b: Ballot)
    requires Inv(cfg, s)
    requires t == s.(requests := s.requests - {b}) || t == s.(responses := s.responses - {b})
    ensures Inv(cfg, t)
  {
  }

  lemma WinIsQuiet(cfg: Config, s: State, x: NodeId)
    requires Inv(cfg, s) && x in s.nodes && s.nodes[x].polling
    ensures Quiet(cfg, s, x, CheckVotes(cfg, s.nodes[x]))
  {
    assert NodeOK(cfg, x, s.nodes[x], s.books[x]);
    forall g | g in s.grants && g.voter == x ensures GrantOK(cfg, g, CheckVotes(cfg, s.nodes[x])) {
      assert GrantOK(cfg, g, s.nodes[x]);
    }
  }

  // ---------------------------------------------------------------- every step, every run

  lemma MovedIsUpward(cfg: Config, x: NodeId, n: Node, a: Action)
    requires IsLocal(a) && n.id == x && (n.polling ==> n.role == Candidate)
    requires x in cfg.idles ==> n.role == Idle && (a.StartSlave? || a.Replicate? || a.GoEnabled?)
    ensures Upward(cfg, x, n, Moved(cfg, n, a))
  {
  }

  lemma LocalMover(cfg: Config, s: State, a: Action)
    requires Typed(cfg, s) && Enabled(cfg, s, a) && IsLocal(a)
    ensures a.x in s.nodes && (a.x in cfg.idles ==> a.StartSlave? || a.Replicate? || a.GoEnabled?)
    ensures Step(cfg, s, a) == Put(cfg, s, a.x, Moved(cfg, s.nodes[a.x], a))
  {
  }

  lemma LocalStep(cfg: Config, s: State, a: Action)
    requires Inv(cfg, s) && IsLocal(a) && a.x in s.nodes
    requires a.x in cfg.idles ==> a.StartSlave? || a.Replicate? || a.GoEnabled?
    ensures Inv(cfg, Put(cfg, s, a.x, Moved(cfg, s.nodes[a.x], a)))
  {
    hide Put, Moved, GrantsOK, OneVotePerView, TalliesOK, RequestsOK, ResponsesOK;
    assert NodeOK(cfg, a.x, s.nodes[a.x], s.books[a.x]);
    MovedIsUpward(cfg, a.x, s.nodes[a.x], a);
    UpwardStep(cfg, s, a.x, Moved(cfg, s.nodes[a.x], a));
  }

  lemma VoteShapes(cfg: Config, s: State, b: Ballot, promotable: bool, out: VoteOutcome)
    requires Typed(cfg, s) && b in s.requests && b.voter in s.nodes
    ensures VoteShape(cfg, s, Settle(cfg, s, b, promotable, out), b, out)
  {
  }

  lemma DeliverStep(cfg: Config, s: State, b: Ballot, va: VoteAnswers)
    requires Inv(cfg, s) && b in s.requests
    ensures Inv(cfg, Settle(cfg, s, b, va.promotable, HandleVote(cfg, s.nodes[b.voter], s.requests[b], va)))
  {
    hide HandleVote, Settle;
    assert NodeOK(cfg, b.voter, s.nodes[b.voter], s.books[b.voter]);
    var out := HandleVote(cfg, s.nodes[b.voter], s.requests[b], va);
    HandlerVoteEffect(cfg, s.nodes[b.voter], s.requests[b], va);
    VoteShapes(cfg, s, b, va.promotable, out);
    VoteStep(cfg, s, Settle(cfg, s, b, va.promotable, out), b, out);
  }

  lemma TakeShapes(cfg: Config, s: State, b: Ballot, n: Node)
    requires Typed(cfg, s) && b in s.responses && b.cand in s.nodes
    ensures TakeShape(cfg, s, Absorb(cfg, s, b, n), b, n)
  {
  }

  lemma TakeStep(cfg: Config, s: State, b: Ballot)
    requires Inv(cfg, s) && b in s.responses
    ensures Inv(cfg, Take(cfg, s, b))
  {
    hide Absorb, ReceiveVote;
    var n := s.nodes[b.cand];
    if !n.polling || n.round != b.view {
      DropStep(cfg, s, Take(cfg, s, b), b);
    } else {
      var m := ReceiveVote(cfg, n, s.responses[b]);
      TakeShapes(cfg, s, b, m);
      if Counts(s.responses[b]) {
        CountedStep(cfg, s, Absorb(cfg, s, b, m), b, m);
      } else {
        RejectedStep(cfg, s, Absorb(cfg, s, b, m), b, m);
      }
    }
  }

  lemma WinStep(cfg: Config, s: State, x: NodeId)
    requires Inv(cfg, s) && x in s.nodes && s.nodes[x].polling
    ensures Inv(cfg, Put(cfg, s, x, CheckVotes(cfg, s.nodes[x])))
  {
    WinIsQuiet(cfg, s, x);
    QuietStep(cfg, s, x, CheckVotes(cfg, s.nodes[x]));
  }

  lemma AskShapes(cfg: Config, s: State, x: NodeId, to: NodeId, localError: bool)
    requires Typed(cfg, s) && x in s.nodes
    ensures AskShape(cfg, s, Ask(cfg, s, x, to, localError), Ballot(x, s.nodes[x].round, to))
  {
  }

  lemma PollShapes(cfg: Config, s: State, x: NodeId)
    requires Typed(cfg, s) && x in s.nodes
    ensures PollShape(cfg, s, Poll(cfg, s, x), x)
  {
  }

  lemma InvMail(cfg: Config, s: State)
    requires Inv(cfg, s)
    ensures Typed(cfg, s) && forall b | b in s.requests || b in s.responses :: AddressOK(cfg, b)
  {
    hide NodesOK, GrantsOK, OneVotePerView, TalliesOK, MailOK, ResponseOK;
  }

  lemma MessageStep(cfg: Config, s: State, a: Action)
    requires Inv(cfg, s) && Enabled(cfg, s, a) && !IsLocal(a)
    ensures Inv(cfg, Step(cfg, s, a))
  {
    hide Poll, Ask, Take, Put, Settle, HandleBeat, CheckVotes, Holders, Inv;
    InvMail(cfg, s);
    match a
    case StartRound(x) =>
      PollShapes(cfg, s, x);
      PollStep(cfg, s, Poll(cfg, s, x), x);
    case SendVote(x, to, localError) =>
      AskShapes(cfg, s, x, to, localError);
      AskStep(cfg, s, Ask(cfg, s, x, to, localError), Ballot(x, s.nodes[x].round, to));
    case LoseRequest(b) => DropStep(cfg, s, Step(cfg, s, a), b);
    case LoseResponse(b) => DropStep(cfg, s, Step(cfg, s, a), b);
    case DeliverVote(b, va) => DeliverStep(cfg, s, b, va);
    case TakeResponse(b) => TakeStep(cfg, s, b);
    case VotesTimeout(x) => WinStep(cfg, s, x);
    case SendBeat(x) => HistoryStep(cfg, s, Step(cfg, s, a));
    case DeliverBeat(x, hb, ba) => BeatStep(cfg, s, x, hb, ba, HandleBeat(cfg, s.nodes[x], hb, ba).node);
    case Acknowledge(x, p) => HistoryStep(cfg, s, Step(cfg, s, a));
  }

  lemma HistoryStep(cfg: Config, s: State, t: State)
    requires Inv(cfg, s) && t == s.(beats := t.beats, acked := t.acked)
    ensures Inv(cfg, t)
  {
  }

  lemma InvStep(cfg: Config, s: State, a: Action)
    requires Inv(cfg, s) && Enabled(cfg, s, a)
    ensures Inv(cfg, Step(cfg, s, a))
  {
    hide Step;
    if IsLocal(a) {
      LocalMover(cfg, s, a);
      LocalStep(cfg, s, a);
    } else {
      MessageStep(cfg, s, a);
    }
  }

  lemma NodesInit(cfg: Config, s: State)
    requires Init(cfg, s)
    ensures NodesOK(cfg, s)
  {
    hide Holders;
  }

  lemma InvInit(cfg: Config, s: State)
    requires Init(cfg, s) && |cfg.members| >= 3
    ensures Inv(cfg, s)
  {
    hide Holders, NodesOK, NodeOK, GrantOK, MailOK, ResponseOK;
    NodesInit(cfg, s);
    assert s.grants == map[] && s.requests == map[] && s.responses == map[];
    assert forall x | x in s.nodes :: s.books[x].tally == {};
  }

  lemma {:induction false} InvRun(cfg: Config, s: State, acts: seq<Action>)
    requires Init(cfg, s) && |cfg.members| >= 3
    ensures Inv(cfg, Run(cfg, s, acts))
    decreases |acts|
  {
    hide Step, Enabled, Init, NodesOK, GrantsOK, TalliesOK, RequestsOK, ResponsesOK, OneVotePerView;
    InitTyped(cfg, s);
    if acts == [] {
      InvInit(cfg, s);
    } else {
      InvRun(cfg, s, acts[..|acts| - 1]);
      var before, a := Run(cfg, s, acts[..|acts| - 1]), acts[|acts| - 1];
      if Enabled(cfg, before, a) {
        InvStep(cfg, before, a);
      }
    }
  }

  // ---------------------------------------------------------------- the theorems

  lemma InvAt(cfg: Config, run: seq<State>, acts: seq<Action>, i: nat)
    requires IsRun(cfg, run, acts) && i < |run| && |cfg.members| >= 3
    ensures Inv(cfg, run[i])
  {
    hide Run, Inv;
    RunAt(cfg, run, acts, i);
    InvRun(cfg, run[0], acts[..i]);
  }

  /** In every run no node grants its vote to two candidates in one view. */
  lemma VoteUniqueness(cfg: Config, run: seq<State>, acts: seq<Action>, i: nat, b: Ballot, c: Ballot)
    requires IsRun(cfg, run, acts) && i < |run| && |cfg.members| >= 3
    requires b in run[i].grants && c in run[i].grants
    requires b.voter == c.voter && b.view == c.view
    ensures b.cand == c.cand
  {
    hide IsRun;
    InvAt(cfg, run, acts, i);
  }

  /** In every run a node's view never falls below a view it voted in or a round it opened. */
  lemma ViewFloor(cfg: Config, run: seq<State>, acts: seq<Action>, i: nat, x: NodeId)
    requires IsRun(cfg, run, acts) && i < |run| && |cfg.members| >= 3 && x in run[i].nodes
    ensures run[i].nodes[x].round <= run[i].nodes[x].view
    ensures forall b | b in run[i].grants && b.voter == x :: b.view <= run[i].nodes[x].view
  {
    hide IsRun, TalliesOK, RequestsOK, ResponsesOK, OneVotePerView;
    InvAt(cfg, run, acts, i);
    var t := run[i];
    assert NodeOK(cfg, x, t.nodes[x], t.books[x]);
    forall b | b in t.grants && b.voter == x ensures b.view <= t.nodes[x].view {
      assert GrantOK(cfg, b, t.nodes[b.voter]);
    }
  }

  /** Two sets of more than half of the members meet. */
  lemma QuorumsMeet(members: set<NodeId>, p: set<NodeId>, q: set<NodeId>) returns (z: NodeId)
    requires p <= members && q <= members && |p| + |q| > |members|
    ensures z in p && z in q
  {
    if p * q == {} {
      assert |p + q| == |p| + |q|;
      SubsetSize(p + q, members);
    }
    z :| z in p * q;
  }

  lemma {:induction false} SubsetSize<T>(a: set<T>, b: set<T>)
    requires a <= b
    ensures |a| <= |b|
  {
    if a == {} {
    } else {
      var x :| x in a;
      SubsetSize(a - {x}, b - {x});
    }
  }

  /** A node still leading from round v has granted nobody's vote of that view. */
  lemma LeaderGrantsNobody(cfg: Config, s: State, x: NodeId, b: Ballot)
    requires Inv(cfg, s) && x in s.nodes && s.nodes[x].role == Leader && b.voter == x && b.view == s.nodes[x].round
    ensures b !in s.grants
  {
    forall g | g in s.grants && g.voter == x ensures g.view < s.nodes[x].round {
      assert GrantOK(cfg, g, s.nodes[g.voter]);
    }
  }

  lemma WinnersQuorum(cfg: Config, s: State, x: NodeId)
    requires Inv(cfg, s) && x in s.nodes && s.nodes[x].role == Leader && s.nodes[x].round > 0
    ensures s.books[x].tally + {x} <= cfg.members && 2 * |s.books[x].tally + {x}| > |cfg.members|
  {
    assert NodeOK(cfg, x, s.nodes[x], s.books[x]);
    assert |s.books[x].tally + {x}| == |s.books[x].tally| + 1;
  }

  lemma LeadersWonApart(cfg: Config, s: State, x: NodeId, y: NodeId)
    requires Inv(cfg, s) && x in s.nodes && y in s.nodes && x != y
    requires s.nodes[x].role == Leader && s.nodes[y].role == Leader
    ensures s.nodes[x].round != s.nodes[y].round
  {
    assert NodeOK(cfg, x, s.nodes[x], s.books[x]) && NodeOK(cfg, y, s.nodes[y], s.books[y]);
    if s.nodes[x].round == s.nodes[y].round > 0 {
      WinnersQuorum(cfg, s, x);
      WinnersQuorum(cfg, s, y);
      var z := QuorumsMeet(cfg.members, s.books[x].tally + {x}, s.books[y].tally + {y});
      SharedVoter(cfg, s, x, y, z);
    }
  }

  /** Nobody's vote is in both tallies of two leaders of one round, nor is one of the two leaders
      in the other's. */
  lemma SharedVoter(cfg: Config, s: State, x: NodeId, y: NodeId, z: NodeId)
    requires Inv(cfg, s) && x in s.nodes && y in s.nodes && x != y
    requires s.nodes[x].role == Leader && s.nodes[y].role == Leader && s.nodes[x].round == s.nodes[y].round
    ensures z !in s.books[x].tally + {x} || z !in s.books[y].tally + {y}
  {
    var v := s.nodes[x].round;
    LeaderGrantsNobody(cfg, s, x, Ballot(y, v, x));
    LeaderGrantsNobody(cfg, s, y, Ballot(x, v, y));
    assert z in s.books[x].tally ==> Ballot(x, v, z) in s.grants;
    assert z in s.books[y].tally ==> Ballot(y, v, z) in s.grants;
  }

  /** Election safety: in every run, two nodes that lead at the same time have won rounds of
      different views (the node started as LEADER counts as having won round 0). */
  lemma OneLeaderPerRound(cfg: Config, run: seq<State>, acts: seq<Action>, i: nat, x: NodeId, y: NodeId)
    requires IsRun(cfg, run, acts) && i < |run| && |cfg.members| >= 3
    requires x in run[i].nodes && y in run[i].nodes && x != y
    requires run[i].nodes[x].role == Leader && run[i].nodes[y].role == Leader
    ensures run[i].nodes[x].round != run[i].nodes[y].round
  {
    hide IsRun, Inv;
    InvAt(cfg, run, acts, i);
    LeadersWonApart(cfg, run[i], x, y);
  }
}
