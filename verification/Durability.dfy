/** Semi-synchronous durability across a failover: a winner whose voters were all promotable has
    every transaction that was acknowledged before its round began, and has all that were ever
    acknowledged as long as none of those voters takes in new transactions.  A transaction is
    acknowledged once `(n-1)/2` other members hold it; positions only grow. */
module Durability {
  import opened RaftNode
  import opened Cluster
  import opened ElectionSafety

  /** The voter stopped its IO thread for this vote and has neither restarted it nor begun to lead. */
  predicate StillFrozen(g: Grant, k: Book) {
    g.stopped && g.intake == k.intake
  }

  ghost predicate PositionOK(b: Ballot, g: Grant, voter: Node, cand: Node, vk: Book, ck: Book) {
    && g.pos <= voter.pos && g.reqPos <= cand.pos
    && (g.promotable ==> g.pos <= g.reqPos)
    && g.intake <= vk.intake
    && b.view <= cand.round
    && (b.view == cand.round && b.voter in ck.openHolders ==> g.pos >= ck.openAcked)
    && (StillFrozen(g, vk) ==> !voter.io && voter.role != Leader && voter.pos == g.pos)
  }

  ghost predicate GrantPositionOK(cfg: Config, s: State, b: Ballot, g: Grant)
    requires Typed(cfg, s)
  {
    && b.voter in s.nodes && b.cand in s.nodes
    && PositionOK(b, g, s.nodes[b.voter], s.nodes[b.cand], s.books[b.voter], s.books[b.cand])
  }

  ghost predicate PositionsOK(cfg: Config, s: State)
    requires Typed(cfg, s)
  {
    forall b | b in s.grants :: GrantPositionOK(cfg, s, b, s.grants[b])
  }

  ghost predicate AskedOK(cfg: Config, s: State)
    requires Typed(cfg, s)
  {
    forall b | b in s.requests :: b.cand in s.nodes && s.requests[b].pos <= s.nodes[b.cand].pos
  }

  ghost predicate OpeningOK(cfg: Config, s: State, x: NodeId)
    requires Typed(cfg, s) && cfg.members != {} && x in s.nodes
  {
    && s.books[x].openHolders <= Holders(cfg, s, s.books[x].openAcked)
    && (s.nodes[x].round > 0 ==> |s.books[x].openHolders| > cfg.WaitCount())
  }

  ghost predicate OpeningsOK(cfg: Config, s: State)
    requires Typed(cfg, s) && cfg.members != {}
  {
    forall x | x in s.nodes :: OpeningOK(cfg, s, x)
  }

  ghost predicate AckedOK(cfg: Config, s: State)
    requires Typed(cfg, s) && cfg.members != {}
  {
    |Holders(cfg, s, s.acked)| > cfg.WaitCount()
  }

  ghost predicate DataInv(cfg: Config, s: State) {
    && Inv(cfg, s)
    && PositionsOK(cfg, s)
    && AskedOK(cfg, s)
    && OpeningsOK(cfg, s)
    && AckedOK(cfg, s)
  }

  // ---------------------------------------------------------------- positions only grow

  ghost predicate PositionsGrow(s: State, t: State) {
    s.nodes.Keys == t.nodes.Keys && forall x | x in s.nodes :: s.nodes[x].pos <= t.nodes[x].pos
  }

  lemma HoldersGrow(cfg: Config, s: State, t: State, p: nat)
    requires Typed(cfg, s) && Typed(cfg, t) && PositionsGrow(s, t)
    ensures Holders(cfg, s, p) <= Holders(cfg, t, p) && |Holders(cfg, s, p)| <= |Holders(cfg, t, p)|
  {
    SubsetSize(Holders(cfg, s, p), Holders(cfg, t, p));
  }

  lemma OpeningFrame(cfg: Config, s: State, t: State, x: NodeId)
    requires Typed(cfg, s) && Typed(cfg, t) && PositionsGrow(s, t) && cfg.members != {} && x in s.nodes
        && OpeningOK(cfg, s, x)
    requires t.books[x].openHolders == s.books[x].openHolders && t.books[x].openAcked == s.books[x].openAcked
    requires t.nodes[x].round == s.nodes[x].round
    ensures OpeningOK(cfg, t, x)
  {
    HoldersGrow(cfg, s, t, s.books[x].openAcked);
  }

  /** Node x moves within its round: its position grows only if its IO thread ran or it led. */
  ghost predicate DataMove(s: State, t: State, x: NodeId) {
    && OnlyMoves(s, t, x)
    && (var m, n, k, l := s.nodes[x], t.nodes[x], s.books[x], t.books[x];
        && n.round == m.round && m.pos <= n.pos
        && (m.pos < n.pos ==> m.io || m.role == Leader || k.intake < l.intake)
        && l.openHolders == k.openHolders && l.openAcked == k.openAcked
        && k.intake <= l.intake
        && ((n.io && !m.io) || (n.role == Leader && m.role != Leader) ==> k.intake < l.intake))
  }

  lemma PositionFrame(cfg: Config, s: State, t: State, x: NodeId, b: Ballot, g: Grant)
    requires Typed(cfg, s) && Typed(cfg, t) && DataMove(s, t, x) && GrantPositionOK(cfg, s, b, g)
    ensures GrantPositionOK(cfg, t, b, g)
  {
  }

  lemma PositionsFrame(cfg: Config, s: State, t: State, x: NodeId)
    requires Typed(cfg, s) && Typed(cfg, t) && DataMove(s, t, x) && PositionsOK(cfg, s)
    requires forall b | b in t.grants ::
               (b in s.grants && t.grants[b] == s.grants[b]) || GrantPositionOK(cfg, t, b, t.grants[b])
    ensures PositionsOK(cfg, t)
  {
    forall b | b in t.grants ensures GrantPositionOK(cfg, t, b, t.grants[b]) {
      if b in s.grants && t.grants[b] == s.grants[b] {
        PositionFrame(cfg, s, t, x, b, s.grants[b]);
      }
    }
  }

  lemma AskedFrame(cfg: Config, s: State, t: State, x: NodeId)
    requires Typed(cfg, s) && Typed(cfg, t) && DataMove(s, t, x) && AskedOK(cfg, s)
    requires forall b | b in t.requests ::
               (b in s.requests && t.requests[b] == s.requests[b])
               || (b.cand in t.nodes && t.requests[b].pos <= t.nodes[b.cand].pos)
    ensures AskedOK(cfg, t)
  {
  }

  lemma OpeningsFrame(cfg: Config, s: State, t: State, x: NodeId)
    requires Typed(cfg, s) && Typed(cfg, t) && DataMove(s, t, x) && cfg.members != {} && OpeningsOK(cfg, s)
    ensures OpeningsOK(cfg, t)
  {
    forall y | y in t.nodes ensures OpeningOK(cfg, t, y) {
      OpeningFrame(cfg, s, t, y);
    }
  }

  lemma AckedFrame(cfg: Config, s: State, t: State)
    requires Typed(cfg, s) && Typed(cfg, t) && cfg.members != {} && PositionsGrow(s, t) && t.acked == s.acked
    requires AckedOK(cfg, s)
    ensures AckedOK(cfg, t)
  {
    HoldersGrow(cfg, s, t, s.acked);
  }

  /** The step from s to t keeps the data invariant once the election's is known to hold after it. */
  lemma MoveStep(cfg: Config, s: State, t: State, x: NodeId)
    requires Typed(cfg, s) && Typed(cfg, t) && cfg.members != {}
    requires PositionsOK(cfg, s) && AskedOK(cfg, s) && OpeningsOK(cfg, s) && AckedOK(cfg, s)
    requires DataMove(s, t, x) && t.acked == s.acked
    requires forall b | b in t.grants ::
               (b in s.grants && t.grants[b] == s.grants[b]) || GrantPositionOK(cfg, t, b, t.grants[b])
    requires forall b | b in t.requests ::
               (b in s.requests && t.requests[b] == s.requests[b])
               || (b.cand in t.nodes && t.requests[b].pos <= t.nodes[b.cand].pos)
    ensures PositionsOK(cfg, t) && AskedOK(cfg, t) && OpeningsOK(cfg, t) && AckedOK(cfg, t)
  {
    PositionsFrame(cfg, s, t, x);
    AskedFrame(cfg, s, t, x);
    OpeningsFrame(cfg, s, t, x);
    AckedFrame(cfg, s, t);
  }

  // ---------------------------------------------------------------- a vote

  /** No vote handler moves a position or starts the IO thread, and a promotable node grants only
      a request whose position is not smaller than its own. */
  lemma HandlerKeepsData(cfg: Config, n: Node, req: VoteRequest, a: VoteAnswers)
    ensures var out := HandleVote(cfg, n, req, a);
            && out.node.pos == n.pos && (out.node.io ==> n.io)
            && (Counts(out.rsp) && a.promotable ==> n.pos <= req.pos)
  {
    match n.role
    case Follower =>
    case Candidate =>
    case Leader =>
    case _ =>
  }

  lemma GrantPosition(cfg: Config, s: State, t: State, b: Ballot, a: VoteAnswers, out: VoteOutcome)
    requires DataInv(cfg, s) && b in s.requests && Typed(cfg, t)
    requires out == HandleVote(cfg, s.nodes[b.voter], s.requests[b], a) && Counts(out.rsp)
    requires t == Settle(cfg, s, b, a.promotable, out)
    ensures GrantPositionOK(cfg, t, b, t.grants[b])
  {
    hide HandleVote, Settle, Holders, PositionOK, VoteEffect,
         GrantsOK, TalliesOK, ResponsesOK, OneVotePerView, PositionsOK, AckedOK;
    assert NodeOK(cfg, b.voter, s.nodes[b.voter], s.books[b.voter]);
    assert AddressOK(cfg, b) && MailOK(b, s.nodes[b.cand].round, s.books[b.cand]);
    assert OpeningOK(cfg, s, b.cand);
    HandlerKeepsData(cfg, s.nodes[b.voter], s.requests[b], a);
    HandlerVoteEffect(cfg, s.nodes[b.voter], s.requests[b], a);
    GrantedPosition(cfg, s, t, b, a.promotable, out);
  }

  lemma GrantedPosition(cfg: Config, s: State, t: State, b: Ballot, promotable: bool, out: VoteOutcome)
    requires Typed(cfg, s) && b in s.requests && b.voter in s.nodes && b.cand in s.nodes && b.voter != b.cand
    requires cfg.members != {} && OpeningOK(cfg, s, b.cand)
    requires s.requests[b].pos <= s.nodes[b.cand].pos && b.view <= s.nodes[b.cand].round
    requires Typed(cfg, t) && t == Settle(cfg, s, b, promotable, out) && Counts(out.rsp)
    requires var n := s.nodes[b.voter];
             && out.node.pos == n.pos && (promotable ==> n.pos <= s.requests[b].pos)
             && VoteEffect(n, s.requests[b], out)
    ensures GrantPositionOK(cfg, t, b, t.grants[b])
  {
  }

  lemma SettleMoves(cfg: Config, s: State, b: Ballot, promotable: bool, out: VoteOutcome)
    requires Typed(cfg, s) && b in s.requests && b.voter in s.nodes
    requires out.node.round == s.nodes[b.voter].round && out.node.pos == s.nodes[b.voter].pos
    requires out.node.role == Leader ==> s.nodes[b.voter].role == Leader
    ensures DataMove(s, Settle(cfg, s, b, promotable, out), b.voter)
    ensures Settle(cfg, s, b, promotable, out).acked == s.acked
  {
  }

  lemma DeliverData(cfg: Config, s: State, t: State, b: Ballot, a: VoteAnswers, out: VoteOutcome)
    requires DataInv(cfg, s) && b in s.requests && out == HandleVote(cfg, s.nodes[b.voter], s.requests[b], a)
    requires t == Settle(cfg, s, b, a.promotable, out) && Inv(cfg, t)
    ensures DataInv(cfg, t)
  {
    hide HandleVote, Settle, NodesOK, GrantsOK, TalliesOK, ResponsesOK, OneVotePerView, PositionsOK, OpeningsOK,
        AckedOK, AskedOK;
    SettledShape(cfg, s, b, a, out);
    if Counts(out.rsp) {
      GrantPosition(cfg, s, t, b, a, out);
    }
    MoveStep(cfg, s, t, b.voter);
  }

  lemma SettledShape(cfg: Config, s: State, b: Ballot, a: VoteAnswers, out: VoteOutcome)
    requires Inv(cfg, s) && b in s.requests && out == HandleVote(cfg, s.nodes[b.voter], s.requests[b], a)
    ensures var t := Settle(cfg, s, b, a.promotable, out);
            DataMove(s, t, b.voter) && VoteShape(cfg, s, t, b, out) && t.acked == s.acked
  {
    hide HandleVote, Settle, GrantsOK, TalliesOK, ResponsesOK, OneVotePerView;
    assert NodeOK(cfg, b.voter, s.nodes[b.voter], s.books[b.voter]);
    HandlerKeepsData(cfg, s.nodes[b.voter], s.requests[b], a);
    HandlerVoteEffect(cfg, s.nodes[b.voter], s.requests[b], a);
    SettleMoves(cfg, s, b, a.promotable, out);
    VoteShapes(cfg, s, b, a.promotable, out);
  }

  // ---------------------------------------------------------------- a round, an acknowledgement

  ghost predicate OpenShape(cfg: Config, s: State, t: State, x: NodeId)
    requires Typed(cfg, s)
  {
    && Typed(cfg, t) && OnlyMoves(s, t, x) && t.nodes[x] == OpenRound(s.nodes[x])
    && t.books[x].openAcked == s.acked && t.books[x].openHolders == Holders(cfg, s, s.acked)
    && t.books[x].intake == s.books[x].intake
    && t.grants == s.grants && t.requests == s.requests && t.acked == s.acked
  }

  lemma PollOpens(cfg: Config, s: State, x: NodeId)
    requires Typed(cfg, s) && x in s.nodes
    ensures OpenShape(cfg, s, Poll(cfg, s, x), x)
  {
  }

  lemma OpeningAtPoll(cfg: Config, s: State, t: State, x: NodeId)
    requires Typed(cfg, s) && cfg.members != {} && OpenShape(cfg, s, t, x) && OpeningsOK(cfg, s) && AckedOK(cfg, s)
    ensures OpeningsOK(cfg, t) && AckedOK(cfg, t)
  {
    assert PositionsGrow(s, t);
    HoldersGrow(cfg, s, t, s.acked);
    forall y | y in t.nodes ensures OpeningOK(cfg, t, y) {
      if y != x {
        OpeningFrame(cfg, s, t, y);
      }
    }
  }

  lemma PositionsAtPoll(cfg: Config, s: State, t: State, x: NodeId)
    requires Typed(cfg, s) && OpenShape(cfg, s, t, x) && PositionsOK(cfg, s) && s.nodes[x].round <= s.nodes[x].view
    ensures PositionsOK(cfg, t)
  {
    forall b | b in t.grants ensures GrantPositionOK(cfg, t, b, t.grants[b]) {
      assert GrantPositionOK(cfg, s, b, s.grants[b]);
    }
  }

  lemma RoundBelowView(cfg: Config, s: State, x: NodeId)
    requires Inv(cfg, s)
    ensures Typed(cfg, s) && cfg.members != {} && (x in s.nodes ==> s.nodes[x].round <= s.nodes[x].view)
  {
    hide GrantsOK, TalliesOK, RequestsOK, ResponsesOK, OneVotePerView;
    assert x in s.nodes ==> NodeOK(cfg, x, s.nodes[x], s.books[x]);
  }

  lemma AskedAtPoll(cfg: Config, s: State, t: State, x: NodeId)
    requires Typed(cfg, s) && OpenShape(cfg, s, t, x) && AskedOK(cfg, s)
    ensures Typed(cfg, t) && AskedOK(cfg, t)
  {
  }

  lemma PollData(cfg: Config, s: State, t: State, x: NodeId)
    requires DataInv(cfg, s) && OpenShape(cfg, s, t, x) && Inv(cfg, t)
    ensures DataInv(cfg, t)
  {
    hide Inv, PositionsOK, OpeningsOK, AckedOK, AskedOK;
    RoundBelowView(cfg, s, x);
    OpeningAtPoll(cfg, s, t, x);
    PositionsAtPoll(cfg, s, t, x);
    AskedAtPoll(cfg, s, t, x);
  }

  lemma AskMoves(cfg: Config, s: State, x: NodeId, to: NodeId, localError: bool)
    requires Typed(cfg, s) && x in s.nodes
    ensures var t := Ask(cfg, s, x, to, localError);
            && DataMove(s, t, x) && t.grants == s.grants && t.acked == s.acked
            && forall b | b in t.requests ::
                 (b in s.requests && t.requests[b] == s.requests[b])
                 || (b.cand in t.nodes && t.requests[b].pos <= t.nodes[b.cand].pos)
  {
  }

  lemma PutMoves(cfg: Config, s: State, x: NodeId, n: Node)
    requires Typed(cfg, s) && x in s.nodes && n.round == s.nodes[x].round && s.nodes[x].pos <= n.pos
    ensures var t := Put(cfg, s, x, n);
            DataMove(s, t, x) && t.grants == s.grants && t.acked == s.acked && t.requests == s.requests
  {
  }

  lemma AbsorbMoves(cfg: Config, s: State, b: Ballot, n: Node)
    requires Typed(cfg, s) && b in s.responses && b.cand in s.nodes
    requires n.round == s.nodes[b.cand].round && n.pos == s.nodes[b.cand].pos
    ensures var t := Absorb(cfg, s, b, n);
            DataMove(s, t, b.cand) && t.grants == s.grants && t.acked == s.acked && t.requests == s.requests
  {
  }

  lemma AckData(cfg: Config, s: State, x: NodeId, p: nat)
    requires DataInv(cfg, s) && Enabled(cfg, s, Acknowledge(x, p)) && Inv(cfg, s.(acked := p))
    ensures DataInv(cfg, s.(acked := p))
  {
    var t := s.(acked := p);
    assert x in Holders(cfg, s, p) && |Holders(cfg, s, p) - {x}| == |Holders(cfg, s, p)| - 1;
    HoldersGrow(cfg, s, t, p);
    forall y | y in t.nodes ensures OpeningOK(cfg, t, y) {
      OpeningFrame(cfg, s, t, y);
    }
    assert PositionsOK(cfg, t) by {
      forall b | b in t.grants ensures GrantPositionOK(cfg, t, b, t.grants[b]) {
        assert GrantPositionOK(cfg, s, b, s.grants[b]);
      }
    }
  }

  // ---------------------------------------------------------------- every step, every run

  lemma MovedKeepsData(cfg: Config, s: State, a: Action)
    requires Typed(cfg, s) && IsLocal(a) && Enabled(cfg, s, a)
    ensures a.x in s.nodes
    ensures var m, n := s.nodes[a.x], Moved(cfg, s.nodes[a.x], a);
            n.round == m.round && m.pos <= n.pos
  {
  }

  lemma FollowerBeatKeepsData(cfg: Config, n: Node, hb: Heartbeat, a: BeatAnswers)
    ensures FollowerBeat(cfg, n, hb, a).node.round == n.round && FollowerBeat(cfg, n, hb, a).node.pos == n.pos
  {
    hide AdoptView, DegradeToInvalid;
    AdoptKeepsData(hb, a);
  }

  lemma AdoptKeepsData(hb: Heartbeat, a: BeatAnswers)
    ensures forall n: Node :: AdoptView(n, hb).round == n.round && AdoptView(n, hb).pos == n.pos
    ensures forall n: Node :: DegradeToInvalid(n, a).round == n.round && DegradeToInvalid(n, a).pos == n.pos
  {
  }

  lemma BeatKeepsData(cfg: Config, n: Node, hb: Heartbeat, a: BeatAnswers)
    ensures HandleBeat(cfg, n, hb, a).node.round == n.round && HandleBeat(cfg, n, hb, a).node.pos == n.pos
  {
    hide FollowerBeat, AdoptView;
    FollowerBeatKeepsData(cfg, n, hb, a);
    AdoptKeepsData(hb, a);
  }

  /** A node moves within its round without falling back. */
  lemma PutData(cfg: Config, s: State, x: NodeId, n: Node, t: State)
    requires DataInv(cfg, s) && x in s.nodes && n.round == s.nodes[x].round && n.pos >= s.nodes[x].pos
    requires t == Put(cfg, s, x, n) && Inv(cfg, t)
    ensures DataInv(cfg, t)
  {
    hide Put, NodesOK, GrantsOK, TalliesOK, RequestsOK, ResponsesOK, OneVotePerView;
    PutMoves(cfg, s, x, n);
    MoveStep(cfg, s, t, x);
  }

  lemma ReceiveKeepsData(cfg: Config, n: Node, rsp: VoteResponse)
    ensures ReceiveVote(cfg, n, rsp).round == n.round && ReceiveVote(cfg, n, rsp).pos == n.pos
  {
  }

  lemma TakeData(cfg: Config, s: State, b: Ballot, t: State)
    requires DataInv(cfg, s) && b in s.responses && b.cand in s.nodes && t == Take(cfg, s, b) && Inv(cfg, t)
    ensures DataInv(cfg, t)
  {
    hide Absorb, ReceiveVote, NodesOK, GrantsOK, TalliesOK, RequestsOK, ResponsesOK, OneVotePerView;
    var n := s.nodes[b.cand];
    if n.polling && n.round == b.view {
      ReceiveKeepsData(cfg, n, s.responses[b]);
      AbsorbMoves(cfg, s, b, ReceiveVote(cfg, n, s.responses[b]));
      MoveStep(cfg, s, t, b.cand);
    } else {
      MailData(cfg, s, t);
    }
  }

  /** A step that leaves the nodes, the books, the votes and the acknowledgements alone. */
  lemma MailData(cfg: Config, s: State, t: State)
    requires DataInv(cfg, s) && Inv(cfg, t) && t == s.(requests := t.requests, responses := t.responses,
        beats := t.beats)
    requires forall b | b in t.requests :: b in s.requests && t.requests[b] == s.requests[b]
    ensures DataInv(cfg, t)
  {
    hide NodesOK, GrantsOK, TalliesOK, RequestsOK, ResponsesOK, OneVotePerView;
    var x :| x in cfg.members;
    assert DataMove(s, t, x);
    MoveStep(cfg, s, t, x);
  }

  lemma AskData(cfg: Config, s: State, x: NodeId, to: NodeId, localError: bool, t: State)
    requires DataInv(cfg, s) && x in s.nodes && t == Ask(cfg, s, x, to, localError) && Inv(cfg, t)
    ensures DataInv(cfg, t)
  {
    hide Ask, NodesOK, GrantsOK, TalliesOK, RequestsOK, ResponsesOK, OneVotePerView;
    AskMoves(cfg, s, x, to, localError);
    MoveStep(cfg, s, t, x);
  }

  lemma DataTyped(cfg: Config, s: State)
    requires DataInv(cfg, s)
    ensures Typed(cfg, s) && cfg.members != {} && Inv(cfg, s)
    ensures forall b | b in s.requests :: AddressOK(cfg, b)
  {
    hide NodesOK, GrantsOK, TalliesOK, ResponsesOK, OneVotePerView, PositionsOK, AskedOK, OpeningsOK, AckedOK;
  }

  lemma MessageData(cfg: Config, s: State, a: Action, t: State)
    requires DataInv(cfg, s) && Enabled(cfg, s, a) && !IsLocal(a) && t == Step(cfg, s, a) && Inv(cfg, t)
    ensures DataInv(cfg, t)
  {
    hide Poll, Ask, Take, Put, Settle, HandleVote, HandleBeat, CheckVotes, DataInv, Inv, Holders;
    DataTyped(cfg, s);
    match a
    case StartRound(x) =>
      PollOpens(cfg, s, x);
      PollData(cfg, s, t, x);
    case SendVote(x, to, localError) =>
      AskData(cfg, s, x, to, localError, t);
    case LoseRequest(b) => MailData(cfg, s, t);
    case LoseResponse(b) => MailData(cfg, s, t);
    case DeliverVote(b, va) => DeliverData(cfg, s, t, b, va, HandleVote(cfg, s.nodes[b.voter], s.requests[b], va));
    case TakeResponse(b) => TakeData(cfg, s, b, t);
    case VotesTimeout(x) =>
      WinKeepsData(cfg, s.nodes[x]);
      PutData(cfg, s, x, CheckVotes(cfg, s.nodes[x]), t);
    case SendBeat(x) => MailData(cfg, s, t);
    case DeliverBeat(x, hb, ba) =>
      BeatKeepsData(cfg, s.nodes[x], hb, ba);
      PutData(cfg, s, x, HandleBeat(cfg, s.nodes[x], hb, ba).node, t);
    case Acknowledge(x, p) =>
      if p > s.acked {
        AckData(cfg, s, x, p);
      }
  }

  lemma WinKeepsData(cfg: Config, n: Node)
    ensures CheckVotes(cfg, n).round == n.round && CheckVotes(cfg, n).pos == n.pos
  {
  }

  lemma DataStep(cfg: Config, s: State, a: Action)
    requires DataInv(cfg, s) && Enabled(cfg, s, a)
    ensures DataInv(cfg, Step(cfg, s, a))
  {
    hide Step, Moved, Put;
    DataTyped(cfg, s);
    InvStep(cfg, s, a);
    if IsLocal(a) {
      LocalMover(cfg, s, a);
      MovedKeepsData(cfg, s, a);
      PutData(cfg, s, a.x, Moved(cfg, s.nodes[a.x], a), Step(cfg, s, a));
    } else {
      MessageData(cfg, s, a, Step(cfg, s, a));
    }
  }

  lemma {:induction false} DataRun(cfg: Config, s: State, acts: seq<Action>)
    requires Init(cfg, s) && |cfg.members| >= 3
    ensures DataInv(cfg, Run(cfg, s, acts))
    decreases |acts|
  {
    InvRun(cfg, s, acts);
    if acts == [] {
    } else {
      DataRun(cfg, s, acts[..|acts| - 1]);
      var before, a := Run(cfg, s, acts[..|acts| - 1]), acts[|acts| - 1];
      if Enabled(cfg, before, a) {
        DataStep(cfg, before, a);
      }
    }
  }

  // ---------------------------------------------------------------- the theorems

  lemma DataAt(cfg: Config, run: seq<State>, acts: seq<Action>, i: nat)
    requires IsRun(cfg, run, acts) && i < |run| && |cfg.members| >= 3
    ensures DataInv(cfg, run[i])
  {
    hide Run, DataInv;
    RunAt(cfg, run, acts, i);
    DataRun(cfg, run[0], acts[..i]);
  }

  /** z is x itself, or voted for x in its latest round while promotable. */
  ghost predicate Attests(t: State, x: NodeId, z: NodeId) {
    && x in t.nodes && x in t.books
    && (z == x || (var b := Ballot(x, t.nodes[x].round, z);
                   z in t.books[x].tally && b in t.grants && t.grants[b].promotable))
  }

  /** z has taken in nothing since it voted for x. */
  ghost predicate Froze(t: State, x: NodeId, z: NodeId) {
    && x in t.nodes && z in t.books
    && (z == x || (var b := Ballot(x, t.nodes[x].round, z); b in t.grants && StillFrozen(t.grants[b], t.books[z])))
  }

  lemma OpeningReaches(cfg: Config, t: State, x: NodeId, z: NodeId)
    requires DataInv(cfg, t) && Attests(t, x, z) && z in t.books[x].openHolders
    ensures t.books[x].openAcked <= t.nodes[x].pos
  {
    assert OpeningOK(cfg, t, x);
    assert z != x ==> GrantPositionOK(cfg, t, Ballot(x, t.nodes[x].round, z), t.grants[Ballot(x, t.nodes[x].round, z)]);
  }

  lemma AckedReaches(cfg: Config, t: State, x: NodeId, z: NodeId)
    requires DataInv(cfg, t) && Attests(t, x, z) && Froze(t, x, z) && z in Holders(cfg, t, t.acked)
    ensures t.acked <= t.nodes[x].pos
  {
    assert z != x ==> GrantPositionOK(cfg, t, Ballot(x, t.nodes[x].round, z), t.grants[Ballot(x, t.nodes[x].round, z)]);
  }

  /** In every run one node is enough: a candidate that held what was acknowledged when its latest
      round began, or got the vote of a promotable holder of it, holds it. */
  lemma AckedBeforeRoundSurvives(cfg: Config, run: seq<State>, acts: seq<Action>, i: nat, x: NodeId, z: NodeId)
    requires IsRun(cfg, run, acts) && i < |run| && |cfg.members| >= 3
    requires Attests(run[i], x, z) && z in run[i].books[x].openHolders
    ensures run[i].books[x].openAcked <= run[i].nodes[x].pos
  {
    hide IsRun, DataInv;
    DataAt(cfg, run, acts, i);
    OpeningReaches(cfg, run[i], x, z);
  }

  /** And if that voter has taken in nothing since, the candidate holds everything that has ever
      been acknowledged, by whichever leader, of what the voter held. */
  lemma EverythingAckedSurvives(cfg: Config, run: seq<State>, acts: seq<Action>, i: nat, x: NodeId, z: NodeId)
    requires IsRun(cfg, run, acts) && i < |run| && |cfg.members| >= 3
    requires Attests(run[i], x, z) && Froze(run[i], x, z) && z in run[i].nodes && z in cfg.Ackers()
    requires run[i].acked <= run[i].nodes[z].pos
    ensures run[i].acked <= run[i].nodes[x].pos
  {
    hide IsRun, DataInv;
    DataAt(cfg, run, acts, i);
    DataTyped(cfg, run[i]);
    AckedReaches(cfg, run[i], x, z);
  }

  /** A winner's voters and a set of holders share a member. */
  lemma VoterHolds(cfg: Config, s: State, x: NodeId, holders: set<NodeId>) returns (z: NodeId)
    requires Inv(cfg, s) && x in s.nodes && s.nodes[x].role == Leader && s.nodes[x].round > 0
    requires holders <= cfg.members && |holders| > cfg.WaitCount()
    ensures z in holders && z in s.books[x].tally + {x}
  {
    WinnersQuorum(cfg, s, x);
    z := QuorumsMeet(cfg.members, holders, s.books[x].tally + {x});
  }

  /** x leads after winning a round. */
  ghost predicate Won(t: State, x: NodeId) {
    x in t.nodes && x in t.books && t.nodes[x].role == Leader && t.nodes[x].round > 0
  }

  /** Quorums provide that node: without acknowledgements from idle nodes, a leader all of whose
      voters were promotable holds what was acknowledged before its round, and if they all froze,
      everything. */
  lemma PromotableVotersSuffice(cfg: Config, run: seq<State>, acts: seq<Action>, i: nat, x: NodeId)
    requires IsRun(cfg, run, acts) && i < |run| && |cfg.members| >= 3 && cfg.ackingIdles == {}
    requires Won(run[i], x) && forall y | y in run[i].books[x].tally :: Attests(run[i], x, y)
    ensures run[i].books[x].openAcked <= run[i].nodes[x].pos
    ensures (forall y | y in run[i].books[x].tally :: Froze(run[i], x, y)) ==> run[i].acked <= run[i].nodes[x].pos
  {
    hide IsRun, DataInv, Attests, Froze;
    DataAt(cfg, run, acts, i);
    WinnerReaches(cfg, run[i], x);
  }

  lemma WinnerReaches(cfg: Config, t: State, x: NodeId)
    requires DataInv(cfg, t) && cfg.ackingIdles == {}
    requires Won(t, x) && forall y | y in t.books[x].tally :: Attests(t, x, y)
    ensures t.books[x].openAcked <= t.nodes[x].pos
    ensures (forall y | y in t.books[x].tally :: Froze(t, x, y)) ==> t.acked <= t.nodes[x].pos
  {
    hide NodesOK, GrantsOK, TalliesOK, RequestsOK, ResponsesOK, OneVotePerView, PositionsOK, AskedOK;
    assert OpeningOK(cfg, t, x);
    var z := VoterHolds(cfg, t, x, t.books[x].openHolders);
    assert Attests(t, x, x) && Froze(t, x, x);
    OpeningReaches(cfg, t, x, z);
    if forall y | y in t.books[x].tally :: Froze(t, x, y) {
      var w := VoterHolds(cfg, t, x, Holders(cfg, t, t.acked));
      AckedReaches(cfg, t, x, w);
    }
  }
}
