/** Rounds of candidates over whole runs, for every number of members: a denial ends the round for
    good, and short of one a round is won exactly by enough votes. */
module Rounds {
  import opened RaftNode
  import opened Cluster
  import opened ElectionSafety
  import opened Replies

  predicate Denies(c: RetCode) {
    c == ErrorInvalidGTID || c == ErrorInvalidViewID
  }

  /** No answer that the node took in its latest round was a denial. */
  predicate Undenied(k: Book) {
    forall y | y in k.taken :: !Denies(k.taken[y].code)
  }

  ghost predicate RunnerOK(cfg: Config, x: NodeId, n: Node, k: Book) {
    && n.id == x && n.round <= n.view
    && (x in cfg.idles ==> n.role == Idle)
    && (n.polling ==> n.role == Candidate && (|cfg.members| >= 2 ==> n.votes < |cfg.members|))
    && (Running(n) ==> Undenied(k))
  }

  ghost predicate RunnersOK(cfg: Config, s: State)
    requires Typed(cfg, s)
  {
    forall x | x in s.nodes :: RunnerOK(cfg, x, s.nodes[x], s.books[x])
  }

  /** What the mail says: a request carries its round, and a rejection a view not below it. */
  ghost predicate MailTrue(cfg: Config, s: State) {
    && (forall b | b in s.requests :: s.requests[b].view == b.view)
    && (forall b | b in s.responses && Denies(s.responses[b].code) ::
          |cfg.members| >= 2 && (s.responses[b].code == ErrorInvalidViewID ==> s.responses[b].view >= b.view))
  }

  ghost predicate Fair(cfg: Config, s: State) {
    Typed(cfg, s) && RunnersOK(cfg, s) && MailTrue(cfg, s)
  }

  // ---------------------------------------------------------------- one node moves

  /** A move that opens no round and does not come to lead from outside one. */
  ghost predicate Calm(cfg: Config, x: NodeId, m: Node, n: Node) {
    && n.id == m.id && n.round == m.round && n.view >= m.view
    && (x in cfg.idles && m.role == Idle ==> n.role == Idle)
    && (n.polling ==> m.polling && n.role == Candidate && n.votes == m.votes)
    && (n.role == Leader ==> Running(m))
  }

  lemma RunnersFrame(cfg: Config, s: State, t: State, x: NodeId)
    requires Typed(cfg, s) && Typed(cfg, t) && OnlyMoves(s, t, x)
    requires RunnersOK(cfg, s) && RunnerOK(cfg, x, t.nodes[x], t.books[x])
    ensures RunnersOK(cfg, t)
  {
    hide RunnerOK;
  }

  /** What a step keeps when node x moves to n without opening a round or taking an answer. */
  ghost predicate Moves(cfg: Config, s: State, t: State, x: NodeId, n: Node) {
    Typed(cfg, t) && OnlyMoves(s, t, x) && t.nodes[x] == n && t.books[x].taken == s.books[x].taken
  }

  lemma CalmMove(cfg: Config, s: State, t: State, x: NodeId, n: Node)
    requires Fair(cfg, s) && x in s.nodes && Calm(cfg, x, s.nodes[x], n) && Moves(cfg, s, t, x, n)
    ensures RunnersOK(cfg, t)
  {
    assert RunnerOK(cfg, x, s.nodes[x], s.books[x]);
    RunnersFrame(cfg, s, t, x);
  }

  lemma PutMovesOne(cfg: Config, s: State, x: NodeId, n: Node)
    requires Typed(cfg, s) && x in s.nodes
    ensures var t := Put(cfg, s, x, n);
            Moves(cfg, s, t, x, n) && t.requests == s.requests && t.responses == s.responses
  {
  }

  lemma SettleMovesOne(cfg: Config, s: State, b: Ballot, promotable: bool, out: VoteOutcome)
    requires Typed(cfg, s) && b in s.requests && b.voter in s.nodes
    ensures var t := Settle(cfg, s, b, promotable, out);
            && Moves(cfg, s, t, b.voter, out.node)
            && t.requests == s.requests - {b} && t.responses == s.responses[b := out.rsp]
  {
  }

  lemma AbsorbMovesOne(cfg: Config, s: State, b: Ballot, n: Node)
    requires Typed(cfg, s) && b in s.responses && b.cand in s.nodes
    ensures var t := Absorb(cfg, s, b, n);
            && OnlyMoves(s, t, b.cand) && t.nodes[b.cand] == n
            && t.books[b.cand].taken == s.books[b.cand].taken[b.voter := s.responses[b]]
            && t.requests == s.requests && t.responses == s.responses - {b}
  {
  }

  lemma CalmStep(cfg: Config, s: State, x: NodeId, n: Node)
    requires Fair(cfg, s) && x in s.nodes && Calm(cfg, x, s.nodes[x], n)
    ensures Fair(cfg, Put(cfg, s, x, n))
  {
    hide Put, Calm, RunnersOK;
    PutMovesOne(cfg, s, x, n);
    CalmMove(cfg, s, Put(cfg, s, x, n), x, n);
  }

  lemma UpwardIsCalm(cfg: Config, x: NodeId, m: Node, n: Node)
    requires Upward(cfg, x, m, n)
    ensures Calm(cfg, x, m, n)
  {
  }

  lemma OpeningFair(cfg: Config, s: State, x: NodeId)
    requires Fair(cfg, s) && x in s.nodes && s.nodes[x].role == Candidate
    ensures Fair(cfg, Poll(cfg, s, x))
  {
    var t := Poll(cfg, s, x);
    forall y | y in t.nodes ensures RunnerOK(cfg, y, t.nodes[y], t.books[y]) {
      assert RunnerOK(cfg, y, s.nodes[y], s.books[y]);
    }
  }

  // ---------------------------------------------------------------- a vote, and its answer

  lemma DenierIsMember(cfg: Config, n: Node, req: VoteRequest, a: VoteAnswers)
    requires cfg.Valid() && n.id in cfg.members + cfg.idles && (n.id in cfg.idles ==> n.role == Idle)
    requires Denies(HandleVote(cfg, n, req, a).rsp.code)
    ensures |cfg.members| >= 2
  {
    hide HandleVote;
    RefusalsHaveCauses(cfg, n, req, a);
    SubsetSize({n.id, req.from}, cfg.members);
  }

  lemma VoteIsCalm(cfg: Config, n: Node, req: VoteRequest, a: VoteAnswers)
    requires n.polling ==> n.role == Candidate
    ensures Calm(cfg, n.id, n, HandleVote(cfg, n, req, a).node)
  {
    hide HandleVote;
    HandlerVoteEffect(cfg, n, req, a);
  }

  lemma DeliveryFair(cfg: Config, s: State, b: Ballot, va: VoteAnswers)
    requires Fair(cfg, s) && b in s.requests && b.voter in s.nodes
    ensures Fair(cfg, Settle(cfg, s, b, va.promotable, HandleVote(cfg, s.nodes[b.voter], s.requests[b], va)))
  {
    hide HandleVote, Settle, MailTrue;
    var n := s.nodes[b.voter];
    var out := HandleVote(cfg, n, s.requests[b], va);
    assert RunnerOK(cfg, b.voter, n, s.books[b.voter]);
    VoteIsCalm(cfg, n, s.requests[b], va);
    hide RunnersOK, RunnerOK;
    SettleMovesOne(cfg, s, b, va.promotable, out);
    CalmMove(cfg, s, Settle(cfg, s, b, va.promotable, out), b.voter, out.node);
    MailAfterDelivery(cfg, s, Settle(cfg, s, b, va.promotable, out), b, va);
  }

  lemma MailAfterDelivery(cfg: Config, s: State, t: State, b: Ballot, va: VoteAnswers)
    requires Fair(cfg, s) && b in s.requests && b.voter in s.nodes
    requires t.requests == s.requests - {b}
    requires t.responses == s.responses[b := HandleVote(cfg, s.nodes[b.voter], s.requests[b], va).rsp]
    ensures MailTrue(cfg, t)
  {
    hide HandleVote;
    var n := s.nodes[b.voter];
    assert RunnerOK(cfg, b.voter, n, s.books[b.voter]);
    RefusalsHaveCauses(cfg, n, s.requests[b], va);
    if Denies(HandleVote(cfg, n, s.requests[b], va).rsp.code) {
      DenierIsMember(cfg, n, s.requests[b], va);
    }
  }

  /** What the loop does with an answer of its round. */
  lemma AnswerTaken(cfg: Config, x: NodeId, n: Node, k: Book, l: Book, y: NodeId, rsp: VoteResponse)
    requires RunnerOK(cfg, x, n, k) && n.polling && l.taken == k.taken[y := rsp]
    requires Denies(rsp.code) ==> |cfg.members| >= 2
    requires rsp.code == ErrorInvalidViewID ==> rsp.view >= n.round
    ensures RunnerOK(cfg, x, ReceiveVote(cfg, n, rsp), l)
    ensures Denies(rsp.code) ==> !Running(ReceiveVote(cfg, n, rsp))
  {
  }

  lemma TakingFair(cfg: Config, s: State, b: Ballot)
    requires Fair(cfg, s) && b in s.responses && b.cand in s.nodes
    ensures Fair(cfg, Take(cfg, s, b))
  {
    hide ReceiveVote, Absorb, RunnerOK;
    var n, t := s.nodes[b.cand], Take(cfg, s, b);
    assert RunnerOK(cfg, b.cand, n, s.books[b.cand]);
    if n.polling && n.round == b.view {
      var m := ReceiveVote(cfg, n, s.responses[b]);
      AbsorbMovesOne(cfg, s, b, m);
      AnswerTaken(cfg, b.cand, n, s.books[b.cand], t.books[b.cand], b.voter, s.responses[b]);
      RunnersFrame(cfg, s, t, b.cand);
    }
  }

  // ---------------------------------------------------------------- every step, every run

  lemma LocalFair(cfg: Config, s: State, a: Action)
    requires Fair(cfg, s) && Enabled(cfg, s, a) && IsLocal(a)
    ensures Fair(cfg, Step(cfg, s, a))
  {
    hide Step, Put, Moved, MailTrue;
    LocalMover(cfg, s, a);
    assert RunnerOK(cfg, a.x, s.nodes[a.x], s.books[a.x]);
    MovedIsUpward(cfg, a.x, s.nodes[a.x], a);
    UpwardIsCalm(cfg, a.x, s.nodes[a.x], Moved(cfg, s.nodes[a.x], a));
    CalmStep(cfg, s, a.x, Moved(cfg, s.nodes[a.x], a));
  }

  lemma AskFair(cfg: Config, s: State, x: NodeId, to: NodeId, localError: bool)
    requires Fair(cfg, s) && x in s.nodes
    ensures Fair(cfg, Ask(cfg, s, x, to, localError))
  {
    var t := Ask(cfg, s, x, to, localError);
    forall y | y in t.nodes ensures RunnerOK(cfg, y, t.nodes[y], t.books[y]) {
      assert RunnerOK(cfg, y, s.nodes[y], s.books[y]);
    }
  }

  lemma BeatFair(cfg: Config, s: State, x: NodeId, hb: Heartbeat, ba: BeatAnswers)
    requires Fair(cfg, s) && x in s.nodes
    ensures Fair(cfg, Put(cfg, s, x, HandleBeat(cfg, s.nodes[x], hb, ba).node))
  {
    hide Put, HandleBeat, MailTrue;
    assert RunnerOK(cfg, x, s.nodes[x], s.books[x]);
    BeatIsUpward(cfg, s.nodes[x], hb, ba);
    UpwardIsCalm(cfg, x, s.nodes[x], HandleBeat(cfg, s.nodes[x], hb, ba).node);
    CalmStep(cfg, s, x, HandleBeat(cfg, s.nodes[x], hb, ba).node);
  }

  lemma WinFair(cfg: Config, s: State, x: NodeId)
    requires Fair(cfg, s) && x in s.nodes && s.nodes[x].polling
    ensures Fair(cfg, Put(cfg, s, x, CheckVotes(cfg, s.nodes[x])))
  {
    hide Put, MailTrue;
    assert RunnerOK(cfg, x, s.nodes[x], s.books[x]);
    assert Calm(cfg, x, s.nodes[x], CheckVotes(cfg, s.nodes[x]));
    CalmStep(cfg, s, x, CheckVotes(cfg, s.nodes[x]));
  }

  lemma StillFair(cfg: Config, s: State, t: State)
    requires Fair(cfg, s) && Typed(cfg, t) && t.nodes == s.nodes && t.books == s.books
    requires forall b | b in t.requests :: b in s.requests && t.requests[b] == s.requests[b]
    requires forall b | b in t.responses :: b in s.responses && t.responses[b] == s.responses[b]
    ensures Fair(cfg, t)
  {
  }

  lemma MessageFair(cfg: Config, s: State, a: Action)
    requires Fair(cfg, s) && Enabled(cfg, s, a) && !IsLocal(a)
    ensures Fair(cfg, Step(cfg, s, a))
  {
    hide Poll, Ask, Take, Put, Settle, HandleVote, HandleBeat, CheckVotes, RunnersOK, MailTrue, Holders;
    match a
    case StartRound(x) => OpeningFair(cfg, s, x);
    case SendVote(x, to, localError) => AskFair(cfg, s, x, to, localError);
    case LoseRequest(b) => StillFair(cfg, s, Step(cfg, s, a));
    case LoseResponse(b) => StillFair(cfg, s, Step(cfg, s, a));
    case DeliverVote(b, va) => DeliveryFair(cfg, s, b, va);
    case TakeResponse(b) => TakingFair(cfg, s, b);
    case VotesTimeout(x) => WinFair(cfg, s, x);
    case SendBeat(x) => StillFair(cfg, s, Step(cfg, s, a));
    case DeliverBeat(x, hb, ba) => BeatFair(cfg, s, x, hb, ba);
    case Acknowledge(x, p) => StillFair(cfg, s, Step(cfg, s, a));
  }

  lemma FairStep(cfg: Config, s: State, a: Action)
    requires Fair(cfg, s) && Enabled(cfg, s, a)
    ensures Fair(cfg, Step(cfg, s, a))
  {
    hide Step, Fair;
    if IsLocal(a) {
      LocalFair(cfg, s, a);
    } else {
      MessageFair(cfg, s, a);
    }
  }

  lemma FairInit(cfg: Config, s: State)
    requires Init(cfg, s)
    ensures Fair(cfg, s)
  {
    hide Holders;
  }

  lemma {:induction false} FairAt(cfg: Config, run: seq<State>, acts: seq<Action>, i: nat)
    requires IsRun(cfg, run, acts) && i < |run|
    ensures Fair(cfg, run[i])
  {
    hide Step, Enabled, Init, Fair;
    if i == 0 {
      FairInit(cfg, run[0]);
    } else {
      FairAt(cfg, run, acts, i - 1);
      if Enabled(cfg, run[i - 1], acts[i - 1]) {
        FairStep(cfg, run[i - 1], acts[i - 1]);
      }
    }
  }

  // ---------------------------------------------------------------- the theorems

  /** In every run, no node that is in a round, or leads by one, took a denial in it. */
  lemma NoLeaderWasDenied(cfg: Config, run: seq<State>, acts: seq<Action>, i: nat, x: NodeId, y: NodeId)
    requires IsRun(cfg, run, acts) && i < |run|
    requires x in run[i].nodes && x in run[i].books && y in run[i].books[x].taken
    requires Running(run[i].nodes[x])
    ensures run[i].books[x].taken[y].code !in {ErrorInvalidGTID, ErrorInvalidViewID}
  {
    hide IsRun;
    FairAt(cfg, run, acts, i);
    assert RunnerOK(cfg, x, run[i].nodes[x], run[i].books[x]);
  }

  /** x takes b's answer at step i, in the round that asked for it. */
  ghost predicate Takes(cfg: Config, run: seq<State>, acts: seq<Action>, i: nat, b: Ballot) {
    && IsRun(cfg, run, acts) && i < |acts| && acts[i] == TakeResponse(b)
    && b in run[i].responses && b.cand in run[i].nodes
    && run[i].nodes[b.cand].polling && run[i].nodes[b.cand].round == b.view
  }

  lemma TakesStep(cfg: Config, run: seq<State>, acts: seq<Action>, i: nat, b: Ballot)
    requires Takes(cfg, run, acts, i, b)
    ensures |run| == |acts| + 1 && Typed(cfg, run[i]) && Typed(cfg, run[i + 1])
    ensures run[i + 1] == Absorb(cfg, run[i], b, ReceiveVote(cfg, run[i].nodes[b.cand], run[i].responses[b]))
  {
    hide Absorb, Poll, Ask, Put, Settle, HandleVote, HandleBeat, CheckVotes, ReceiveVote, Init;
    assert run[i + 1] == Next(cfg, run[i], acts[i]);
  }

  /** A denial ends the round at once: the candidate becomes a follower of nobody, in the view that
      a rejection carried, or in its own. */
  lemma DenialEndsRound(cfg: Config, run: seq<State>, acts: seq<Action>, i: nat, b: Ballot)
    requires Takes(cfg, run, acts, i, b)
    requires run[i].responses[b].code in {ErrorInvalidGTID, ErrorInvalidViewID}
    ensures b.cand in run[i + 1].nodes && b.cand in run[i + 1].books
    ensures var n := run[i + 1].nodes[b.cand];
            && n.role == Follower && !n.polling && n.leader == NO_ONE
            && if run[i].responses[b].code == ErrorInvalidViewID
               then n.view == run[i].responses[b].view && n.votedFor == NO_ONE
               else n.view == run[i].nodes[b.cand].view && n.votedFor == run[i].nodes[b.cand].votedFor
    ensures b.voter in run[i + 1].books[b.cand].taken
         && run[i + 1].books[b.cand].taken[b.voter] == run[i].responses[b]
  {
    hide IsRun, Absorb, RunnerOK;
    TakesStep(cfg, run, acts, i, b);
    FairAt(cfg, run, acts, i);
    var s, rsp := run[i], run[i].responses[b];
    assert RunnerOK(cfg, b.cand, s.nodes[b.cand], s.books[b.cand]);
    AbsorbMovesOne(cfg, s, b, ReceiveVote(cfg, s.nodes[b.cand], rsp));
    assert Denies(rsp.code);
    DenialMoves(cfg, b.cand, s.nodes[b.cand], s.books[b.cand], rsp);
  }

  lemma DenialMoves(cfg: Config, x: NodeId, n: Node, k: Book, rsp: VoteResponse)
    requires RunnerOK(cfg, x, n, k) && n.polling && Denies(rsp.code) && |cfg.members| >= 2
    ensures var m := ReceiveVote(cfg, n, rsp);
            && m.role == Follower && !m.polling && m.leader == NO_ONE
            && if rsp.code == ErrorInvalidViewID then m.view == rsp.view && m.votedFor == NO_ONE
               else m.view == n.view && m.votedFor == n.votedFor
  {
  }

  /** A later round of x, or its denied one. */
  ghost predicate Past(t: State, x: NodeId, view: nat) {
    && x in t.nodes && x in t.books
    && (t.nodes[x].round > view || (t.nodes[x].round == view && !Undenied(t.books[x])))
  }

  lemma SameRoundsPast(s: State, t: State, x: NodeId, view: nat)
    requires SameRounds(s, t) && Past(s, x, view)
    ensures Past(t, x, view)
  {
  }

  lemma RoundsGoOn(cfg: Config, s: State, a: Action, x: NodeId, view: nat)
    requires Fair(cfg, s) && Enabled(cfg, s, a) && Past(s, x, view)
    ensures Past(Step(cfg, s, a), x, view)
  {
    hide Poll, Ask, Take, Put, Settle, HandleVote, HandleBeat, CheckVotes, Moved, MailTrue, Holders, RunnersOK,
         Undenied, SameRounds;
    var t := Step(cfg, s, a);
    if IsLocal(a) {
      LocalMover(cfg, s, a);
      LocalKeepsRound(cfg, s, a);
      SameRoundsPast(s, t, x, view);
    } else {
      match a
      case StartRound(y) => PollRound(cfg, s, y);
      case SendVote(y, to, localError) =>
        AskRound(cfg, s, y, to, localError);
        SameRoundsPast(s, t, x, view);
      case DeliverVote(b, va) =>
        DeliveryRound(cfg, s, b, va);
        SameRoundsPast(s, t, x, view);
      case TakeResponse(b) => TakingRound(cfg, s, b);
      case VotesTimeout(y) =>
        WinKeepsRound(cfg, s.nodes[y]);
        PutRound(cfg, s, y, CheckVotes(cfg, s.nodes[y]));
        SameRoundsPast(s, t, x, view);
      case DeliverBeat(y, hb, ba) =>
        BeatKeeps(cfg, s.nodes[y], hb, ba);
        PutRound(cfg, s, y, HandleBeat(cfg, s.nodes[y], hb, ba).node);
        SameRoundsPast(s, t, x, view);
      case _ =>
    }
  }

  lemma PutRound(cfg: Config, s: State, y: NodeId, n: Node)
    requires Typed(cfg, s) && y in s.nodes && n.round == s.nodes[y].round
    ensures SameRounds(s, Put(cfg, s, y, n))
  {
    hide Put;
    PutMovesOne(cfg, s, y, n);
    MoveRound(cfg, s, Put(cfg, s, y, n), y, n);
  }

  lemma WinKeepsRound(cfg: Config, n: Node)
    ensures CheckVotes(cfg, n).round == n.round
  {
  }

  lemma LocalKeepsRound(cfg: Config, s: State, a: Action)
    requires Typed(cfg, s) && Enabled(cfg, s, a) && IsLocal(a) && a.x in s.nodes
    ensures SameRounds(s, Put(cfg, s, a.x, Moved(cfg, s.nodes[a.x], a)))
  {
    hide Put, Moved, SameRounds;
    MovedRound(cfg, s.nodes[a.x], a);
    PutRound(cfg, s, a.x, Moved(cfg, s.nodes[a.x], a));
  }

  lemma MovedRound(cfg: Config, n: Node, a: Action)
    requires IsLocal(a)
    ensures Moved(cfg, n, a).round == n.round
  {
  }

  /** No node opens a round, takes an answer or forgets one. */
  ghost predicate SameRounds(s: State, t: State) {
    && t.nodes.Keys == s.nodes.Keys && t.books.Keys == s.books.Keys
    && (forall x | x in s.nodes :: t.nodes[x].round == s.nodes[x].round)
    && (forall x | x in s.books :: t.books[x].taken == s.books[x].taken)
  }

  lemma PollRound(cfg: Config, s: State, y: NodeId)
    requires Fair(cfg, s) && y in s.nodes
    ensures var t := Poll(cfg, s, y);
            && t.nodes[y].round > s.nodes[y].round
            && forall x | x in s.nodes && x != y :: t.nodes[x] == s.nodes[x] && t.books[x] == s.books[x]
  {
    assert RunnerOK(cfg, y, s.nodes[y], s.books[y]);
  }

  lemma AskRound(cfg: Config, s: State, y: NodeId, to: NodeId, localError: bool)
    requires Typed(cfg, s) && y in s.nodes
    ensures SameRounds(s, Ask(cfg, s, y, to, localError))
  {
  }

  lemma MoveRound(cfg: Config, s: State, t: State, y: NodeId, n: Node)
    requires Typed(cfg, s) && y in s.nodes && Moves(cfg, s, t, y, n) && n.round == s.nodes[y].round
    ensures SameRounds(s, t)
  {
  }

  lemma DeliveryRound(cfg: Config, s: State, b: Ballot, va: VoteAnswers)
    requires Typed(cfg, s) && b in s.requests && b.voter in s.nodes
    ensures SameRounds(s, Settle(cfg, s, b, va.promotable, HandleVote(cfg, s.nodes[b.voter], s.requests[b], va)))
  {
    hide HandleVote, Settle;
    var out := HandleVote(cfg, s.nodes[b.voter], s.requests[b], va);
    VoteKeeps(cfg, s.nodes[b.voter], s.requests[b], va);
    SettleMovesOne(cfg, s, b, va.promotable, out);
    MoveRound(cfg, s, Settle(cfg, s, b, va.promotable, out), b.voter, out.node);
  }

  lemma ReceiveKeepsRound(cfg: Config, n: Node, rsp: VoteResponse)
    ensures ReceiveVote(cfg, n, rsp).round == n.round
  {
  }

  /** An answer is taken only in a round without denials, so what was denied stays in the book. */
  lemma TakingRound(cfg: Config, s: State, b: Ballot)
    requires Fair(cfg, s) && b in s.responses && b.cand in s.nodes
    ensures var t := Take(cfg, s, b);
            && t.nodes.Keys == s.nodes.Keys && t.books.Keys == s.books.Keys
            && forall x | x in s.nodes ::
                 t.nodes[x].round == s.nodes[x].round && (!Undenied(s.books[x]) ==> !Undenied(t.books[x]))
  {
    hide Absorb, ReceiveVote, Undenied;
    var n := s.nodes[b.cand];
    assert RunnerOK(cfg, b.cand, n, s.books[b.cand]);
    ReceiveKeepsRound(cfg, n, s.responses[b]);
    AbsorbMovesOne(cfg, s, b, ReceiveVote(cfg, n, s.responses[b]));
  }

  lemma {:induction false} PastFor(cfg: Config, run: seq<State>, acts: seq<Action>, i: nat, j: nat, x: NodeId,
                                   view: nat)
    requires IsRun(cfg, run, acts) && i <= j < |run| && Past(run[i], x, view)
    ensures Past(run[j], x, view)
    decreases j - i
  {
    hide Past, Step, Enabled, Init, Fair;
    if i < j {
      PastFor(cfg, run, acts, i, j - 1, x, view);
      FairAt(cfg, run, acts, j - 1);
      if Enabled(cfg, run[j - 1], acts[j - 1]) {
        RoundsGoOn(cfg, run[j - 1], acts[j - 1], x, view);
      }
    } else {
    }
  }

  /** A round in which a denial was taken is never won, nor returned to. */
  lemma DeniedRoundIsLost(cfg: Config, run: seq<State>, acts: seq<Action>, i: nat, b: Ballot, j: nat)
    requires Takes(cfg, run, acts, i, b) && i < j < |run|
    requires run[i].responses[b].code in {ErrorInvalidGTID, ErrorInvalidViewID}
    ensures b.cand in run[j].nodes && !(Running(run[j].nodes[b.cand]) && run[j].nodes[b.cand].round == b.view)
  {
    hide IsRun, Running;
    DenialEndsRound(cfg, run, acts, i, b);
    DenialIsPast(cfg, run, acts, i, b);
    PastFor(cfg, run, acts, i + 1, j, b.cand, b.view);
    FairAt(cfg, run, acts, j);
    assert RunnerOK(cfg, b.cand, run[j].nodes[b.cand], run[j].books[b.cand]);
  }

  lemma DenialIsPast(cfg: Config, run: seq<State>, acts: seq<Action>, i: nat, b: Ballot)
    requires Takes(cfg, run, acts, i, b) && Denies(run[i].responses[b].code)
    ensures Past(run[i + 1], b.cand, b.view)
  {
    hide IsRun, Running, Absorb, ReceiveVote, Undenied;
    TakesStep(cfg, run, acts, i, b);
    ReceiveKeepsRound(cfg, run[i].nodes[b.cand], run[i].responses[b]);
    AbsorbMovesOne(cfg, run[i], b, ReceiveVote(cfg, run[i].nodes[b.cand], run[i].responses[b]));
    DenialIsKept(run[i + 1].books[b.cand], b.voter);
  }

  lemma DenialIsKept(k: Book, y: NodeId)
    requires y in k.taken && Denies(k.taken[y].code)
    ensures !Undenied(k)
  {
  }

  // ---------------------------------------------------------------- winning

  /** Among three or more, a candidate wins at the check-votes timeout exactly with the votes of
      more than half of the members, and otherwise goes on as it was. */
  lemma WinsByMajority(cfg: Config, run: seq<State>, acts: seq<Action>, i: nat, x: NodeId)
    requires IsRun(cfg, run, acts) && i < |acts| && |cfg.members| >= 3 && acts[i] == VotesTimeout(x)
    requires Typed(cfg, run[i]) && Enabled(cfg, run[i], acts[i])
    ensures x in run[i + 1].nodes
    ensures if 2 * (1 + |run[i].books[x].tally|) > |cfg.members|
            then run[i + 1].nodes[x].role == Leader && run[i + 1].nodes[x].leader == x
            else run[i + 1].nodes[x] == run[i].nodes[x]
  {
    hide IsRun, Inv, Step, Holders;
    RunStep(cfg, run, acts, i);
    InvAt(cfg, run, acts, i);
    PollerCounts(cfg, run[i], x);
    TimeoutStep(cfg, run[i], x);
  }

  lemma RunStep(cfg: Config, run: seq<State>, acts: seq<Action>, i: nat)
    requires IsRun(cfg, run, acts) && i < |acts|
    ensures |run| == |acts| + 1 && Typed(cfg, run[i]) && run[i + 1] == Next(cfg, run[i], acts[i])
  {
    hide Next, Init;
  }

  lemma TimeoutStep(cfg: Config, s: State, x: NodeId)
    requires Typed(cfg, s) && Enabled(cfg, s, VotesTimeout(x))
    ensures Next(cfg, s, VotesTimeout(x)).nodes == s.nodes[x := CheckVotes(cfg, s.nodes[x])]
  {
    hide Holders, CheckVotes;
  }

  lemma PollerCounts(cfg: Config, s: State, x: NodeId)
    requires Inv(cfg, s) && x in s.nodes && s.nodes[x].polling
    ensures s.nodes[x].id == x && s.nodes[x].votes == 1 + |s.books[x].tally| < |cfg.members|
    ensures forall b | b in s.responses && b.cand == x && b.view == s.nodes[x].round :: b.voter !in s.books[x].tally
  {
    hide GrantsOK, OneVotePerView, TalliesOK, RequestsOK;
    assert NodeOK(cfg, x, s.nodes[x], s.books[x]);
    forall b | b in s.responses && b.cand == x && b.view == s.nodes[x].round ensures b.voter !in s.books[x].tally {
      assert MailOK(b, s.nodes[x].round, s.books[x]);
    }
  }

  /** Among three or more, an answer that is no denial is either one more vote, with which the
      candidate leads at once exactly if it now has everybody's, or changes nothing. */
  lemma AnswerCounts(cfg: Config, run: seq<State>, acts: seq<Action>, i: nat, b: Ballot)
    requires Takes(cfg, run, acts, i, b) && |cfg.members| >= 3
    requires run[i].responses[b].code !in {ErrorInvalidGTID, ErrorInvalidViewID}
    ensures b.cand in run[i + 1].nodes && b.cand in run[i].books && b.cand in run[i + 1].books
    ensures var t, k, l := run[i + 1].nodes[b.cand], run[i].books[b.cand].tally, run[i + 1].books[b.cand].tally;
            if Counts(run[i].responses[b]) then
              && l == k + {b.voter} && |l| == |k| + 1
              && (t.role == Leader <==> 1 + |l| == |cfg.members|)
              && (t.role != Leader ==> t == run[i].nodes[b.cand].(votes := 1 + |l|))
            else
              l == k && t == run[i].nodes[b.cand]
  {
    hide IsRun, Inv, Absorb, ReceiveVote;
    TakesStep(cfg, run, acts, i, b);
    InvAt(cfg, run, acts, i);
    PollerCounts(cfg, run[i], b.cand);
    var n, rsp := run[i].nodes[b.cand], run[i].responses[b];
    TakeShapes(cfg, run[i], b, ReceiveVote(cfg, n, rsp));
    CountedOrNot(cfg, n, rsp);
    CandidateIs(cfg, run[i], b.cand);
  }

  lemma CandidateIs(cfg: Config, s: State, x: NodeId)
    requires Inv(cfg, s) && x in s.nodes && s.nodes[x].polling
    ensures s.nodes[x].role == Candidate
  {
    assert NodeOK(cfg, x, s.nodes[x], s.books[x]);
  }

  lemma CountedOrNot(cfg: Config, n: Node, rsp: VoteResponse)
    requires |cfg.members| >= 3 && n.votes < |cfg.members| && !Denies(rsp.code)
    ensures var m := ReceiveVote(cfg, n, rsp);
            if Counts(rsp) then
              if n.votes + 1 == |cfg.members| then m.role == Leader && m.leader == n.id
              else m == n.(votes := n.votes + 1)
            else m == n
  {
  }

  // ---------------------------------------------------------------- opening a round

  /** A round opens in a view one above the node's, with nobody asked, no answer taken and no vote on
      record, not even its own: the candidate may still vote for another in its own round. */
  lemma RoundOpens(cfg: Config, run: seq<State>, acts: seq<Action>, i: nat, x: NodeId)
    requires IsRun(cfg, run, acts) && i < |acts| && acts[i] == StartRound(x)
    requires Typed(cfg, run[i]) && Enabled(cfg, run[i], acts[i])
    ensures x in run[i + 1].nodes && x in run[i + 1].books
    ensures var n, m, k := run[i].nodes[x], run[i + 1].nodes[x], run[i + 1].books[x];
            && m.view == m.round == n.view + 1 && m.polling && m.role == Candidate
            && k.sent == {} && k.tally == {} && k.taken == map[] && m.votes == 1
            && m.leader == n.leader && m.pos == n.pos && m.io == n.io && m.changeError == n.changeError
            && forall req: VoteRequest | req.view == m.view :: VoteFree(m, req)
  {
    hide IsRun, Holders, Put;
    RunStep(cfg, run, acts, i);
    PollShapes(cfg, run[i], x);
  }

  // ---------------------------------------------------------------- being voted for

  lemma DeliveryStep(cfg: Config, s: State, b: Ballot, va: VoteAnswers)
    requires Typed(cfg, s) && b in s.requests && b.voter in s.nodes
    ensures Next(cfg, s, DeliverVote(b, va))
         == Settle(cfg, s, b, va.promotable, HandleVote(cfg, s.nodes[b.voter], s.requests[b], va))
  {
    hide Settle, HandleVote, Holders;
  }

  /** In every run a request that reaches a node is answered, and gets its vote exactly if it
      deserves it; the voter then follows nobody but as before, and waits in the request's view. */
  lemma VotesAreGivenExactly(cfg: Config, run: seq<State>, acts: seq<Action>, i: nat, b: Ballot, va: VoteAnswers)
    requires IsRun(cfg, run, acts) && i < |acts| && acts[i] == DeliverVote(b, va)
    requires b in run[i].requests && b.voter in run[i].nodes
    ensures b !in run[i + 1].requests && b in run[i + 1].responses && b.voter in run[i + 1].nodes
    ensures var n, m, req := run[i].nodes[b.voter], run[i + 1].nodes[b.voter], run[i].requests[b];
            if Deserves(cfg, n, req, va) then
              && Counts(run[i + 1].responses[b]) && b in run[i + 1].grants
              && m.role == Follower && m.view == req.view && m.votedFor == req.from
              && m.leader in {n.leader, NO_ONE}
            else
              !Counts(run[i + 1].responses[b]) && run[i + 1].grants == run[i].grants && m.role == n.role
  {
    hide IsRun, Settle, HandleVote, Next;
    RunStep(cfg, run, acts, i);
    var s := run[i];
    var out := HandleVote(cfg, s.nodes[b.voter], s.requests[b], va);
    DeliveryStep(cfg, s, b, va);
    VoteShapes(cfg, s, b, va.promotable, out);
    VoteGivenExactly(cfg, s.nodes[b.voter], s.requests[b], va);
    if Deserves(cfg, s.nodes[b.voter], s.requests[b], va) {
      GrantLeaves(cfg, s.nodes[b.voter], s.requests[b], va);
    } else {
      RefusalLeaves(cfg, s.nodes[b.voter], s.requests[b], va);
    }
  }
}
