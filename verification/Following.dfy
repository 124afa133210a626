/** Whom a node follows over whole runs, what lets a voter take in data again, and which steps
    change a role. */
module Following {
  import opened RaftNode
  import opened Cluster
  import opened ElectionSafety
  import opened Durability
  import opened Replies
  import opened Rounds

  // ---------------------------------------------------------------- old heartbeats

  lemma BeatStepIs(cfg: Config, s: State, x: NodeId, hb: Heartbeat, ba: BeatAnswers)
    requires Typed(cfg, s) && Enabled(cfg, s, DeliverBeat(x, hb, ba))
    ensures Next(cfg, s, DeliverBeat(x, hb, ba)) == Put(cfg, s, x, HandleBeat(cfg, s.nodes[x], hb, ba).node)
  {
    hide Put, HandleBeat, Holders;
  }

  lemma PutSame(cfg: Config, s: State, x: NodeId)
    requires Typed(cfg, s) && x in s.nodes
    ensures Put(cfg, s, x, s.nodes[x]) == s
  {
    assert s.nodes[x := s.nodes[x]] == s.nodes;
    assert s.books[x := s.books[x]] == s.books;
  }

  /** A heartbeat of a view below the receiver's changes nothing at all. */
  lemma OldBeatIsIgnored(cfg: Config, run: seq<State>, acts: seq<Action>, i: nat, x: NodeId, hb: Heartbeat,
                         ba: BeatAnswers)
    requires IsRun(cfg, run, acts) && i < |acts| && acts[i] == DeliverBeat(x, hb, ba)
    requires x in run[i].nodes && hb.view < run[i].nodes[x].view
    ensures run[i + 1] == run[i]
  {
    hide Step, HandleBeat, Put, Init;
    var s := run[i];
    if Enabled(cfg, s, acts[i]) {
      BeatStepIs(cfg, s, x, hb, ba);
      UnheededIfOld(cfg, s.nodes[x], hb, ba);
      PutSame(cfg, s, x);
    }
  }

  lemma UnheededIfOld(cfg: Config, n: Node, hb: Heartbeat, ba: BeatAnswers)
    requires hb.view < n.view
    ensures HandleBeat(cfg, n, hb, ba).node == n
  {
    hide HandleBeat;
    UnheededBeat(cfg, n, hb, ba);
  }

  /** Hence no heartbeat of a view below that of a vote reaches the voter: its data stays frozen,
      and an old leader does not become its leader again. */
  lemma OldLeaderIsIgnored(cfg: Config, run: seq<State>, acts: seq<Action>, i: nat, b: Ballot, hb: Heartbeat,
                           ba: BeatAnswers)
    requires IsRun(cfg, run, acts) && i < |acts| && |cfg.members| >= 3
    requires b in run[i].grants && acts[i] == DeliverBeat(b.voter, hb, ba) && hb.view < b.view
    ensures run[i + 1] == run[i]
  {
    hide Next, Init;
    InvAt(cfg, run, acts, i);
    VoterIsMember(cfg, run[i], b);
    ViewFloor(cfg, run, acts, i, b.voter);
    OldBeatIsIgnored(cfg, run, acts, i, b.voter, hb, ba);
  }

  lemma VoterIsMember(cfg: Config, s: State, b: Ballot)
    requires Inv(cfg, s) && b in s.grants
    ensures b.voter in s.nodes && b.voter in s.books && b.voter in cfg.members
  {
    hide NodesOK, TalliesOK, RequestsOK, ResponsesOK, OneVotePerView, GrantOK;
  }

  // ---------------------------------------------------------------- what unfreezes a voter

  /** Node x begins to take in data. */
  predicate Thaws(m: Node, n: Node) {
    (n.io && !m.io) || (n.role == Leader && m.role != Leader) || (n.pos > m.pos && !m.io && m.role != Leader)
  }

  lemma PutThaws(cfg: Config, s: State, x: NodeId, n: Node, y: NodeId)
    requires Typed(cfg, s) && x in s.nodes && y in s.books
    requires Put(cfg, s, x, n).books[y].intake != s.books[y].intake
    ensures x == y && Thaws(s.nodes[x], n)
  {
  }

  /** The steps that can make node y, whose IO thread does not run, take in data again. */
  predicate MayThaw(cfg: Config, s: State, t: State, a: Action, y: NodeId) {
    y in s.nodes && y in t.nodes &&
    (|| a == StartSlave(y)
     || (a.Write? && a.x == y)
     || (a.DeliverBeat? && a.x == y && a.hb.view >= s.nodes[y].view && a.hb.from in cfg.members && a.hb.from != y)
     || (t.nodes[y].role == Leader && s.nodes[y].role != Leader))
  }

  lemma LocalThaw(cfg: Config, n: Node, a: Action)
    requires IsLocal(a) && !n.io && n.role != Leader && Thaws(n, Moved(cfg, n, a))
    ensures a.StartSlave? || a.Write? || a.Replicate?
  {
  }

  lemma VoteThaw(cfg: Config, n: Node, req: VoteRequest, va: VoteAnswers)
    ensures !Thaws(n, HandleVote(cfg, n, req, va).node)
  {
    hide HandleVote;
    VoteFreezes(cfg, n, req, va);
    VoteKeeps(cfg, n, req, va);
    if Deserves(cfg, n, req, va) {
      GrantLeaves(cfg, n, req, va);
    } else {
      RefusalLeaves(cfg, n, req, va);
    }
  }

  lemma LoopThaw(cfg: Config, n: Node, rsp: VoteResponse)
    ensures Thaws(n, ReceiveVote(cfg, n, rsp)) ==> ReceiveVote(cfg, n, rsp).role == Leader && n.role != Leader
    ensures Thaws(n, CheckVotes(cfg, n)) ==> CheckVotes(cfg, n).role == Leader && n.role != Leader
  {
  }

  lemma ThawStep(cfg: Config, s: State, a: Action, y: NodeId)
    requires Typed(cfg, s) && Enabled(cfg, s, a) && y in s.nodes && s.nodes[y].id == y
    requires !s.nodes[y].io && s.nodes[y].role != Leader
    requires Step(cfg, s, a).books[y].intake != s.books[y].intake
    ensures MayThaw(cfg, s, Step(cfg, s, a), a, y)
  {
    hide Put, Moved, HandleVote, HandleBeat, ReceiveVote, CheckVotes, Settle, Absorb, Holders, Thaws, Poll, Ask;
    if IsLocal(a) {
      LocalMover(cfg, s, a);
      PutThaws(cfg, s, a.x, Moved(cfg, s.nodes[a.x], a), y);
      LocalThaw(cfg, s.nodes[a.x], a);
    } else {
      match a
      case StartRound(x) => PollThaw(cfg, s, x, y);
      case SendVote(x, to, localError) => AskThaw(cfg, s, x, to, localError, y);
      case DeliverVote(b, va) =>
        SettleThaw(cfg, s, b, va.promotable, HandleVote(cfg, s.nodes[b.voter], s.requests[b], va), y);
        VoteThaw(cfg, s.nodes[b.voter], s.requests[b], va);
      case TakeResponse(b) => TakeThaw(cfg, s, b, y);
      case VotesTimeout(x) =>
        PutThaws(cfg, s, x, CheckVotes(cfg, s.nodes[x]), y);
        PutMovesOne(cfg, s, x, CheckVotes(cfg, s.nodes[x]));
        LoopThaw(cfg, s.nodes[x], VoteResponse(OK, 0, Follower));
      case DeliverBeat(x, hb, ba) =>
        PutThaws(cfg, s, x, HandleBeat(cfg, s.nodes[x], hb, ba).node, y);
        BeatThaw(cfg, s.nodes[x], hb, ba);
      case _ =>
    }
  }

  lemma BeatThaw(cfg: Config, n: Node, hb: Heartbeat, ba: BeatAnswers)
    requires Thaws(n, HandleBeat(cfg, n, hb, ba).node)
    ensures Heeded(cfg, n, hb)
  {
    hide HandleBeat;
    if !Heeded(cfg, n, hb) {
      UnheededBeat(cfg, n, hb, ba);
    }
  }

  lemma PollThaw(cfg: Config, s: State, x: NodeId, y: NodeId)
    requires Typed(cfg, s) && x in s.nodes && y in s.books
    ensures Poll(cfg, s, x).books[y].intake == s.books[y].intake
  {
  }

  lemma AskThaw(cfg: Config, s: State, x: NodeId, to: NodeId, localError: bool, y: NodeId)
    requires Typed(cfg, s) && x in s.nodes && y in s.books
    ensures Ask(cfg, s, x, to, localError).books[y].intake == s.books[y].intake
  {
  }

  lemma SettleThaw(cfg: Config, s: State, b: Ballot, promotable: bool, out: VoteOutcome, y: NodeId)
    requires Typed(cfg, s) && b in s.requests && b.voter in s.nodes && y in s.books
    requires Settle(cfg, s, b, promotable, out).books[y].intake != s.books[y].intake
    ensures b.voter == y && Thaws(s.nodes[y], out.node)
  {
  }

  lemma TakeThaw(cfg: Config, s: State, b: Ballot, y: NodeId)
    requires Typed(cfg, s) && b in s.responses && b.cand in s.nodes && y in s.nodes
    requires Take(cfg, s, b).books[y].intake != s.books[y].intake
    ensures var t := Take(cfg, s, b);
            t.nodes[y].role == Leader && s.nodes[y].role != Leader
  {
    hide ReceiveVote, Thaws;
    var n := ReceiveVote(cfg, s.nodes[b.cand], s.responses[b]);
    PutThaws(cfg, s, b.cand, n, y);
    LoopThaw(cfg, s.nodes[b.cand], s.responses[b]);
  }

  /** In every run the data of a frozen voter stays as it was at its vote until an operator starts
      its IO thread, something is written to it, a leader of the vote's view or a later one
      reaches it, or it leads itself. */
  lemma FrozenUntil(cfg: Config, run: seq<State>, acts: seq<Action>, i: nat, b: Ballot)
    requires IsRun(cfg, run, acts) && i < |acts| && |cfg.members| >= 3 && b in run[i].grants
    requires Frozen(run[i], b, run[i].grants[b]) && !Frozen(run[i + 1], b, run[i].grants[b])
    ensures MayThaw(cfg, run[i], run[i + 1], acts[i], b.voter)
    ensures acts[i].DeliverBeat? ==> acts[i].hb.view >= b.view
  {
    hide IsRun, Step, Enabled, DataInv, Inv, MayThaw, Fair;
    RunStep(cfg, run, acts, i);
    FairAt(cfg, run, acts, i);
    DataAt(cfg, run, acts, i);
    FrozenNode(cfg, run[i], b);
    BooksStay(cfg, run, acts, i, b.voter);
    ThawStep(cfg, run[i], acts[i], b.voter);
    if acts[i].DeliverBeat? && acts[i].hb.view < b.view {
      BeatReaches(cfg, run[i], acts[i]);
      OldBeatThaws(cfg, run[i], run[i + 1], acts[i], b.voter);
      OldLeaderIsIgnored(cfg, run, acts, i, b, acts[i].hb, acts[i].ba);
    }
  }

  ghost predicate Frozen(t: State, b: Ballot, g: Grant) {
    b.voter in t.books && StillFrozen(g, t.books[b.voter])
  }

  lemma BooksStay(cfg: Config, run: seq<State>, acts: seq<Action>, i: nat, x: NodeId)
    requires IsRun(cfg, run, acts) && i < |acts| && x in run[i].books
    ensures Typed(cfg, run[i]) && Typed(cfg, run[i + 1]) && x in run[i + 1].books
    ensures run[i + 1] != run[i] ==> Enabled(cfg, run[i], acts[i]) && run[i + 1] == Step(cfg, run[i], acts[i])
  {
    hide Step, Enabled, Init;
    RunStep(cfg, run, acts, i);
  }

  lemma BeatReaches(cfg: Config, s: State, a: Action)
    requires Typed(cfg, s) && a.DeliverBeat? && Enabled(cfg, s, a)
    ensures a.x in s.nodes && Step(cfg, s, a) == Put(cfg, s, a.x, HandleBeat(cfg, s.nodes[a.x], a.hb, a.ba).node)
  {
    hide HandleBeat, Put, Holders;
  }

  /** A heartbeat thaws nobody but its receiver. */
  lemma OldBeatThaws(cfg: Config, s: State, t: State, a: Action, y: NodeId)
    requires Typed(cfg, s) && MayThaw(cfg, s, t, a, y) && a.DeliverBeat? && a.x in s.nodes
    requires t == Put(cfg, s, a.x, HandleBeat(cfg, s.nodes[a.x], a.hb, a.ba).node)
    ensures a.x == y
  {
    hide HandleBeat, Put;
    if a.x != y {
      PutMovesOne(cfg, s, a.x, HandleBeat(cfg, s.nodes[a.x], a.hb, a.ba).node);
    }
  }

  lemma FrozenNode(cfg: Config, s: State, b: Ballot)
    requires DataInv(cfg, s) && b in s.grants && b.voter in s.books && StillFrozen(s.grants[b], s.books[b.voter])
    ensures b.voter in s.nodes && s.nodes[b.voter].id == b.voter
    ensures !s.nodes[b.voter].io && s.nodes[b.voter].role != Leader
  {
    hide GrantsOK, TalliesOK, RequestsOK, ResponsesOK, OneVotePerView, AskedOK, OpeningsOK, AckedOK;
    assert GrantPositionOK(cfg, s, b, s.grants[b]);
    assert NodeOK(cfg, b.voter, s.nodes[b.voter], s.books[b.voter]);
  }

  // ---------------------------------------------------------------- whom a node follows

  /** A node forgets its leader, or follows itself as it begins to lead, or, by a heartbeat that it
      heeds, the member that sent it, in that heartbeat's view. */
  predicate FollowsAnew(cfg: Config, n: Node, m: Node, y: NodeId, a: Action) {
    || m.leader == n.leader
    || m.leader == NO_ONE
    || (m.role == Leader && n.role != Leader && m.leader == y)
    || (a.DeliverBeat? && a.x == y && a.hb.from in cfg.members && a.hb.from != y && n.view <= a.hb.view
        && m.leader == a.hb.from && m.view == a.hb.view)
  }

  lemma VoteLeader(cfg: Config, n: Node, req: VoteRequest, va: VoteAnswers)
    ensures HandleVote(cfg, n, req, va).node.leader in {n.leader, NO_ONE}
  {
    hide HandleVote;
    if Deserves(cfg, n, req, va) {
      GrantLeaves(cfg, n, req, va);
    } else {
      RefusalLeaves(cfg, n, req, va);
    }
  }

  lemma BeatLeader(cfg: Config, n: Node, hb: Heartbeat, ba: BeatAnswers)
    ensures var m := HandleBeat(cfg, n, hb, ba).node;
            m.leader in {n.leader, NO_ONE} || (Heeded(cfg, n, hb) && m.leader == hb.from && m.view == hb.view)
  {
    hide HandleBeat;
    if !Heeded(cfg, n, hb) {
      UnheededBeat(cfg, n, hb, ba);
    } else {
      BeatAnswered(cfg, n, hb, ba);
      if HandleBeat(cfg, n, hb, ba).code == OK {
        BeatFollowed(cfg, n, hb, ba);
      } else {
        FailedChangeLeaves(cfg, n, hb, ba);
      }
    }
  }

  lemma LocalLeader(cfg: Config, n: Node, a: Action)
    requires IsLocal(a)
    ensures Moved(cfg, n, a).leader in {n.leader, NO_ONE}
  {
  }

  lemma LoopLeader(cfg: Config, n: Node, rsp: VoteResponse)
    requires n.role == Candidate
    ensures var m := ReceiveVote(cfg, n, rsp);
            m.leader in {n.leader, NO_ONE} || (m.role == Leader && m.leader == n.id)
  {
    hide CountVote;
    CountLeader(cfg, n, rsp);
  }

  lemma CountLeader(cfg: Config, n: Node, rsp: VoteResponse)
    ensures CountVote(cfg, n, rsp).leader in {n.leader, NO_ONE} && CountVote(cfg, n, rsp).id == n.id
  {
  }

  lemma WinLeader(cfg: Config, n: Node)
    ensures var m := CheckVotes(cfg, n);
            m.leader in {n.leader, NO_ONE} || (m.role == Leader && m.leader == n.id)
  {
  }

  lemma FollowTake(cfg: Config, s: State, b: Ballot, y: NodeId, a: Action)
    requires Fair(cfg, s) && b in s.responses && b.cand in s.nodes && y in s.nodes
    ensures FollowsAnew(cfg, s.nodes[y], Take(cfg, s, b).nodes[y], y, a)
  {
    hide ReceiveVote, Absorb, MailTrue, RunnerOK;
    var n := s.nodes[b.cand];
    RunnerIs(cfg, s, b.cand);
    AbsorbMovesOne(cfg, s, b, ReceiveVote(cfg, n, s.responses[b]));
    if n.polling {
      LoopLeader(cfg, n, s.responses[b]);
    }
  }

  lemma RunnerIs(cfg: Config, s: State, x: NodeId)
    requires Fair(cfg, s) && x in s.nodes
    ensures s.nodes[x].id == x && (s.nodes[x].polling ==> s.nodes[x].role == Candidate)
    ensures x in cfg.idles ==> s.nodes[x].role == Idle
  {
    assert RunnerOK(cfg, x, s.nodes[x], s.books[x]);
  }

  lemma FollowWin(cfg: Config, s: State, x: NodeId, y: NodeId, a: Action)
    requires Fair(cfg, s) && x in s.nodes && s.nodes[x].role == Candidate && y in s.nodes
    ensures FollowsAnew(cfg, s.nodes[y], Put(cfg, s, x, CheckVotes(cfg, s.nodes[x])).nodes[y], y, a)
  {
    hide CheckVotes, Put, MailTrue;
    assert RunnerOK(cfg, x, s.nodes[x], s.books[x]);
    PutMovesOne(cfg, s, x, CheckVotes(cfg, s.nodes[x]));
    WinLeader(cfg, s.nodes[x]);
  }

  lemma FollowLocal(cfg: Config, s: State, a: Action, y: NodeId)
    requires Typed(cfg, s) && Enabled(cfg, s, a) && IsLocal(a) && y in s.nodes
    ensures FollowsAnew(cfg, s.nodes[y], Step(cfg, s, a).nodes[y], y, a)
  {
    hide Step, Put, Moved;
    LocalMover(cfg, s, a);
    PutMovesOne(cfg, s, a.x, Moved(cfg, s.nodes[a.x], a));
    LocalLeader(cfg, s.nodes[a.x], a);
  }

  lemma FollowBeat(cfg: Config, s: State, a: Action, y: NodeId)
    requires Fair(cfg, s) && a.DeliverBeat? && a.x in s.nodes && y in s.nodes
    ensures var t := Put(cfg, s, a.x, HandleBeat(cfg, s.nodes[a.x], a.hb, a.ba).node);
            FollowsAnew(cfg, s.nodes[y], t.nodes[y], y, a)
  {
    hide HandleBeat, Put, MailTrue;
    assert RunnerOK(cfg, a.x, s.nodes[a.x], s.books[a.x]);
    PutMovesOne(cfg, s, a.x, HandleBeat(cfg, s.nodes[a.x], a.hb, a.ba).node);
    BeatLeader(cfg, s.nodes[a.x], a.hb, a.ba);
  }

  lemma FollowVote(cfg: Config, s: State, b: Ballot, va: VoteAnswers, y: NodeId, a: Action)
    requires Typed(cfg, s) && b in s.requests && b.voter in s.nodes && y in s.nodes
    ensures var t := Settle(cfg, s, b, va.promotable, HandleVote(cfg, s.nodes[b.voter], s.requests[b], va));
            FollowsAnew(cfg, s.nodes[y], t.nodes[y], y, a)
  {
    hide HandleVote, Settle;
    SettleMovesOne(cfg, s, b, va.promotable, HandleVote(cfg, s.nodes[b.voter], s.requests[b], va));
    VoteLeader(cfg, s.nodes[b.voter], s.requests[b], va);
  }

  lemma FollowAsking(cfg: Config, s: State, a: Action, y: NodeId)
    requires Typed(cfg, s) && Enabled(cfg, s, a) && (a.StartRound? || a.SendVote?) && y in s.nodes
    ensures FollowsAnew(cfg, s.nodes[y], Step(cfg, s, a).nodes[y], y, a)
  {
    hide Ask, Poll, Holders;
    if a.StartRound? {
      PollShapes(cfg, s, a.x);
    } else {
      AskShapes(cfg, s, a.x, a.to, a.localError);
    }
  }

  /** What one step does to node y. */
  lemma FollowStep(cfg: Config, s: State, a: Action, y: NodeId)
    requires Fair(cfg, s) && Enabled(cfg, s, a) && y in s.nodes
    ensures FollowsAnew(cfg, s.nodes[y], Step(cfg, s, a).nodes[y], y, a)
  {
    hide Put, HandleVote, HandleBeat, CheckVotes, Settle, Take, Holders, Ask, Poll, MailTrue, RunnersOK, FollowsAnew;
    if IsLocal(a) {
      FollowLocal(cfg, s, a, y);
    } else {
      match a
      case StartRound(x) => FollowAsking(cfg, s, a, y);
      case SendVote(x, to, localError) => FollowAsking(cfg, s, a, y);
      case DeliverVote(b, va) => FollowVote(cfg, s, b, va, y, a);
      case TakeResponse(b) => FollowTake(cfg, s, b, y, a);
      case VotesTimeout(x) => FollowWin(cfg, s, x, y, a);
      case DeliverBeat(x, hb, ba) => FollowBeat(cfg, s, a, y);
      case LoseRequest(b) => SameLeader(cfg, s, y, a, Step(cfg, s, a));
      case LoseResponse(b) => SameLeader(cfg, s, y, a, Step(cfg, s, a));
      case SendBeat(x) => SameLeader(cfg, s, y, a, Step(cfg, s, a));
      case Acknowledge(x, p) => SameLeader(cfg, s, y, a, Step(cfg, s, a));
    }
  }

  lemma SameLeader(cfg: Config, s: State, y: NodeId, a: Action, t: State)
    requires y in s.nodes && y in t.nodes && t.nodes[y].leader in {s.nodes[y].leader, NO_ONE}
    ensures FollowsAnew(cfg, s.nodes[y], t.nodes[y], y, a)
  {
  }

  /** At step k or before, y led in this view. */
  ghost predicate HasLed(run: seq<State>, k: nat, y: NodeId, view: nat) {
    exists j :: LedAt(run, j, y, view) && j <= k
  }

  ghost predicate LedAt(run: seq<State>, j: int, y: NodeId, view: nat) {
    0 <= j < |run| && y in run[j].nodes && run[j].nodes[y].role == Leader && run[j].nodes[y].view == view
  }

  lemma BeatsStep(cfg: Config, s: State, a: Action)
    requires Typed(cfg, s) && Enabled(cfg, s, a)
    ensures Step(cfg, s, a).beats ==
            if a.SendBeat? then s.beats + {Heartbeat(a.x, s.nodes[a.x].view)} else s.beats
  {
    hide Moved, HandleVote, HandleBeat, ReceiveVote, CheckVotes, Holders;
    if IsLocal(a) {
      LocalMover(cfg, s, a);
    }
  }

  /** Whoever's heartbeat is under way has led in its view. */
  lemma {:induction false} BeatsComeFromLeaders(cfg: Config, run: seq<State>, acts: seq<Action>, i: nat, hb: Heartbeat)
    requires IsRun(cfg, run, acts) && i < |run| && hb in run[i].beats
    ensures HasLed(run, i, hb.from, hb.view)
  {
    hide IsRun, Step, Enabled, HasLed;
    NoBeatsYet(cfg, run, acts);
    if i == 0 {
    } else {
      var s, a := run[i - 1], acts[i - 1];
      RunStep(cfg, run, acts, i - 1);
      if Enabled(cfg, s, a) {
        BeatsStep(cfg, s, a);
      }
      if hb in s.beats {
        BeatsComeFromLeaders(cfg, run, acts, i - 1, hb);
        LedBefore(run, i - 1, hb);
      } else {
        SenderLeads(cfg, s, a);
        LedNow(run, i - 1, hb);
      }
    }
  }

  lemma NoBeatsYet(cfg: Config, run: seq<State>, acts: seq<Action>)
    requires IsRun(cfg, run, acts)
    ensures |run| == |acts| + 1 && run[0].beats == {}
  {
  }

  lemma LedBefore(run: seq<State>, i: nat, hb: Heartbeat)
    requires HasLed(run, i, hb.from, hb.view)
    ensures HasLed(run, i + 1, hb.from, hb.view)
  {
    hide LedAt;
    var j :| LedAt(run, j, hb.from, hb.view) && j <= i;
    assert LedAt(run, j, hb.from, hb.view) && j <= i + 1;
  }

  lemma LedNow(run: seq<State>, i: nat, hb: Heartbeat)
    requires LedAt(run, i, hb.from, hb.view)
    ensures HasLed(run, i + 1, hb.from, hb.view)
  {
    hide LedAt;
  }

  lemma SenderLeads(cfg: Config, s: State, a: Action)
    requires Typed(cfg, s) && Enabled(cfg, s, a) && a.SendBeat?
    ensures a.x in s.nodes && s.nodes[a.x].role == Leader
  {
  }

  /** In every run a node comes to follow only itself as it begins to lead, or a member that has led
      in the very view the node is then in, which is not below the one it was in. */
  lemma FollowsOnlyLeaders(cfg: Config, run: seq<State>, acts: seq<Action>, i: nat, y: NodeId)
    requires IsRun(cfg, run, acts) && i < |acts| && y in run[i].nodes && y in run[i + 1].nodes
    requires run[i + 1].nodes[y].leader !in {run[i].nodes[y].leader, NO_ONE}
    ensures var n, m := run[i].nodes[y], run[i + 1].nodes[y];
            || (m.leader == y && m.role == Leader && n.role != Leader)
            || (m.leader in cfg.members && m.leader != y && n.view <= m.view && HasLed(run, i, m.leader, m.view))
  {
    hide IsRun, Step, Enabled, HasLed, Fair;
    RunStep(cfg, run, acts, i);
    FairAt(cfg, run, acts, i);
    if Enabled(cfg, run[i], acts[i]) {
      FollowStep(cfg, run[i], acts[i], y);
      if acts[i].DeliverBeat? {
        BeatUnderWay(cfg, run[i], acts[i]);
        BeatsComeFromLeaders(cfg, run, acts, i, acts[i].hb);
      }
    }
  }

  lemma BeatUnderWay(cfg: Config, s: State, a: Action)
    requires Typed(cfg, s) && Enabled(cfg, s, a) && a.DeliverBeat?
    ensures a.hb in s.beats
  {
  }

  // ---------------------------------------------------------------- roles

  /** The ways from one role to another. */
  predicate RoleMoves(n: Node, m: Node, y: NodeId, a: Action) {
    match m.role
    case Leader => n.role == Candidate && n.polling && (a == VotesTimeout(y) || (a.TakeResponse? && a.b.cand == y))
    case Candidate => n.role in {Follower, Learner} && ((a.ElectionTimeout? || a.AskPromotion?) && a.x == y)
    case Idle => a == GoIdle(y)
    case Learner => a == GoLearner(y)
    case Invalid => n.role == Follower && a.DeliverBeat? && a.x == y
    case Follower => n.role in {Candidate, Leader} || (n.role in {Idle, Learner} && a == GoEnabled(y))
  }

  lemma VoteRole(cfg: Config, n: Node, req: VoteRequest, va: VoteAnswers)
    ensures var m := HandleVote(cfg, n, req, va).node;
            m.role == n.role || (n.role in {Candidate, Leader} && m.role == Follower)
  {
    hide HandleVote;
    if Deserves(cfg, n, req, va) {
      GrantLeaves(cfg, n, req, va);
    } else {
      RefusalLeaves(cfg, n, req, va);
    }
  }

  lemma BeatRole(cfg: Config, n: Node, hb: Heartbeat, ba: BeatAnswers)
    ensures var m := HandleBeat(cfg, n, hb, ba).node;
            m.role == n.role || (n.role in {Candidate, Leader} && m.role == Follower)
            || (n.role == Follower && m.role == Invalid)
  {
    hide HandleBeat;
    BeatKeeps(cfg, n, hb, ba);
    if !Heeded(cfg, n, hb) {
      UnheededBeat(cfg, n, hb, ba);
    } else if n.role == Follower {
      LeavesElectionExactly(cfg, n, hb, ba);
    } else if n.role in {Candidate, Leader} {
      BeatAnswered(cfg, n, hb, ba);
      BeatFollowed(cfg, n, hb, ba);
    }
  }

  lemma LoopRole(cfg: Config, n: Node, rsp: VoteResponse)
    requires n.role == Candidate
    ensures ReceiveVote(cfg, n, rsp).role in {Candidate, Follower, Leader}
    ensures CheckVotes(cfg, n).role in {Candidate, Leader}
  {
  }

  lemma LocalRole(cfg: Config, s: State, a: Action, y: NodeId)
    requires Fair(cfg, s) && Enabled(cfg, s, a) && IsLocal(a) && y in s.nodes
    ensures var m := Step(cfg, s, a).nodes[y]; m.role == s.nodes[y].role || RoleMoves(s.nodes[y], m, y, a)
  {
    hide Step, Put, Moved, MailTrue, RunnersOK, RoleMoves, Enabled;
    LocalMover(cfg, s, a);
    LocalOn(cfg, s, a);
    PutMovesOne(cfg, s, a.x, Moved(cfg, s.nodes[a.x], a));
    MovedRole(cfg, s.nodes[a.x], a);
  }

  lemma LocalOn(cfg: Config, s: State, a: Action)
    requires Typed(cfg, s) && Enabled(cfg, s, a) && IsLocal(a)
    ensures a.ElectionTimeout? ==> s.nodes[a.x].role == Follower
    ensures a.Resign? || a.MissedMember? ==> s.nodes[a.x].role == Leader
  {
  }

  lemma MovedRole(cfg: Config, n: Node, a: Action)
    requires IsLocal(a) && (a.ElectionTimeout? ==> n.role == Follower) && (a.Resign? ==> n.role == Leader)
    ensures Moved(cfg, n, a).role == n.role || RoleMoves(n, Moved(cfg, n, a), a.x, a)
  {
  }

  lemma WinRole(cfg: Config, s: State, x: NodeId, y: NodeId)
    requires Typed(cfg, s) && x in s.nodes && s.nodes[x].role == Candidate && s.nodes[x].polling && y in s.nodes
    ensures var m := Put(cfg, s, x, CheckVotes(cfg, s.nodes[x])).nodes[y];
            m.role == s.nodes[y].role || RoleMoves(s.nodes[y], m, y, VotesTimeout(x))
  {
    hide CheckVotes, Put;
    PutMovesOne(cfg, s, x, CheckVotes(cfg, s.nodes[x]));
    LoopRole(cfg, s.nodes[x], VoteResponse(OK, 0, Follower));
  }

  lemma TakeRole(cfg: Config, s: State, b: Ballot, y: NodeId)
    requires Fair(cfg, s) && b in s.responses && b.cand in s.nodes && y in s.nodes
    ensures var m := Take(cfg, s, b).nodes[y];
            m.role == s.nodes[y].role || RoleMoves(s.nodes[y], m, y, TakeResponse(b))
  {
    hide ReceiveVote, Absorb, MailTrue, RunnersOK;
    RunnerIs(cfg, s, b.cand);
    if s.nodes[b.cand].polling && s.nodes[b.cand].round == b.view {
      AbsorbMovesOne(cfg, s, b, ReceiveVote(cfg, s.nodes[b.cand], s.responses[b]));
      LoopRole(cfg, s.nodes[b.cand], s.responses[b]);
    }
  }

  lemma DeliveryRole(cfg: Config, s: State, a: Action, y: NodeId)
    requires Typed(cfg, s) && Enabled(cfg, s, a) && (a.DeliverVote? || a.DeliverBeat?) && y in s.nodes
    ensures var m := Step(cfg, s, a).nodes[y]; m.role == s.nodes[y].role || RoleMoves(s.nodes[y], m, y, a)
  {
    hide Put, HandleVote, HandleBeat, Settle, Holders;
    if a.DeliverVote? {
      SettleMovesOne(cfg, s, a.b, a.va.promotable, HandleVote(cfg, s.nodes[a.b.voter], s.requests[a.b], a.va));
      VoteRole(cfg, s.nodes[a.b.voter], s.requests[a.b], a.va);
    } else {
      PutMovesOne(cfg, s, a.x, HandleBeat(cfg, s.nodes[a.x], a.hb, a.ba).node);
      BeatRole(cfg, s.nodes[a.x], a.hb, a.ba);
    }
  }

  lemma MessageRole(cfg: Config, s: State, a: Action, y: NodeId)
    requires Fair(cfg, s) && Enabled(cfg, s, a) && !IsLocal(a) && y in s.nodes
    ensures var m := Step(cfg, s, a).nodes[y]; m.role == s.nodes[y].role || RoleMoves(s.nodes[y], m, y, a)
  {
    hide Put, HandleVote, HandleBeat, Settle, Take, Holders, Ask, Poll, MailTrue, RunnersOK, RoleMoves;
    match a
    case StartRound(x) => PollShapes(cfg, s, x);
    case SendVote(x, to, localError) => AskShapes(cfg, s, x, to, localError);
    case DeliverVote(b, va) => DeliveryRole(cfg, s, a, y);
    case TakeResponse(b) => TakeRole(cfg, s, b, y);
    case VotesTimeout(x) => WinRole(cfg, s, x, y);
    case DeliverBeat(x, hb, ba) => DeliveryRole(cfg, s, a, y);
    case _ =>
  }

  /** In every run a node becomes leader only from a round of its own, candidate only from follower
      or learner, and leaves IDLE, LEARNER and INVALID only as an operator orders. */
  lemma RolesChangeOnlySo(cfg: Config, run: seq<State>, acts: seq<Action>, i: nat, y: NodeId)
    requires IsRun(cfg, run, acts) && i < |acts| && y in run[i].nodes && y in run[i + 1].nodes
    requires run[i + 1].nodes[y].role != run[i].nodes[y].role
    ensures RoleMoves(run[i].nodes[y], run[i + 1].nodes[y], y, acts[i])
  {
    hide IsRun, Step, Enabled, Fair, RoleMoves;
    RunStep(cfg, run, acts, i);
    FairAt(cfg, run, acts, i);
    if Enabled(cfg, run[i], acts[i]) {
      if IsLocal(acts[i]) {
        LocalRole(cfg, run[i], acts[i], y);
      } else {
        MessageRole(cfg, run[i], acts[i], y);
      }
    }
  }

  /** And the steps that are to change a role do: a follower that times out is a candidate unless it
      is alone or could not change its source, a promotable node that an operator asks is one, and
      the operator's other orders are obeyed except by nodes listed as idle. */
  lemma RolesChangeWhenAsked(cfg: Config, run: seq<State>, acts: seq<Action>, i: nat, y: NodeId)
    requires IsRun(cfg, run, acts) && i < |acts| && y in run[i].nodes && y in run[i + 1].nodes && y in cfg.members
    ensures var n, m, a := run[i].nodes[y], run[i + 1].nodes[y], acts[i];
            && (a.ElectionTimeout? && a.x == y && n.role == Follower ==>
                  (m.role == Candidate <==> cfg.members != {y} && !n.changeError))
            && (a.AskPromotion? && a.x == y && n.role in {Follower, Learner} ==>
                  (m.role == Candidate <==> a.promotable && a.stopped))
            && (m.role == Candidate && n.role != Candidate ==>
                  m.io == (n.io && !(a.ElectionTimeout? && a.stopped) && !a.AskPromotion?))
            && (a == GoIdle(y) ==> m.role == Idle)
            && (a == GoLearner(y) ==> m.role == Learner)
            && (a == GoEnabled(y) && n.role in {Idle, Learner} ==> m.role == Follower)
            && (a == Resign(y) && n.role == Leader ==> m.role == Follower)
            && (m.role != n.role && IsLocal(a) ==> m.leader == NO_ONE && !m.polling && m.view == n.view
                                                   && m.votedFor == n.votedFor && m.round == n.round)
  {
    hide IsRun, Enabled, Step, Put, Moved, Fair;
    RunStep(cfg, run, acts, i);
    FairAt(cfg, run, acts, i);
    var s, a := run[i], acts[i];
    RunnerIs(cfg, s, y);
    if run[i + 1].nodes[y].role != s.nodes[y].role {
      RolesChangeOnlySo(cfg, run, acts, i, y);
    }
    if IsLocal(a) {
      if Enabled(cfg, s, a) {
        LocalMover(cfg, s, a);
        PutMovesOne(cfg, s, a.x, Moved(cfg, s.nodes[a.x], a));
      }
      if a.x == y && Asked(s.nodes[y], a) {
        AskedIsEnabled(cfg, s, a, y);
      }
      AskedMoves(cfg, s, a, y);
    }
  }

  /** An order or a timeout that finds the node in a role for it. */
  predicate Asked(n: Node, a: Action) {
    || a.AskPromotion? || a.GoIdle? || a.GoLearner? || a.GoEnabled?
    || (a.ElectionTimeout? && n.role == Follower) || (a.Resign? && n.role == Leader)
  }

  lemma AskedIsEnabled(cfg: Config, s: State, a: Action, y: NodeId)
    requires Typed(cfg, s) && IsLocal(a) && y in cfg.members && a.x == y && Asked(s.nodes[y], a)
    ensures Enabled(cfg, s, a)
  {
    hide Holders;
  }

  lemma AskedMoves(cfg: Config, s: State, a: Action, y: NodeId)
    requires Typed(cfg, s) && IsLocal(a) && y in cfg.members && s.nodes[y].id == y
    ensures var n, m := s.nodes[y], Moved(cfg, s.nodes[y], a);
            && (a.ElectionTimeout? && n.role == Follower ==>
                  (m.role == Candidate <==> cfg.members != {y} && !n.changeError))
            && (a.AskPromotion? && n.role in {Follower, Learner} ==>
                  (m.role == Candidate <==> a.promotable && a.stopped))
            && (m.role == Candidate && n.role != Candidate ==>
                  m.io == (n.io && !(a.ElectionTimeout? && a.stopped) && !a.AskPromotion?))
            && (a.GoIdle? ==> m.role == Idle)
            && (a.GoLearner? ==> m.role == Learner)
            && (a.GoEnabled? && n.role in {Idle, Learner} ==> m.role == Follower)
            && (a.Resign? ==> m.role == Follower)
            && (m.role != n.role ==> m.leader == NO_ONE && !m.polling && m.view == n.view && m.votedFor == n.votedFor
                                     && m.round == n.round)
  {
    assert cfg.members - {y} == {} <==> cfg.members == {y};
  }

  /** An idle node that an operator enables stays idle, but forgets its leader, so that the next
      heartbeat it heeds makes it change its source, whoever sent it. */
  lemma EnabledIdleRejoins(cfg: Config, run: seq<State>, acts: seq<Action>, i: nat, y: NodeId, hb: Heartbeat)
    requires IsRun(cfg, run, acts) && i < |acts| && y in run[i].nodes && y in cfg.idles && acts[i] == GoEnabled(y)
    ensures y in run[i + 1].nodes
    ensures run[i + 1].nodes[y] == run[i].nodes[y].(leader := NO_ONE) && run[i].nodes[y].role == Idle
    ensures Heeded(cfg, run[i + 1].nodes[y], hb) ==> Changes(cfg, run[i + 1].nodes[y], hb)
  {
    hide IsRun, Put, Fair, Holders;
    RunStep(cfg, run, acts, i);
    FairAt(cfg, run, acts, i);
    RunnerIs(cfg, run[i], y);
    LocalMover(cfg, run[i], acts[i]);
    PutMovesOne(cfg, run[i], y, Moved(cfg, run[i].nodes[y], acts[i]));
  }

  /** A leader that a member did not answer goes on leading two views higher, and does not heed a
      heartbeat of its old view or of the one it passed over. */
  lemma BumpOutdates(cfg: Config, run: seq<State>, acts: seq<Action>, i: nat, y: NodeId, hb: Heartbeat)
    requires IsRun(cfg, run, acts) && i < |acts| && y in run[i].nodes && y in cfg.members
    requires acts[i] == MissedMember(y) && run[i].nodes[y].role == Leader
    ensures y in run[i + 1].nodes
    ensures var n, m := run[i].nodes[y], run[i + 1].nodes[y];
            && m.role == Leader && m.leader == n.leader && m.round == n.round && m.view == n.view + 2
            && m.votedFor == NO_ONE && (hb.view <= n.view + 1 ==> !Heeded(cfg, m, hb))
  {
    hide IsRun, Put, Holders;
    RunStep(cfg, run, acts, i);
    LocalMover(cfg, run[i], acts[i]);
    PutMovesOne(cfg, run[i], y, Moved(cfg, run[i].nodes[y], acts[i]));
  }
}
