/** A cluster of election nodes as a transition system: the nodes' states, the vote requests,
    vote responses and heartbeats under way, and a history of the votes that were granted and
    of the transactions that were acknowledged.  Any message may be delayed or lost; every
    handler and every background job is one step. */
module Cluster {
  import opened RaftNode

  /** The request of `cand` to `voter` in the round whose requests carry `view`. */
  datatype Ballot = Ballot(cand: NodeId, view: nat, voter: NodeId)

  /** A granted vote: the voter's position and the candidate's, whether the voter was promotable,
      and whether its IO thread was stopped, together with the voter's intake count. */
  datatype Grant = Grant(pos: nat, reqPos: nat, promotable: bool, stopped: bool, intake: nat)

  /** What the run remembers about a node: the peers it asked and the ones whose vote it counted
      in its latest round; how often it began to take in new transactions again; what was
      acknowledged, and who held it, when its latest round began; and the answers of that round
      which it has taken. */
  datatype Book = Book(
    sent: set<NodeId>, tally: set<NodeId>, intake: nat, openAcked: nat, openHolders: set<NodeId>,
    taken: map<NodeId, VoteResponse>)

  datatype State = State(
    nodes: map<NodeId, Node>, books: map<NodeId, Book>,
    requests: map<Ballot, VoteRequest>, responses: map<Ballot, VoteResponse>, beats: set<Heartbeat>,
    grants: map<Ballot, Grant>, acked: nat)

  datatype Action =
    | ElectionTimeout(x: NodeId, stopped: bool)
    | AskPromotion(x: NodeId, promotable: bool, stopped: bool)
    | GoIdle(x: NodeId)
    | GoLearner(x: NodeId)
    | GoEnabled(x: NodeId)
    | StartRound(x: NodeId)
    | SendVote(x: NodeId, to: NodeId, localError: bool)
    | LoseRequest(b: Ballot)
    | LoseResponse(b: Ballot)
    | DeliverVote(b: Ballot, va: VoteAnswers)
    | TakeResponse(b: Ballot)
    | VotesTimeout(x: NodeId)
    | SendBeat(x: NodeId)
    | DeliverBeat(x: NodeId, hb: Heartbeat, ba: BeatAnswers)
    | Resign(x: NodeId)
    | MissedMember(x: NodeId)
    | StartSlave(x: NodeId)
    | Write(x: NodeId, p: nat)
    | Replicate(x: NodeId, source: NodeId, p: nat)
    | Acknowledge(x: NodeId, p: nat)

  ghost predicate Typed(cfg: Config, s: State) {
    && cfg.Valid()
    && s.nodes.Keys == cfg.members + cfg.idles
    && s.books.Keys == cfg.members + cfg.idles
  }

  /** The nodes whose acknowledgements count and whose position has reached p. */
  ghost function Holders(cfg: Config, s: State, p: nat): set<NodeId>
    requires Typed(cfg, s)
  {
    set x | x in cfg.Ackers() && s.nodes[x].pos >= p
  }

  /** When the source's code can take the step.  Nodes listed as idle never change role.  The
      database of a member that no longer leads may still be writable, and what it had under way
      may be acknowledged, so neither writing nor acknowledging asks for the role. */
  ghost predicate Enabled(cfg: Config, s: State, a: Action)
    requires Typed(cfg, s)
  {
    match a
    case ElectionTimeout(x, _) => x in cfg.members && s.nodes[x].role == Follower
    case AskPromotion(x, _, _) => x in cfg.members
    case GoIdle(x) => x in cfg.members
    case GoLearner(x) => x in cfg.members
    case GoEnabled(x) => x in s.nodes
    case StartRound(x) => x in cfg.members && s.nodes[x].role == Candidate
    case SendVote(x, to, _) =>
      && x in cfg.members && to in cfg.members + cfg.idles && to != x
      && s.nodes[x].role == Candidate && s.nodes[x].polling && to !in s.books[x].sent
    case LoseRequest(b) => b in s.requests
    case LoseResponse(b) => b in s.responses
    case DeliverVote(b, _) => b in s.requests && b.voter in s.nodes
    case TakeResponse(b) => b in s.responses && b.cand in s.nodes
    case VotesTimeout(x) => x in cfg.members && s.nodes[x].role == Candidate && s.nodes[x].polling
    case SendBeat(x) => x in cfg.members && s.nodes[x].role == Leader
    case DeliverBeat(x, hb, _) => x in s.nodes && hb in s.beats
    case Resign(x) => x in cfg.members && s.nodes[x].role == Leader
    case MissedMember(x) => x in cfg.members && s.nodes[x].role == Leader
    case StartSlave(x) => x in s.nodes
    case Write(x, p) => x in cfg.members && p > s.nodes[x].pos
    case Replicate(x, y, p) => x in s.nodes && y in s.nodes && s.nodes[x].io && s.nodes[x].pos < p <= s.nodes[y].pos
    case Acknowledge(x, p) =>
      && x in cfg.members && p <= s.nodes[x].pos
      && |Holders(cfg, s, p) - {x}| >= cfg.WaitCount()
  }

  /** Node x moves to n; its intake count goes up when its IO thread starts, when it becomes leader,
      and when it takes in transactions although neither is so. */
  ghost function Put(cfg: Config, s: State, x: NodeId, n: Node): (t: State)
    requires Typed(cfg, s) && x in s.nodes
    ensures Typed(cfg, t)
  {
    var k := s.books[x];
    var m := s.nodes[x];
    var unlocked := (n.io && !m.io) || (n.role == Leader && m.role != Leader);
    var more := unlocked || (n.pos > m.pos && !m.io && m.role != Leader);
    s.(nodes := s.nodes[x := n], books := s.books[x := k.(intake := if more then k.intake + 1 else k.intake)])
  }

  predicate Counts(rsp: VoteResponse) {
    rsp.code == OK && rsp.role != Idle
  }

  ghost function Poll(cfg: Config, s: State, x: NodeId): (t: State)
    requires Typed(cfg, s) && x in s.nodes
    ensures Typed(cfg, t)
  {
    var t := Put(cfg, s, x, OpenRound(s.nodes[x]));
    t.(books := t.books[x := t.books[x].(sent := {}, tally := {}, openAcked := s.acked,
                                         openHolders := Holders(cfg, s, s.acked), taken := map[])])
  }

  ghost function Ask(cfg: Config, s: State, x: NodeId, to: NodeId, localError: bool): (t: State)
    requires Typed(cfg, s) && x in s.nodes
    ensures Typed(cfg, t)
  {
    var b := Ballot(x, s.nodes[x].round, to);
    var t := s.(books := s.books[x := s.books[x].(sent := s.books[x].sent + {to})]);
    if localError then
      t.(responses := s.responses[b := VoteResponse(ErrorMySQLDown, 0, Follower)])
    else
      t.(requests := s.requests[b := VoteRequest(x, s.nodes[x].round, s.nodes[x].pos)])
  }

  /** The voter's outcome takes effect and its reply goes out. */
  ghost function Settle(cfg: Config, s: State, b: Ballot, promotable: bool, out: VoteOutcome): (t: State)
    requires Typed(cfg, s) && b in s.requests && b.voter in s.nodes
    ensures Typed(cfg, t)
  {
    var t := Put(cfg, s, b.voter, out.node).(requests := s.requests - {b}, responses := s.responses[b := out.rsp]);
    if Counts(out.rsp) then
      t.(grants := s.grants[b := Grant(s.nodes[b.voter].pos, s.requests[b].pos, promotable, !out.node.io,
                                       t.books[b.voter].intake)])
    else
      t
  }

  /** The loop whose latest round asked for it reads a response and moves to n. */
  ghost function Absorb(cfg: Config, s: State, b: Ballot, n: Node): (t: State)
    requires Typed(cfg, s) && b in s.responses && b.cand in s.nodes
    ensures Typed(cfg, t)
  {
    var t, rsp := Put(cfg, s, b.cand, n), s.responses[b];
    var k := t.books[b.cand].(taken := s.books[b.cand].taken[b.voter := rsp]);
    t.(responses := s.responses - {b},
       books := t.books[b.cand := if Counts(rsp) then k.(tally := k.tally + {b.voter}) else k])
  }

  /** A response that belongs to no running round has no reader. */
  ghost function Take(cfg: Config, s: State, b: Ballot): (t: State)
    requires Typed(cfg, s) && b in s.responses && b.cand in s.nodes
    ensures Typed(cfg, t)
  {
    var n := s.nodes[b.cand];
    if n.polling && n.round == b.view then
      Absorb(cfg, s, b, ReceiveVote(cfg, n, s.responses[b]))
    else
      s.(responses := s.responses - {b})
  }

  /** Steps in which one node moves by itself. */
  predicate IsLocal(a: Action) {
    a.ElectionTimeout? || a.AskPromotion? || a.GoIdle? || a.GoLearner? || a.GoEnabled? || a.Resign?
    || a.MissedMember? || a.StartSlave? || a.Write? || a.Replicate?
  }

  function Moved(cfg: Config, n: Node, a: Action): Node
    requires IsLocal(a)
  {
    match a
    case ElectionTimeout(_, stopped) => UpgradeToCandidate(cfg, n, stopped)
    case AskPromotion(_, promotable, stopped) => TryToLeader(n, promotable, stopped)
    case GoIdle(_) => Disable(n)
    case GoLearner(_) => SetLearner(n)
    case GoEnabled(_) => Enable(n, n.id in cfg.idles)
    case Resign(_) => StepDown(n)
    case MissedMember(_) => BumpView(n)
    case StartSlave(_) => n.(io := true)
    case Write(_, p) => n.(pos := p)
    case Replicate(_, _, p) => n.(pos := p)
  }

  ghost function Step(cfg: Config, s: State, a: Action): (t: State)
    requires Typed(cfg, s) && Enabled(cfg, s, a)
    ensures Typed(cfg, t)
  {
    match a
    case StartRound(x) => Poll(cfg, s, x)
    case SendVote(x, to, localError) => Ask(cfg, s, x, to, localError)
    case LoseRequest(b) => s.(requests := s.requests - {b})
    case LoseResponse(b) => s.(responses := s.responses - {b})
    case DeliverVote(b, va) =>
      Settle(cfg, s, b, va.promotable, HandleVote(cfg, s.nodes[b.voter], s.requests[b], va))
    case TakeResponse(b) => Take(cfg, s, b)
    case VotesTimeout(x) => Put(cfg, s, x, CheckVotes(cfg, s.nodes[x]))
    case SendBeat(x) => s.(beats := s.beats + {Heartbeat(x, s.nodes[x].view)})
    case DeliverBeat(x, hb, ba) => Put(cfg, s, x, HandleBeat(cfg, s.nodes[x], hb, ba).node)
    case Acknowledge(x, p) => if p > s.acked then s.(acked := p) else s
    case _ => Put(cfg, s, a.x, Moved(cfg, s.nodes[a.x], a))
  }

  ghost function Next(cfg: Config, s: State, a: Action): (t: State)
    requires Typed(cfg, s)
    ensures Typed(cfg, t)
  {
    if Enabled(cfg, s, a) then Step(cfg, s, a) else s
  }

  /** The state after the actions, in order; an action that cannot be taken changes nothing. */
  ghost function Run(cfg: Config, s: State, acts: seq<Action>): (t: State)
    requires Typed(cfg, s)
    ensures Typed(cfg, t)
    decreases |acts|
  {
    if acts == [] then s else Next(cfg, Run(cfg, s, acts[..|acts| - 1]), acts[|acts| - 1])
  }

  /** Started nodes: views and votes are not kept across restarts, at most `boot` starts as
      LEADER, and enough members hold what was acknowledged before. */
  ghost predicate Init(cfg: Config, s: State) {
    && Typed(cfg, s)
    && cfg.members != {}
    && s.requests == map[] && s.responses == map[] && s.beats == {} && s.grants == map[]
    && (forall x | x in s.nodes ::
          && s.books[x] == Book({}, {}, 0, 0, {}, map[])
          && s.nodes[x] == Node(x, s.nodes[x].role, 0, NO_ONE, s.nodes[x].leader, s.nodes[x].pos, s.nodes[x].io,
                                false, false, 0, 0, false)
          && (x in cfg.idles ==> s.nodes[x].role == Idle)
          && (x in cfg.members ==> s.nodes[x].role in {Follower, Idle} || (s.nodes[x].role == Leader && x == cfg.boot)))
    && |Holders(cfg, s, s.acked)| > cfg.WaitCount()
  }

  lemma InitTyped(cfg: Config, s: State)
    requires Init(cfg, s)
    ensures Typed(cfg, s) && s.grants == map[]
  {
  }

  /** The states of a whole run, from the start to after each action. */
  ghost predicate IsRun(cfg: Config, run: seq<State>, acts: seq<Action>) {
    && |run| == |acts| + 1 && Init(cfg, run[0])
    && forall i | 0 <= i < |acts| :: Typed(cfg, run[i]) && run[i + 1] == Next(cfg, run[i], acts[i])
  }

  lemma {:induction false} RunAt(cfg: Config, run: seq<State>, acts: seq<Action>, k: nat)
    requires IsRun(cfg, run, acts) && k < |run|
    ensures run[k] == Run(cfg, run[0], acts[..k])
  {
    hide Next, Init;
    if k > 0 {
      RunAt(cfg, run, acts, k - 1);
      assert acts[..k][..k - 1] == acts[..k - 1] && acts[..k][k - 1] == acts[k - 1];
    } else {
      assert acts[..0] == [];
    }
  }
}
