/** The handlers of one node of the election (internal/election/raft), written as functions
    from the node's state, the message and the answers of MySQL to the new state and the
    reply.  Semi-synchronous replication mode; `Raft` (RaftClass.dfy) is the object whose
    methods implement these functions, and `Cluster` runs many nodes against each other. */
module RaftNode {

  type NodeId = string

  /** Both `noVote` and `noLeader` of the source. */
  const NO_ONE: NodeId := ""

  datatype Role = Follower | Candidate | Leader | Idle | Invalid | Learner

  datatype RetCode =
    | OK
    | ErrorInvalidRequest
    | ErrorInvalidViewID
    | ErrorInvalidGTID
    | ErrorMySQLDown
    | ErrorVoteNotGranted
    | ErrorChangeMaster
    | ErrorRPCCall

  /** `members` is the list every node stores in `meta.Peers`, `idles` the one in
      `meta.IdlePeers`; `delegated` is `ha.delegate_db_apply`; `boot` is the node started with
      the role LEADER, if any.  `ackingIdles` are the idle nodes whose MySQL sends semi-sync
      acknowledgements: the leader's MySQL counts them, although they never vote. */
  datatype Config = Config(
    members: set<NodeId>, idles: set<NodeId>, delegated: bool, boot: NodeId, ackingIdles: set<NodeId>)
  {
    ghost predicate Valid() {
      NO_ONE !in members + idles && members !! idles && ackingIdles <= idles
    }

    function Ackers(): set<NodeId> {
      members + ackingIdles
    }

    function Quorum(): nat {
      |members| / 2 + 1
    }

    /** The number of replica acknowledgements a leader waits for (checkSemiSync). */
    function WaitCount(): nat
      requires |members| > 0
    {
      (|members| - 1) / 2
    }

    /** checkRequest: the sender has an entry in the `peers` map, which never holds self. */
    predicate Known(self: NodeId, from: NodeId) {
      from in members && from != self
    }
  }

  /** `pos` abstracts (Master_Log_File, Read_Master_Log_Pos); `io` says whether the replication
      IO thread runs; `changeError` is `ChangeToMasterError`.  `polling`, `votes` and
      `switchMaster` are the locals of the candidate loop, which exist while that loop runs;
      `round` is the view that the latest broadcast of vote requests carried. */
  datatype Node = Node(
    id: NodeId, role: Role, view: nat, votedFor: NodeId, leader: NodeId,
    pos: nat, io: bool, changeError: bool,
    polling: bool, round: nat, votes: nat, switchMaster: bool)

  datatype VoteRequest = VoteRequest(from: NodeId, view: nat, pos: nat)

  datatype VoteResponse = VoteResponse(code: RetCode, view: nat, role: Role)

  datatype Heartbeat = Heartbeat(from: NodeId, view: nat)

  /** What MySQL answers while a vote request is handled: whether STOP SLAVE IO_THREAD worked,
      whether reading the position failed, how the replication lags compare when the positions
      are equal, and whether this node is promotable. */
  datatype VoteAnswers = VoteAnswers(stopped: bool, gtidError: bool, smallerLag: bool, promotable: bool)

  /** What MySQL answers while a heartbeat is handled. */
  datatype BeatAnswers = BeatAnswers(started: bool, stopped: bool, localCommits: bool, changed: bool)

  datatype VoteOutcome = VoteOutcome(node: Node, rsp: VoteResponse)

  datatype BeatOutcome = BeatOutcome(node: Node, code: RetCode)

  // ---------------------------------------------------------------- shared steps

  function SetState(n: Node, role: Role): Node {
    n.(role := role, leader := NO_ONE, polling := false)
  }

  function UpdateView(n: Node, view: nat, leader: NodeId): Node {
    n.(view := view, leader := leader, votedFor := NO_ONE)
  }

  function Reply(n: Node, code: RetCode): VoteResponse {
    VoteResponse(code, n.view, n.role)
  }

  /** SemiSyncGTIDGreaterThan on abstract positions; GtidOrder.dfy has the strings. */
  predicate Greater(n: Node, req: VoteRequest, a: VoteAnswers) {
    n.pos > req.pos || (n.pos == req.pos && a.smallerLag)
  }

  /** The role a node starts with. */
  function StartRole(superIdle: bool, initRole: Role): Role {
    if initRole in {Leader, Follower, Idle} then initRole else if superIdle then Idle else Follower
  }

  // ---------------------------------------------------------------- vote requests

  function FollowerVote(cfg: Config, n: Node, req: VoteRequest, a: VoteAnswers): VoteOutcome {
    if !cfg.Known(n.id, req.from) then
      VoteOutcome(n, Reply(n, ErrorInvalidRequest))
    else if req.view < n.view then
      VoteOutcome(n, Reply(n, ErrorInvalidViewID))
    else
      var s := if a.stopped then n.(io := false) else n;
      if a.gtidError then
        VoteOutcome(s, Reply(n, ErrorMySQLDown))
      else if Greater(n, req, a) && a.promotable then
        VoteOutcome(s, Reply(n, ErrorInvalidGTID))
      else if req.view > n.view then
        VoteOutcome(UpdateView(s, req.view, NO_ONE).(votedFor := req.from), Reply(n, OK))
      else if n.votedFor != NO_ONE && n.votedFor != req.from then
        VoteOutcome(s, Reply(n, ErrorVoteNotGranted))
      else
        VoteOutcome(s.(votedFor := req.from), Reply(n, OK))
  }

  function CandidateVote(cfg: Config, n: Node, req: VoteRequest, a: VoteAnswers): VoteOutcome {
    if !cfg.Known(n.id, req.from) then
      VoteOutcome(n, Reply(n, ErrorInvalidRequest))
    else if req.view < n.view then
      VoteOutcome(n, Reply(n, ErrorInvalidViewID))
    else if a.gtidError then
      VoteOutcome(n, Reply(n, ErrorMySQLDown))
    else
      // a candidate that is ahead in data catches up in view even when it refuses
      var s := if Greater(n, req, a) && req.view > n.view then UpdateView(n, req.view, NO_ONE) else n;
      if Greater(n, req, a) && a.promotable then
        VoteOutcome(s, Reply(n, ErrorInvalidGTID))
      else if req.view > s.view then
        VoteOutcome(SetState(UpdateView(s, req.view, NO_ONE).(votedFor := req.from), Follower), Reply(n, OK))
      else if s.votedFor != NO_ONE && s.votedFor != req.from then
        VoteOutcome(s, Reply(n, ErrorVoteNotGranted))
      else
        VoteOutcome(SetState(s.(votedFor := req.from), Follower), Reply(n, OK))
  }

  function LeaderVote(cfg: Config, n: Node, req: VoteRequest, a: VoteAnswers): VoteOutcome {
    if !cfg.Known(n.id, req.from) then
      VoteOutcome(n, Reply(n, ErrorInvalidRequest))
    else if req.view <= n.view then
      VoteOutcome(n, Reply(n, ErrorInvalidViewID))
    else if a.gtidError then
      VoteOutcome(n, Reply(n, ErrorMySQLDown))
    else if Greater(n, req, a) && a.promotable then
      VoteOutcome(n, Reply(n, ErrorInvalidGTID))
    else
      VoteOutcome(SetState(UpdateView(n, req.view, NO_ONE), Follower).(votedFor := req.from), Reply(n, OK))
  }

  function IdleVote(cfg: Config, n: Node, req: VoteRequest): VoteOutcome {
    VoteOutcome(n, Reply(n, if cfg.Known(n.id, req.from) then OK else ErrorInvalidRequest))
  }

  function InvalidVote(n: Node): VoteOutcome {
    VoteOutcome(n, Reply(n, ErrorInvalidRequest))
  }

  function LearnerVote(cfg: Config, n: Node, req: VoteRequest): VoteOutcome {
    VoteOutcome(n, Reply(n, if cfg.Known(n.id, req.from) then ErrorVoteNotGranted else ErrorInvalidRequest))
  }

  /** The handler the node's current loop runs on a vote request. */
  function HandleVote(cfg: Config, n: Node, req: VoteRequest, a: VoteAnswers): VoteOutcome {
    match n.role
    case Follower => FollowerVote(cfg, n, req, a)
    case Candidate => CandidateVote(cfg, n, req, a)
    case Leader => LeaderVote(cfg, n, req, a)
    case Idle => IdleVote(cfg, n, req)
    case Invalid => InvalidVote(n)
    case Learner => LearnerVote(cfg, n, req)
  }

  // ---------------------------------------------------------------- heartbeats

  function AdoptView(n: Node, hb: Heartbeat): Node {
    if n.view < hb.view then UpdateView(n, hb.view, hb.from) else n
  }

  /** degradeToInvalid: stop reading, and leave the election when this node holds transactions
      of its own that the new leader lacks. */
  function DegradeToInvalid(n: Node, a: BeatAnswers): Node {
    var s := if a.stopped then n.(io := false) else n;
    if a.localCommits then SetState(s, Invalid) else s
  }

  function FollowerBeat(cfg: Config, n: Node, hb: Heartbeat, a: BeatAnswers): BeatOutcome {
    if !cfg.Known(n.id, hb.from) then
      BeatOutcome(n, ErrorInvalidRequest)
    else if n.view > hb.view then
      BeatOutcome(n, ErrorInvalidViewID)
    else if cfg.delegated then
      BeatOutcome(AdoptView(n.(leader := hb.from), hb), OK)
    else
      var s := if a.started then n.(io := true) else n;
      if n.leader == hb.from then
        BeatOutcome(AdoptView(s, hb), OK)
      else
        var d := if |cfg.members| > 2 then DegradeToInvalid(s, a) else s;
        if a.changed then
          BeatOutcome(AdoptView(d.(leader := hb.from, changeError := false, io := true), hb), OK)
        else
          BeatOutcome(d.(changeError := true), ErrorChangeMaster)
  }

  function CandidateBeat(cfg: Config, n: Node, hb: Heartbeat): BeatOutcome {
    if !cfg.Known(n.id, hb.from) then
      BeatOutcome(n, ErrorInvalidRequest)
    else if n.view > hb.view then
      BeatOutcome(n, ErrorInvalidViewID)
    else
      BeatOutcome(SetState(n, Follower), OK)
  }

  function LeaderBeat(cfg: Config, n: Node, hb: Heartbeat): BeatOutcome {
    CandidateBeat(cfg, n, hb)
  }

  /** IDLE and INVALID follow the leader's data but never leave their role here; a stale
      heartbeat is answered OK and changes nothing. */
  function IdleBeat(cfg: Config, n: Node, hb: Heartbeat, a: BeatAnswers): BeatOutcome {
    if !cfg.Known(n.id, hb.from) then
      BeatOutcome(n, ErrorInvalidRequest)
    else if n.view > hb.view then
      BeatOutcome(n, OK)
    else
      var s := if a.started then n.(io := true) else n;
      if n.leader == hb.from then
        BeatOutcome(AdoptView(s, hb), OK)
      else if a.changed then
        BeatOutcome(AdoptView(s.(leader := hb.from, io := true), hb), OK)
      else
        BeatOutcome(s, ErrorChangeMaster)
  }

  function LearnerBeat(cfg: Config, n: Node, hb: Heartbeat): BeatOutcome {
    if !cfg.Known(n.id, hb.from) then
      BeatOutcome(n, ErrorInvalidRequest)
    else if n.view > hb.view then
      BeatOutcome(n, OK)
    else
      BeatOutcome(AdoptView(n, hb), OK)
  }

  /** The handler the node's current loop runs on a heartbeat. */
  function HandleBeat(cfg: Config, n: Node, hb: Heartbeat, a: BeatAnswers): BeatOutcome {
    match n.role
    case Follower => FollowerBeat(cfg, n, hb, a)
    case Candidate => CandidateBeat(cfg, n, hb)
    case Leader => LeaderBeat(cfg, n, hb)
    case Idle => IdleBeat(cfg, n, hb, a)
    case Invalid => IdleBeat(cfg, n, hb, a)
    case Learner => LearnerBeat(cfg, n, hb)
  }

  // ---------------------------------------------------------------- the candidate loop

  /** sendRequestVote up to the broadcast; the loop starts with one and repeats it at every
      election timeout. */
  function OpenRound(n: Node): Node {
    n.(view := n.view + 1, votedFor := NO_ONE, round := n.view + 1, votes := 1,
       switchMaster := n.polling && n.switchMaster, polling := true)
  }

  function UpgradeToLeader(n: Node): Node {
    SetState(n, Leader).(leader := n.id)
  }

  /** processRequestVoteResponse.  With fewer than three members the second "MySQL is down"
      answer onwards counts as a vote. */
  function CountVote(cfg: Config, n: Node, rsp: VoteResponse): Node {
    match rsp.code
    case OK =>
      if rsp.role == Idle then n else n.(votes := n.votes + 1)
    case ErrorInvalidViewID =>
      SetState(UpdateView(n, rsp.view, NO_ONE), Follower)
    case ErrorInvalidGTID =>
      SetState(n, Follower)
    case ErrorMySQLDown =>
      if |cfg.members| < 3 then
        if n.switchMaster then n.(votes := n.votes + 1) else n.(switchMaster := true)
      else
        n
    case _ => n
  }

  /** The loop's case for a response: count it, then win on a unanimous vote. */
  function ReceiveVote(cfg: Config, n: Node, rsp: VoteResponse): Node {
    var s := CountVote(cfg, n, rsp);
    if s.votes == |cfg.members| then UpgradeToLeader(s) else s
  }

  /** The loop's case for the check-votes timeout: win on a majority. */
  function CheckVotes(cfg: Config, n: Node): Node {
    if n.votes >= cfg.Quorum() then UpgradeToLeader(n) else n
  }

  // ---------------------------------------------------------------- role changes

  /** The follower's election timeout once the guards on MySQL and the network let it through. */
  function UpgradeToCandidate(cfg: Config, n: Node, stopped: bool): Node {
    if cfg.members - {n.id} == {} || n.changeError then n
    else SetState(if stopped then n.(io := false) else n, Candidate)
  }

  /** HATryToLeader; the operator's request is refused when the node is not promotable or the
      IO thread cannot be stopped. */
  function TryToLeader(n: Node, promotable: bool, stopped: bool): Node {
    if n.role in {Leader, Candidate, Idle, Invalid} || !promotable || !stopped then n
    else SetState(n.(io := false), Candidate)
  }

  function Disable(n: Node): Node {
    if n.role == Idle then n else SetState(n, Idle)
  }

  function SetLearner(n: Node): Node {
    SetState(n, Learner)
  }

  /** HAEnable; a node started as SuperIDLE only forgets its leader, so that the next heartbeat
      makes it change master. */
  function Enable(n: Node, superIdle: bool): Node {
    if n.role == Idle && superIdle then n.(leader := NO_ONE)
    else if n.role in {Idle, Learner} then SetState(n, Follower)
    else n
  }

  /** Every way a leader gives up by itself: too few heartbeat answers, MySQL down, a peer that
      answers with a newer view, a failed promotion. */
  function StepDown(n: Node): Node {
    SetState(n, Follower)
  }

  /** The leader's answer to the first heartbeat round that a member missed. */
  function BumpView(n: Node): Node {
    UpdateView(n, n.view + 2, n.leader)
  }
}
