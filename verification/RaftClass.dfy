/** The Raft object of internal/election/raft: handlers that update its fields one by one.
    Every method is proved to implement the function of RaftNode that the cluster runs. */
module RaftClass {
  import opened RaftNode

  class Raft {
    const cfg: Config
    const id: NodeId
    const superIdle: bool
    var role: Role
    var view: nat
    var votedFor: NodeId
    var leader: NodeId
    var pos: nat
    var io: bool
    var changeError: bool
    // locals of the candidate loop
    var polling: bool
    var round: nat
    var votes: nat
    var switchMaster: bool

    function State(): Node
      reads this
    {
      Node(id, role, view, votedFor, leader, pos, io, changeError, polling, round, votes, switchMaster)
    }

    /** NewRaft and Start: SuperIDLE decides the role unless the command line names LEADER,
        FOLLOWER or IDLE. */
    constructor (cfg: Config, id: NodeId, superIdle: bool, initRole: Role, pos: nat, io: bool)
      ensures this.cfg == cfg && this.id == id && this.superIdle == superIdle
      ensures role == initRole
           || (initRole !in {Leader, Follower, Idle} && role == if superIdle then Idle else Follower)
      ensures State() == Node(id, StartRole(superIdle, initRole), 0, NO_ONE, if initRole == Leader then id else NO_ONE,
                              pos, io, false, false, 0, 0, false)
    {
      this.cfg, this.id, this.superIdle := cfg, id, superIdle;
      this.role := if superIdle then Idle else Follower;
      this.view, this.votedFor, this.leader := 0, NO_ONE, NO_ONE;
      this.pos, this.io, this.changeError := pos, io, false;
      this.polling, this.round, this.votes, this.switchMaster := false, 0, 0, false;
      new;
      match initRole {
        case Leader =>
          ChangeState(Leader);
          leader := id;
        case Follower => ChangeState(Follower);
        case Idle => ChangeState(Idle);
        case _ =>
      }
    }

    method ChangeState(r: Role)
      modifies this
      ensures State() == SetState(old(State()), r)
    {
      leader := NO_ONE;
      role := r;
      polling := false;
    }

    method ChangeView(v: nat, l: NodeId)
      modifies this
      ensures State() == UpdateView(old(State()), v, l)
    {
      leader := l;
      votedFor := NO_ONE;
      view := v;
    }

    // -------------------------------------------------------------- vote requests

    method FollowerProcessRequestVote(req: VoteRequest, a: VoteAnswers) returns (rsp: VoteResponse)
      modifies this
      ensures VoteOutcome(State(), rsp) == FollowerVote(cfg, old(State()), req, a)
    {
      rsp := VoteResponse(OK, view, role);
      if !cfg.Known(id, req.from) {
        return rsp.(code := ErrorInvalidRequest);
      }
      if req.view < view {
        return rsp.(code := ErrorInvalidViewID);
      }
      if a.stopped {
        io := false;
      }
      if a.gtidError {
        return rsp.(code := ErrorMySQLDown);
      }
      if Greater(State(), req, a) {
        if a.promotable {
          return rsp.(code := ErrorInvalidGTID);
        }
      }
      if req.view > view {
        ChangeView(req.view, NO_ONE);
      } else if votedFor != NO_ONE && votedFor != req.from {
        return rsp.(code := ErrorVoteNotGranted);
      }
      votedFor := req.from;
    }

    method CandidateProcessRequestVote(req: VoteRequest, a: VoteAnswers) returns (rsp: VoteResponse)
      modifies this
      ensures VoteOutcome(State(), rsp) == CandidateVote(cfg, old(State()), req, a)
    {
      rsp := VoteResponse(OK, view, role);
      if !cfg.Known(id, req.from) {
        return rsp.(code := ErrorInvalidRequest);
      }
      if req.view < view {
        return rsp.(code := ErrorInvalidViewID);
      }
      if a.gtidError {
        return rsp.(code := ErrorMySQLDown);
      }
      if Greater(State(), req, a) {
        if req.view > view {
          ChangeView(req.view, NO_ONE);
        }
        if a.promotable {
          return rsp.(code := ErrorInvalidGTID);
        }
      }
      if req.view > view {
        ChangeView(req.view, NO_ONE);
        ChangeState(Follower);
      } else if votedFor != NO_ONE && votedFor != req.from {
        return rsp.(code := ErrorVoteNotGranted);
      }
      votedFor := req.from;
      ChangeState(Follower);
    }

    method LeaderProcessRequestVote(req: VoteRequest, a: VoteAnswers) returns (rsp: VoteResponse)
      modifies this
      ensures VoteOutcome(State(), rsp) == LeaderVote(cfg, old(State()), req, a)
    {
      rsp := VoteResponse(OK, view, role);
      if !cfg.Known(id, req.from) {
        return rsp.(code := ErrorInvalidRequest);
      }
      if req.view <= view {
        return rsp.(code := ErrorInvalidViewID);
      }
      if a.gtidError {
        return rsp.(code := ErrorMySQLDown);
      }
      if Greater(State(), req, a) {
        if a.promotable {
          return rsp.(code := ErrorInvalidGTID);
        }
      }
      if req.view > view {
        ChangeView(req.view, NO_ONE);
        ChangeState(Follower);
      }
      votedFor := req.from;
    }

    /** The answer is OK, but it names the role, and a candidate does not count it. */
    method IdleProcessRequestVote(req: VoteRequest) returns (rsp: VoteResponse)
      ensures VoteOutcome(State(), rsp) == IdleVote(cfg, State(), req)
    {
      rsp := VoteResponse(OK, view, role);
      if !cfg.Known(id, req.from) {
        rsp := rsp.(code := ErrorInvalidRequest);
      }
    }

    method InvalidProcessRequestVote(req: VoteRequest) returns (rsp: VoteResponse)
      ensures VoteOutcome(State(), rsp) == InvalidVote(State())
    {
      rsp := VoteResponse(ErrorInvalidRequest, view, role);
    }

    method LearnerProcessRequestVote(req: VoteRequest) returns (rsp: VoteResponse)
      ensures VoteOutcome(State(), rsp) == LearnerVote(cfg, State(), req)
    {
      rsp := VoteResponse(ErrorVoteNotGranted, view, role);
      if !cfg.Known(id, req.from) {
        rsp := rsp.(code := ErrorInvalidRequest);
      }
    }

    // -------------------------------------------------------------- heartbeats

    method ApplyView(hb: Heartbeat)
      modifies this
      ensures State() == AdoptView(old(State()), hb)
    {
      if view < hb.view {
        ChangeView(hb.view, hb.from);
      }
    }

    method FollowerProcessHeartbeat(hb: Heartbeat, a: BeatAnswers) returns (code: RetCode)
      modifies this
      ensures BeatOutcome(State(), code) == FollowerBeat(cfg, old(State()), hb, a)
    {
      if !cfg.Known(id, hb.from) {
        return ErrorInvalidRequest;
      }
      if view > hb.view {
        return ErrorInvalidViewID;
      }
      if cfg.delegated {
        if leader != hb.from {
          leader := hb.from;
        }
      } else {
        if a.started {
          io := true;
        }
        if leader != hb.from {
          if |cfg.members| > 2 {
            if a.stopped {
              io := false;
            }
            if a.localCommits {
              ChangeState(Invalid);
            }
          }
          if !a.changed {
            changeError := true;
            return ErrorChangeMaster;
          }
          changeError := false;
          io := true;
          leader := hb.from;
        }
      }
      ApplyView(hb);
      return OK;
    }

    method CandidateProcessHeartbeat(hb: Heartbeat) returns (code: RetCode)
      modifies this
      ensures BeatOutcome(State(), code) == CandidateBeat(cfg, old(State()), hb)
    {
      if !cfg.Known(id, hb.from) {
        return ErrorInvalidRequest;
      }
      if view > hb.view {
        return ErrorInvalidViewID;
      }
      ChangeState(Follower);
      return OK;
    }

    method LeaderProcessHeartbeat(hb: Heartbeat) returns (code: RetCode)
      modifies this
      ensures BeatOutcome(State(), code) == LeaderBeat(cfg, old(State()), hb)
    {
      if !cfg.Known(id, hb.from) {
        return ErrorInvalidRequest;
      }
      if view > hb.view {
        return ErrorInvalidViewID;
      }
      DegradeToFollower();
      return OK;
    }

    method LearnerProcessHeartbeat(hb: Heartbeat) returns (code: RetCode)
      modifies this
      ensures BeatOutcome(State(), code) == LearnerBeat(cfg, old(State()), hb)
    {
      if !cfg.Known(id, hb.from) {
        return ErrorInvalidRequest;
      }
      if view <= hb.view {
        ApplyView(hb);
      }
      return OK;
    }

    /** IDLE and INVALID handle a heartbeat alike. */
    method IdleProcessHeartbeat(hb: Heartbeat, a: BeatAnswers) returns (code: RetCode)
      modifies this
      ensures BeatOutcome(State(), code) == IdleBeat(cfg, old(State()), hb, a)
    {
      if !cfg.Known(id, hb.from) {
        return ErrorInvalidRequest;
      }
      if view <= hb.view {
        if a.started {
          io := true;
        }
        if leader != hb.from {
          if !a.changed {
            return ErrorChangeMaster;
          }
          io := true;
          leader := hb.from;
        }
        ApplyView(hb);
      }
      return OK;
    }

    // -------------------------------------------------------------- the candidate loop

    method SendRequestVote()
      modifies this
      ensures State() == OpenRound(old(State()))
    {
      if !polling {
        switchMaster := false;
      }
      view := view + 1;
      votedFor := NO_ONE;
      round, votes, polling := view, 1, true;
    }

    method PromoteToLeader()
      modifies this
      ensures State() == UpgradeToLeader(old(State()))
    {
      ChangeState(Leader);
      leader := id;
    }

    /** One turn of the candidate loop that takes a response from the channel. */
    method CandidateReceive(rsp: VoteResponse)
      modifies this
      ensures State() == ReceiveVote(cfg, old(State()), rsp)
    {
      match rsp.code {
        case OK =>
          if rsp.role != Idle {
            votes := votes + 1;
          }
        case ErrorInvalidViewID =>
          ChangeView(rsp.view, NO_ONE);
          ChangeState(Follower);
        case ErrorInvalidGTID =>
          ChangeState(Follower);
        case ErrorMySQLDown =>
          if |cfg.members| < 3 {
            if switchMaster {
              votes := votes + 1;
            } else {
              switchMaster := true;
            }
          }
        case _ =>
      }
      if votes == |cfg.members| {
        PromoteToLeader();
      }
    }

    /** One turn of the candidate loop at the check-votes timeout. */
    method CandidateCheckVotes()
      modifies this
      ensures State() == CheckVotes(cfg, old(State()))
    {
      if votes >= cfg.Quorum() {
        PromoteToLeader();
      }
    }

    // -------------------------------------------------------------- role changes

    method FollowerTimeout(stopped: bool)
      modifies this
      ensures State() == UpgradeToCandidate(cfg, old(State()), stopped)
    {
      if cfg.members - {id} == {} || changeError {
        return;
      }
      if stopped {
        io := false;
      }
      ChangeState(Candidate);
    }

    method HATryToLeader(promotable: bool, stopped: bool)
      modifies this
      ensures State() == TryToLeader(old(State()), promotable, stopped)
    {
      if role == Leader || role == Candidate || role == Idle || role == Invalid {
        return;
      }
      if promotable && stopped {
        io := false;
        ChangeState(Candidate);
      }
    }

    method HADisable() returns (code: RetCode)
      modifies this
      ensures State() == Disable(old(State())) && code == OK
    {
      code := OK;
      if role != Idle {
        ChangeState(Idle);
      }
    }

    method HASetLearner() returns (code: RetCode)
      modifies this
      ensures State() == SetLearner(old(State())) && code == OK
    {
      code := OK;
      ChangeState(Learner);
    }

    method HAEnable() returns (code: RetCode)
      modifies this
      ensures State() == Enable(old(State()), superIdle) && code == OK
    {
      code := OK;
      match role {
        case Idle =>
          if superIdle {
            leader := NO_ONE;
          } else {
            ChangeState(Follower);
          }
        case Learner => ChangeState(Follower);
        case _ =>
      }
    }

    method DegradeToFollower()
      modifies this
      ensures State() == StepDown(old(State()))
    {
      ChangeState(Follower);
    }

    method LeaderBumpView()
      modifies this
      ensures State() == BumpView(old(State()))
    {
      ChangeView(view + 2, leader);
    }
  }
}
