/** What a vote request and a heartbeat are answered with, and what they change, told the same way
    for all roles: which answer has which cause, and which message moves which field. */
module Replies {
  import opened RaftNode
  import opened Cluster

  // ---------------------------------------------------------------- vote requests

  /** The roles that weigh a request; the others only say who they are. */
  predicate Voting(r: Role) {
    r in {Follower, Candidate, Leader}
  }

  ghost predicate Weighed(cfg: Config, n: Node, req: VoteRequest) {
    Voting(n.role) && req.from in cfg.members && req.from != n.id
  }

  /** A leader asks for more than its own view. */
  predicate Old(n: Node, req: VoteRequest) {
    req.view < n.view || (n.role == Leader && req.view == n.view)
  }

  /** The node has more data than the candidate and could lead with it. */
  predicate Denied(n: Node, req: VoteRequest, a: VoteAnswers) {
    (n.pos > req.pos || (n.pos == req.pos && a.smallerLag)) && a.promotable
  }

  /** The node's vote of the request's view is still to be had. */
  predicate VoteFree(n: Node, req: VoteRequest) {
    req.view > n.view || n.votedFor == NO_ONE || n.votedFor == req.from
  }

  /** A vote is given exactly when the request is current, the position can be read, no better
      data denies it, and no other candidate of the view has the vote. */
  ghost predicate Deserves(cfg: Config, n: Node, req: VoteRequest, a: VoteAnswers) {
    Weighed(cfg, n, req) && !Old(n, req) && !a.gtidError && !Denied(n, req, a) && VoteFree(n, req)
  }

  lemma VoteGivenExactly(cfg: Config, n: Node, req: VoteRequest, a: VoteAnswers)
    ensures Counts(HandleVote(cfg, n, req, a).rsp) <==> Deserves(cfg, n, req, a)
  {
  }

  /** Every refusal has one cause, and every answer names the view and the role before it. */
  lemma RefusalsHaveCauses(cfg: Config, n: Node, req: VoteRequest, a: VoteAnswers)
    ensures var rsp := HandleVote(cfg, n, req, a).rsp;
            && rsp.view == n.view && rsp.role == n.role
            && (rsp.code == ErrorInvalidViewID <==> Weighed(cfg, n, req) && Old(n, req))
            && (rsp.code == ErrorMySQLDown <==> Weighed(cfg, n, req) && !Old(n, req) && a.gtidError)
            && (rsp.code == ErrorInvalidGTID <==>
                  Weighed(cfg, n, req) && !Old(n, req) && !a.gtidError && Denied(n, req, a))
  {
  }

  lemma OthersAreRefused(cfg: Config, n: Node, req: VoteRequest, a: VoteAnswers)
    ensures var code := HandleVote(cfg, n, req, a).rsp.code;
            && (code == ErrorInvalidRequest <==> n.role == Invalid || !cfg.Known(n.id, req.from))
            && (code == OK <==> Deserves(cfg, n, req, a) || (n.role == Idle && cfg.Known(n.id, req.from)))
            && code !in {ErrorChangeMaster, ErrorRPCCall}
  {
  }

  /** What a granted vote leaves behind: a follower of the request's view that has voted. */
  lemma GrantLeaves(cfg: Config, n: Node, req: VoteRequest, a: VoteAnswers)
    requires Deserves(cfg, n, req, a)
    ensures var m := HandleVote(cfg, n, req, a).node;
            && m.role == Follower && m.view == req.view && m.votedFor == req.from
            && m.polling == (n.role == Follower && n.polling)
            && m.leader == if n.role == Follower && req.view == n.view then n.leader else NO_ONE
  {
    match n.role
    case Follower =>
    case Candidate =>
    case Leader =>
    case _ =>
  }

  /** A refusal keeps role, view, vote and leader, except that a candidate ahead in data catches up
      with the view that it denies. */
  lemma RefusalLeaves(cfg: Config, n: Node, req: VoteRequest, a: VoteAnswers)
    requires !Deserves(cfg, n, req, a)
    ensures var m := HandleVote(cfg, n, req, a).node;
            && m.role == n.role && m.polling == n.polling
            && if n.role == Candidate && HandleVote(cfg, n, req, a).rsp.code == ErrorInvalidGTID && req.view > n.view
               then m.view == req.view && m.votedFor == NO_ONE && m.leader == NO_ONE
               else m.view == n.view && m.votedFor == n.votedFor && m.leader == n.leader
  {
  }

  /** A follower stops its IO thread for every current request, granted or not; nobody else does. */
  lemma VoteFreezes(cfg: Config, n: Node, req: VoteRequest, a: VoteAnswers)
    ensures HandleVote(cfg, n, req, a).node.io
         == (n.io && !(n.role == Follower && Weighed(cfg, n, req) && !Old(n, req) && a.stopped))
  {
    match n.role
    case Follower =>
    case Candidate =>
    case Leader =>
    case _ =>
  }

  /** What no message moves by itself: the node's data and its rounds. */
  predicate SameData(n: Node, m: Node) {
    && m.id == n.id && m.pos == n.pos && m.round == n.round && m.votes == n.votes
    && m.switchMaster == n.switchMaster
  }

  lemma CandidateVoteKeeps(cfg: Config, n: Node, req: VoteRequest, a: VoteAnswers)
    ensures SameData(n, CandidateVote(cfg, n, req, a).node)
    ensures CandidateVote(cfg, n, req, a).node.changeError == n.changeError
  {
    hide Greater;
    if Greater(n, req, a) {
    } else {
    }
  }

  /** A vote request moves no data, and does not touch the memory of a failed change of source. */
  lemma VoteKeeps(cfg: Config, n: Node, req: VoteRequest, a: VoteAnswers)
    ensures SameData(n, HandleVote(cfg, n, req, a).node)
    ensures HandleVote(cfg, n, req, a).node.changeError == n.changeError
  {
    hide CandidateVote;
    match n.role
    case Follower =>
    case Candidate => CandidateVoteKeeps(cfg, n, req, a);
    case Leader =>
    case _ =>
  }

  // ---------------------------------------------------------------- heartbeats

  /** A heartbeat from a member that is not behind the node's view. */
  ghost predicate Heeded(cfg: Config, n: Node, hb: Heartbeat) {
    hb.from in cfg.members && hb.from != n.id && n.view <= hb.view
  }

  /** A heartbeat of an older view, or from no member, changes nothing; only the roles that vote
      tell its sender that the view is old. */
  lemma UnheededBeat(cfg: Config, n: Node, hb: Heartbeat, a: BeatAnswers)
    requires !Heeded(cfg, n, hb)
    ensures HandleBeat(cfg, n, hb, a).node == n
    ensures HandleBeat(cfg, n, hb, a).code ==
            if !cfg.Known(n.id, hb.from) then ErrorInvalidRequest
            else if Voting(n.role) then ErrorInvalidViewID else OK
  {
  }

  /** Roles that replicate from the sender of a heartbeat. */
  predicate Replicates(r: Role) {
    r in {Follower, Idle, Invalid}
  }

  /** The heartbeat makes the node change its replication source, by the election's own means. */
  predicate Changes(cfg: Config, n: Node, hb: Heartbeat) {
    Replicates(n.role) && n.leader != hb.from && !(n.role == Follower && cfg.delegated)
  }

  /** A heeded heartbeat is answered OK unless a change of the replication source failed. */
  lemma BeatAnswered(cfg: Config, n: Node, hb: Heartbeat, a: BeatAnswers)
    requires Heeded(cfg, n, hb)
    ensures HandleBeat(cfg, n, hb, a).code == if Changes(cfg, n, hb) && !a.changed then ErrorChangeMaster else OK
  {
  }

  ghost predicate Follows(n: Node, hb: Heartbeat, m: Node) {
    && m.view == hb.view && m.votedFor == (if hb.view > n.view then NO_ONE else n.votedFor)
    && m.leader == if Replicates(n.role) || hb.view > n.view then hb.from else n.leader
  }

  lemma FollowerFollows(cfg: Config, n: Node, hb: Heartbeat, a: BeatAnswers)
    requires Heeded(cfg, n, hb) && FollowerBeat(cfg, n, hb, a).code == OK && n.role == Follower
    ensures Follows(n, hb, FollowerBeat(cfg, n, hb, a).node)
  {
  }

  /** Whom the node follows afterwards, and in which view. */
  lemma BeatFollowed(cfg: Config, n: Node, hb: Heartbeat, a: BeatAnswers)
    requires Heeded(cfg, n, hb) && HandleBeat(cfg, n, hb, a).code == OK
    ensures var m := HandleBeat(cfg, n, hb, a).node;
            if n.role in {Candidate, Leader} then
              m.role == Follower && !m.polling && m.leader == NO_ONE && m.view == n.view && m.votedFor == n.votedFor
            else
              Follows(n, hb, m)
  {
    hide FollowerBeat;
    match n.role
    case Follower => FollowerFollows(cfg, n, hb, a);
    case Idle =>
    case Invalid =>
    case _ =>
  }

  /** An OK means that the sender is followed in its view, exactly unless the receiver was a
      candidate or a leader, or a learner that follows somebody else in that view. */
  lemma OkMeansFollowing(cfg: Config, n: Node, hb: Heartbeat, a: BeatAnswers)
    requires cfg.Valid() && Heeded(cfg, n, hb) && HandleBeat(cfg, n, hb, a).code == OK
    ensures var m := HandleBeat(cfg, n, hb, a).node;
            m.leader == hb.from && m.view == hb.view <==>
              n.role !in {Candidate, Leader} && (n.role == Learner ==> n.view < hb.view || n.leader == hb.from)
  {
    hide HandleBeat;
    BeatFollowed(cfg, n, hb, a);
  }

  /** A follower that has to change its source leaves the election exactly when it holds
      transactions of its own, in a cluster of more than two. */
  lemma LeavesElectionExactly(cfg: Config, n: Node, hb: Heartbeat, a: BeatAnswers)
    requires n.role == Follower
    ensures HandleBeat(cfg, n, hb, a).node.role ==
            if Heeded(cfg, n, hb) && Changes(cfg, n, hb) && |cfg.members| > 2 && a.localCommits
            then Invalid else Follower
  {
  }

  /** A failed change of the source keeps view and vote, and is remembered by a follower, which can
      then not become candidate, until a change succeeds. */
  lemma FailedChangeLeaves(cfg: Config, n: Node, hb: Heartbeat, a: BeatAnswers)
    requires Heeded(cfg, n, hb)
    ensures var m := HandleBeat(cfg, n, hb, a).node;
            && (m.changeError <==> if n.role == Follower && Changes(cfg, n, hb) then !a.changed else n.changeError)
            && (Changes(cfg, n, hb) && !a.changed ==>
                  m.view == n.view && m.votedFor == n.votedFor && m.leader == if m.role == Invalid && n.role != Invalid
                  then NO_ONE else n.leader)
  {
    match n.role
    case Follower =>
    case Idle =>
    case Invalid =>
    case _ =>
  }

  /** A heeded heartbeat starts the IO thread of a node that replicates, and a change of the source
      restarts it; a follower that failed to change may be left with the thread it stopped. */
  lemma BeatRestarts(cfg: Config, n: Node, hb: Heartbeat, a: BeatAnswers)
    requires Heeded(cfg, n, hb)
    ensures var m := HandleBeat(cfg, n, hb, a).node;
            m.io <==>
              if !Replicates(n.role) || (n.role == Follower && cfg.delegated) then n.io
              else if Changes(cfg, n, hb) && a.changed then true
              else (n.io || a.started)
                   && !(n.role == Follower && Changes(cfg, n, hb) && |cfg.members| > 2 && a.stopped)
  {
    match n.role
    case Follower =>
    case Idle =>
    case Invalid =>
    case _ =>
  }

  lemma AdoptKeeps(hb: Heartbeat, a: BeatAnswers)
    ensures forall n: Node :: SameData(n, AdoptView(n, hb)) && AdoptView(n, hb).role == n.role
    ensures forall n: Node :: SameData(n, DegradeToInvalid(n, a))
  {
  }

  lemma FollowerBeatKeeps(cfg: Config, n: Node, hb: Heartbeat, a: BeatAnswers)
    ensures SameData(n, FollowerBeat(cfg, n, hb, a).node)
  {
    hide AdoptView, DegradeToInvalid;
    AdoptKeeps(hb, a);
  }

  /** And idle nodes, nodes out of the election and learners keep their role. */
  lemma BeatKeeps(cfg: Config, n: Node, hb: Heartbeat, a: BeatAnswers)
    ensures SameData(n, HandleBeat(cfg, n, hb, a).node)
    ensures n.role in {Idle, Invalid, Learner} ==> HandleBeat(cfg, n, hb, a).node.role == n.role
  {
    hide AdoptView, FollowerBeat;
    AdoptKeeps(hb, a);
    FollowerBeatKeeps(cfg, n, hb, a);
  }
}
