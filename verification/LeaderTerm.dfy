/** The counters a leader keeps during one term (internal/election/raft/leader.go, semi-sync): the
    heartbeat answers of the round, the ticks below quorum, the view bump and the name up to which
    binary logs may be purged. */
module LeaderTerm {
  import opened Text

  datatype Config = Config(members: nat, admitDefeat: int)

  /** What the failure detector says when a heartbeat is due. */
  datatype Health = Up | Deferred | Down

  datatype Term = Term(
    leading: bool, view: nat, ackGranted: nat, lessHtAcks: int, incViewID: bool,
    mysqlDown: bool, sent: bool, relayMasterLogFile: string, nextPurgeBinlog: string)

  datatype Event =
    | Tick(health: Health)
    | Reply(ok: bool, badView: bool, idle: bool, file: string)
    | Purge(done: bool)
    | Leave

  function Quorum(c: Config): nat {
    c.members / 2 + 1
  }

  function Degrade(t: Term): Term {
    t.(leading := false, relayMasterLogFile := "", nextPurgeBinlog := "")
  }

  function Send(t: Term, h: Health): Term {
    match h
    case Up => t.(sent := true)
    case Deferred => t.(sent := false)
    case Down => t.(sent := false, mysqlDown := true)
  }

  /** The loop is entered with a first heartbeat. */
  function Begin(view: nat, h: Health): Term {
    Send(Term(true, view, 1, 0, false, false, false, "", ""), h)
  }

  /** A tick of a round below quorum. */
  function Missed(c: Config, t: Term, h: Health): Term {
    var u := t.(lessHtAcks := if c.members > 2 then t.lessHtAcks + 1 else t.lessHtAcks);
    if u.lessHtAcks >= c.admitDefeat then Degrade(u) else Send(u.(ackGranted := 1), h)
  }

  /** A tick of a round that reached it, up to the next heartbeat. */
  function Reached(c: Config, t: Term): Term {
    var u := t.(lessHtAcks := 0);
    if u.ackGranted == c.members then u.(incViewID := false)
    else if !u.incViewID then u.(view := u.view + 2, incViewID := true)
    else u
  }

  function HeartbeatTick(c: Config, t: Term, h: Health): Term {
    if t.ackGranted < Quorum(c) then Missed(c, t, h) else Send(Reached(c, t).(ackGranted := 1), h)
  }

  function HeartbeatReply(c: Config, t: Term, ok: bool, badView: bool, idle: bool, file: string): Term {
    if !ok then if badView then Degrade(t) else t
    else
      var acks := if idle then t.ackGranted else t.ackGranted + 1;
      var relay := if t.relayMasterLogFile == "" || Before(file, t.relayMasterLogFile) then file
          else t.relayMasterLogFile;
      var next := if acks == c.members then relay else t.nextPurgeBinlog;
      t.(ackGranted := acks, relayMasterLogFile := relay, nextPurgeBinlog := next)
  }

  function PurgeBinlog(t: Term, done: bool): Term {
    if t.nextPurgeBinlog != "" && done then t.(relayMasterLogFile := "", nextPurgeBinlog := "") else t
  }

  /** One event; no answer can arrive in a round for which no heartbeat was sent. */
  function Next(c: Config, t: Term, e: Event): Term {
    if !t.leading then t
    else if e.Purge? then PurgeBinlog(t, e.done)
    else if t.mysqlDown then Degrade(t)
    else match e
      case Tick(h) => HeartbeatTick(c, t, h)
      case Reply(ok, badView, idle, file) => if t.sent then HeartbeatReply(c, t, ok, badView, idle, file) else t
      case _ => Degrade(t)
  }

  function Run(c: Config, t: Term, events: seq<Event>): Term {
    if events == [] then t else Next(c, Run(c, t, events[..|events| - 1]), events[|events| - 1])
  }

  // ---------------------------------------------------------------- the answers of a round

  /** Whether the current round began with a heartbeat: the last tick, or the entry into the loop,
      found MySQL up. */
  function HeartbeatSent(h: Health, events: seq<Event>): bool {
    if events == [] then h == Up
    else
      var k := |events| - 1;
      if events[k].Tick? then events[k].health == Up else HeartbeatSent(h, events[..k])
  }

  /** The acknowledgements of the current round: this node's own, and one for every OK of a node
      that is not idle since the last tick. */
  function Acks(h: Health, events: seq<Event>): nat {
    if events == [] then 1
    else
      var k := |events| - 1;
      if events[k].Tick? then 1
      else if events[k].Reply? && events[k].ok && !events[k].idle && HeartbeatSent(h, events[..k])
      then Acks(h, events[..k]) + 1
      else Acks(h, events[..k])
  }

  lemma CountedStep(c: Config, t: Term, e: Event)
    requires t.leading && !t.mysqlDown && Next(c, t, e).leading && !Next(c, t, e).mysqlDown
    ensures var u := Next(c, t, e);
            && u.sent == (if e.Tick? then e.health == Up else t.sent)
            && u.ackGranted == if e.Tick? then 1
                               else if e.Reply? && e.ok && !e.idle && t.sent then t.ackGranted + 1
                               else t.ackGranted
  {
    hide Before;
  }

  lemma EndsForGood(c: Config, t: Term, e: Event)
    ensures Next(c, t, e).leading ==> t.leading && (!Next(c, t, e).mysqlDown ==> !t.mysqlDown)
  {
    hide Before;
  }

  /** While the term goes on, the counter is the number of acknowledgements of the round. */
  lemma {:induction false} AcksAreCounted(c: Config, view: nat, h: Health, events: seq<Event>)
    ensures var t := Run(c, Begin(view, h), events);
            t.leading && !t.mysqlDown ==> t.ackGranted == Acks(h, events) && t.sent == HeartbeatSent(h, events)
  {
    hide Next;
    if events == [] {
    } else {
      var k := |events| - 1;
      AcksAreCounted(c, view, h, events[..k]);
      var t := Run(c, Begin(view, h), events[..k]);
      EndsForGood(c, t, events[k]);
      if t.leading && !t.mysqlDown && Next(c, t, events[k]).leading && !Next(c, t, events[k]).mysqlDown {
        CountedStep(c, t, events[k]);
      }
    }
  }

  // ---------------------------------------------------------------- stepping down

  /** For every tick the leader lives to see, whether its round was below quorum. */
  ghost function Rounds(c: Config, view: nat, h: Health, events: seq<Event>): seq<bool> {
    if events == [] then []
    else
      var k := |events| - 1;
      var before := Run(c, Begin(view, h), events[..k]);
      if events[k].Tick? && before.leading && !before.mysqlDown
      then Rounds(c, view, h, events[..k]) + [Acks(h, events[..k]) < Quorum(c)]
      else Rounds(c, view, h, events[..k])
  }

  ghost function Trailing(l: seq<bool>): nat {
    if l == [] || !l[|l| - 1] then 0 else 1 + Trailing(l[..|l| - 1])
  }

  /** How many ticks below quorum in a row end a term. */
  function Patience(c: Config): nat {
    if c.admitDefeat <= 1 then 1 else c.admitDefeat
  }

  ghost predicate Impatient(l: seq<bool>, k: nat) {
    exists i :: Window(l, i, k)
  }

  ghost predicate Window(l: seq<bool>, i: int, k: nat) {
    0 <= i && i + k <= |l| && forall j | i <= j < i + k :: l[j]
  }

  lemma {:induction false} TrailingBounds(l: seq<bool>)
    ensures Trailing(l) <= |l| && forall j | |l| - Trailing(l) <= j < |l| :: l[j]
    ensures Trailing(l) < |l| ==> !l[|l| - Trailing(l) - 1]
  {
    if l != [] && l[|l| - 1] {
      TrailingBounds(l[..|l| - 1]);
    }
  }

  lemma ImpatientSnoc(l: seq<bool>, b: bool, k: nat)
    requires k > 0 && !Impatient(l, k)
    ensures Impatient(l + [b], k) <==> Trailing(l + [b]) >= k
  {
    hide Trailing;
    var m := l + [b];
    TrailingBounds(m);
    if Trailing(m) >= k {
      assert Window(m, |m| - k, k);
    }
    if Impatient(m, k) {
      var i :| Window(m, i, k);
      assert i + k <= |l| ==> Window(l, i, k) by {
        assert forall j | 0 <= j < |l| :: m[j] == l[j];
      }
      assert Trailing(m) < |m| ==> !m[|m| - Trailing(m) - 1];
    }
  }

  lemma TrailingSnoc(l: seq<bool>, b: bool)
    ensures Trailing(l + [b]) == if b then Trailing(l) + 1 else 0
  {
    assert (l + [b])[..|l|] == l;
  }

  ghost predicate Counts(c: Config, t: Term, l: seq<bool>) {
    t.leading ==> t.lessHtAcks == Trailing(l) && !Impatient(l, Patience(c))
  }

  lemma CountsStep(c: Config, t: Term, l: seq<bool>, e: Event)
    requires c.members > 2 && Counts(c, t, l)
    ensures var m := if e.Tick? && t.leading && !t.mysqlDown then l + [t.ackGranted < Quorum(c)] else l;
            Counts(c, Next(c, t, e), m)
  {
    hide Trailing, Impatient, Before;
    if e.Tick? && t.leading && !t.mysqlDown {
      var b := t.ackGranted < Quorum(c);
      ImpatientSnoc(l, b, Patience(c));
      TrailingSnoc(l, b);
    }
  }

  /** The counter of a term is the number of ticks below quorum in a row, and the term has ended
      if that number reached the limit. */
  lemma {:induction false} CounterIsTrailing(c: Config, view: nat, h: Health, events: seq<Event>)
    requires c.members > 2
    ensures Counts(c, Run(c, Begin(view, h), events), Rounds(c, view, h, events))
  {
    hide Next, Counts;
    if events == [] {
      CountsBegin(c, view, h);
    } else {
      var k := |events| - 1;
      CounterIsTrailing(c, view, h, events[..k]);
      AcksAreCounted(c, view, h, events[..k]);
      CountsStep(c, Run(c, Begin(view, h), events[..k]), Rounds(c, view, h, events[..k]), events[k]);
    }
  }

  lemma CountsBegin(c: Config, view: nat, h: Health)
    ensures Counts(c, Begin(view, h), []) && !Impatient([], Patience(c))
  {
  }

  // ---------------------------------------------------------------- deferred failover

  /** What the detector said at the start of each round. */
  ghost function Healths(h: Health, events: seq<Event>): seq<Health> {
    if events == [] then [h]
    else
      var k := |events| - 1;
      if events[k].Tick? then Healths(h, events[..k]) + [events[k].health] else Healths(h, events[..k])
  }

  lemma {:induction false} NoHeartbeatNoAcks(h: Health, events: seq<Event>)
    ensures Healths(h, events) != []
    ensures HeartbeatSent(h, events) <==> Healths(h, events)[|Healths(h, events)| - 1] == Up
    ensures !HeartbeatSent(h, events) ==> Acks(h, events) == 1
  {
    if events == [] {
    } else {
      NoHeartbeatNoAcks(h, events[..|events| - 1]);
    }
  }

  /** A round without a heartbeat collects no acknowledgement. */
  lemma {:induction false} DeferredRounds(c: Config, view: nat, h: Health, events: seq<Event>)
    requires c.members > 2
    ensures var t, l, hs := Run(c, Begin(view, h), events), Rounds(c, view, h, events), Healths(h, events);
            t.leading && !t.mysqlDown ==>
              |hs| == |l| + 1 && forall i | 0 <= i < |l| && hs[i] == Deferred :: l[i]
  {
    hide Next, Acks, HeartbeatSent;
    if events == [] {
    } else {
      var k := |events| - 1;
      DeferredRounds(c, view, h, events[..k]);
      NoHeartbeatNoAcks(h, events[..k]);
      EndsForGood(c, Run(c, Begin(view, h), events[..k]), events[k]);
    }
  }

  /** A leader whose database stays out of connections ends its term although failover is deferred:
      it sends no heartbeat and so runs out of acknowledgements. */
  lemma DeferralEndsTerm(c: Config, view: nat, h: Health, events: seq<Event>, i: nat)
    requires c.members > 2
    requires i + Patience(c) < |Healths(h, events)|
    requires forall j | i <= j < i + Patience(c) :: Healths(h, events)[j] == Deferred
    ensures var t := Run(c, Begin(view, h), events); !t.leading || t.mysqlDown
  {
    DeferredRounds(c, view, h, events);
    CounterIsTrailing(c, view, h, events);
    var t, l := Run(c, Begin(view, h), events), Rounds(c, view, h, events);
    if t.leading && !t.mysqlDown {
      assert Window(l, i, Patience(c));
      assert Impatient(l, Patience(c));
    }
  }

  // ---------------------------------------------------------------- view bumps

  /** The ticks of rounds in which all members answered. */
  ghost function FullTicks(c: Config, view: nat, h: Health, events: seq<Event>): nat {
    if events == [] then 0
    else
      var k := |events| - 1;
      var before := Run(c, Begin(view, h), events[..k]);
      FullTicks(c, view, h, events[..k]) +
      if events[k].Tick? && before.leading && !before.mysqlDown && Acks(h, events[..k]) == c.members then 1 else 0
  }

  ghost predicate Bumped(view: nat, t: Term, full: nat) {
    t.view >= view && (t.view - view) % 2 == 0 && t.view - view <= 2 * full + (if t.incViewID then 2 else 0)
  }

  lemma BumpStep(c: Config, view: nat, t: Term, full: nat, e: Event)
    requires Bumped(view, t, full)
    ensures var all := e.Tick? && t.leading && !t.mysqlDown && t.ackGranted == c.members;
            Bumped(view, Next(c, t, e), full + if all then 1 else 0)
  {
    hide Before;
  }

  /** The view moves by two at a time, at most once more often than all members answered. */
  lemma {:induction false} ViewBumps(c: Config, view: nat, h: Health, events: seq<Event>)
    ensures Bumped(view, Run(c, Begin(view, h), events), FullTicks(c, view, h, events))
  {
    hide Next;
    if events == [] {
    } else {
      var k := |events| - 1;
      ViewBumps(c, view, h, events[..k]);
      AcksAreCounted(c, view, h, events[..k]);
      BumpStep(c, view, Run(c, Begin(view, h), events[..k]), FullTicks(c, view, h, events[..k]), events[k]);
    }
  }
}

module LeaderTermClass {
  import T = LeaderTerm
  import opened Text

  /** The state of the leader's loop and the fields it shares with the purge job. */
  class Leader {
    const cfg: T.Config
    var leading: bool
    var view: nat
    var ackGranted: nat
    var lessHtAcks: int
    var incViewID: bool
    var mysqlDown: bool
    var sent: bool
    var relayMasterLogFile: string
    var nextPurgeBinlog: string

    ghost function Term(): T.Term
      reads this
    {
      T.Term(leading, view, ackGranted, lessHtAcks, incViewID, mysqlDown, sent, relayMasterLogFile, nextPurgeBinlog)
    }

    constructor (cfg: T.Config, view: nat, health: T.Health)
      ensures this.cfg == cfg && Term() == T.Begin(view, health)
    {
      this.cfg, this.view, leading, ackGranted, lessHtAcks := cfg, view, true, 1, 0;
      incViewID, mysqlDown, sent, relayMasterLogFile, nextPurgeBinlog := false, false, false, "", "";
      new;
      SendHeartbeat(health);
    }

    method SendHeartbeat(health: T.Health)
      modifies this`sent, this`mysqlDown
      ensures Term() == T.Send(old(Term()), health)
    {
      sent := false;
      match health
      case Deferred => return;
      case Down => mysqlDown := true;
      case Up => sent := true;
    }

    method DegradeToFollower()
      modifies this`leading, this`relayMasterLogFile, this`nextPurgeBinlog
      ensures Term() == T.Degrade(old(Term()))
    {
      relayMasterLogFile := "";
      nextPurgeBinlog := "";
      leading := false;
    }

    method HeartbeatTick(health: T.Health)
      modifies this
      ensures Term() == T.HeartbeatTick(cfg, old(Term()), health)
    {
      if ackGranted < cfg.members / 2 + 1 {
        if cfg.members > 2 {
          lessHtAcks := lessHtAcks + 1;
        }
        if lessHtAcks >= cfg.admitDefeat {
          DegradeToFollower();
          return;
        }
      } else {
        lessHtAcks := 0;
        if ackGranted == cfg.members {
          if incViewID {
            incViewID := false;
          }
        } else if !incViewID {
          view := view + 2;
          incViewID := true;
        }
      }
      ackGranted := 1;
      SendHeartbeat(health);
    }

    method ProcessHeartbeatResponse(ok: bool, badView: bool, idle: bool, file: string)
      modifies this
      ensures Term() == T.HeartbeatReply(cfg, old(Term()), ok, badView, idle, file)
    {
      if !ok {
        if badView {
          DegradeToFollower();
        }
      } else {
        if !idle {
          ackGranted := ackGranted + 1;
        }
        if relayMasterLogFile == "" {
          relayMasterLogFile := file;
        } else if Before(file, relayMasterLogFile) {
          relayMasterLogFile := file;
        }
        if ackGranted == cfg.members {
          nextPurgeBinlog := relayMasterLogFile;
        }
      }
    }

    method PurgeBinlog(answer: bool) returns (purgedTo: string)
      modifies this`relayMasterLogFile, this`nextPurgeBinlog
      ensures Term() == T.PurgeBinlog(old(Term()), answer)
      ensures purgedTo == if answer then old(nextPurgeBinlog) else ""
    {
      purgedTo := "";
      if nextPurgeBinlog != "" {
        if answer {
          purgedTo := nextPurgeBinlog;
          relayMasterLogFile := "";
          nextPurgeBinlog := "";
        }
      }
    }

    /** One term: events are taken until the node no longer leads. */
    method Loop(events: seq<T.Event>)
      modifies this
      ensures Term() == T.Run(cfg, old(Term()), events)
    {
      hide T.PurgeBinlog, T.HeartbeatTick, T.HeartbeatReply;
      for i := 0 to |events|
        invariant Term() == T.Run(cfg, old(Term()), events[..i])
      {
        assert events[..i + 1][..i] == events[..i];
        if leading {
          match events[i] {
            case Purge(answer) =>
              var purgedTo := PurgeBinlog(answer);
            case Tick(health) =>
              if mysqlDown {
                DegradeToFollower();
              } else {
                HeartbeatTick(health);
              }
            case Reply(ok, badView, idle, file) =>
              if mysqlDown {
                DegradeToFollower();
              } else if sent {
                ProcessHeartbeatResponse(ok, badView, idle, file);
              }
            case Leave =>
              DegradeToFollower();
          }
        }
      }
      assert events[..|events|] == events;
    }
  }
}
