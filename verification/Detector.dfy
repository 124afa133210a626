/** The failure detector of the local MySQL (internal/database/mysql/mysql.go: Ping,
    handlePingFailure, ShouldDeferFailover; mysql_errors.go). */
module Detector {
  import opened Text

  datatype PingError = Server(number: int) | Other(text: string)
  datatype Ping = Success(relayFile: string) | Failure(error: PingError)

  const TOO_MANY := 1040

  predicate IsTooManyConnections(e: PingError) {
    match e
    case Server(number) => number == TOO_MANY
    case Other(text) => Contains(text, "Too many connections")
  }

  // ---------------------------------------------------------------- what a history means

  /** How many pings failed since the last one that succeeded. */
  function TrailingFailures(h: seq<Ping>): nat {
    if h == [] || h[|h| - 1].Success? then 0 else 1 + TrailingFailures(h[..|h| - 1])
  }

  /** The database is given up: no ping ever succeeded, or enough in a row failed. */
  ghost predicate Dead(limit: int, h: seq<Ping>) {
    (forall p | p in h :: p.Failure?) || Exhausted(limit, h)
  }

  function Needed(limit: int): nat {
    if limit < 0 then 1 else limit + 2
  }

  /** The last limit + 2 pings, and at least one, failed. */
  ghost predicate Exhausted(limit: int, h: seq<Ping>) {
    Needed(limit) <= |h| && forall i | |h| - Needed(limit) <= i < |h| :: h[i].Failure?
  }

  /** The error of a server without free connections: its number is 1040, or, where no number is
      known, its text says so somewhere. */
  ghost predicate Refusal(e: PingError) {
    e == Server(1040) || (e.Other? && exists i :: At(e.text, i, "Too many connections"))
  }

  lemma RefusalIsRecognised(e: PingError)
    ensures IsTooManyConnections(e) <==> Refusal(e)
  {
    if e.Other? {
      ContainsMeans(e.text, "Too many connections");
    }
  }

  ghost predicate RefusedLast(h: seq<Ping>) {
    h != [] && h[|h| - 1].Failure? && Refusal(h[|h| - 1].error)
  }

  lemma {:induction false} TrailingMeans(h: seq<Ping>, k: nat)
    requires k <= |h|
    ensures TrailingFailures(h) >= k <==> forall i | |h| - k <= i < |h| :: h[i].Failure?
  {
    if k > 0 {
      var front := h[..|h| - 1];
      TrailingMeans(front, k - 1);
      assert forall i | 0 <= i < |front| :: front[i] == h[i];
      if h[|h| - 1].Failure? && TrailingFailures(front) >= k - 1 {
        forall i | |h| - k <= i < |h| ensures h[i].Failure? {
          assert i < |front| ==> front[i].Failure?;
        }
      }
      if forall i | |h| - k <= i < |h| :: h[i].Failure? {
        assert h[|h| - 1].Failure?;
        forall i | |front| - (k - 1) <= i < |front| ensures front[i].Failure? {
          assert h[i].Failure?;
        }
      }
    }
  }

  lemma {:induction false} TrailingLength(h: seq<Ping>)
    ensures TrailingFailures(h) <= |h|
    ensures h != [] ==> (TrailingFailures(h) >= 1 <==> h[|h| - 1].Failure?)
  {
    if h != [] && h[|h| - 1].Failure? {
      TrailingLength(h[..|h| - 1]);
    }
  }

  /** The counter reaches the limit exactly when the history is exhausted. */
  lemma ExhaustedByCount(limit: int, h: seq<Ping>)
    ensures Exhausted(limit, h) <==> TrailingFailures(h) >= 1 && TrailingFailures(h) >= limit + 2
    ensures Exhausted(limit, h) ==> h[|h| - 1].Failure?
  {
    TrailingLength(h);
    if Needed(limit) <= |h| {
      TrailingMeans(h, Needed(limit));
    }
  }

  lemma DeadSnoc(limit: int, h: seq<Ping>, p: Ping)
    ensures Dead(limit, h + [p]) <==> p.Failure? && (Exhausted(limit, h + [p]) || Dead(limit, h))
  {
    var g := h + [p];
    assert p in g && g[|g| - 1] == p;
    assert forall q :: q in g <==> q in h || q == p;
    ExhaustedByCount(limit, h);
    ExhaustedByCount(limit, g);
    assert g[..|h|] == h;
  }

  /** Longer histories of failure only get worse. */
  lemma {:induction false} StaysDead(limit: int, h: seq<Ping>, more: seq<Ping>)
    requires Dead(limit, h) && forall p | p in more :: p.Failure?
    ensures Dead(limit, h + more)
  {
    if more == [] {
      assert h + more == h;
    } else {
      var k := |more| - 1;
      assert forall p | p in more[..k] :: p in more;
      StaysDead(limit, h, more[..k]);
      DeadSnoc(limit, h + more[..k], more[k]);
      assert h + more == h + more[..k] + [more[k]];
    }
  }

  // ---------------------------------------------------------------- the detector

  class Mysql {
    const admitDefeatPingCnt: int
    const failoverOnTooManyConnections: bool
    var downs: nat
    var alive: bool
    var deadDueToTooManyConnections: bool
    var relayMasterLogFile: string
    ghost var history: seq<Ping>

    ghost predicate Valid()
      reads this
    {
      && downs == TrailingFailures(history)
      && (alive <==> !Dead(admitDefeatPingCnt, history))
      && (deadDueToTooManyConnections <==> Exhausted(admitDefeatPingCnt, history) && RefusedLast(history))
    }

    constructor (limit: int, override: bool)
      ensures Valid() && history == [] && admitDefeatPingCnt == limit && failoverOnTooManyConnections == override
    {
      admitDefeatPingCnt, failoverOnTooManyConnections := limit, override;
      downs, alive, deadDueToTooManyConnections, relayMasterLogFile, history := 0, false, false, "", [];
    }

    method HandlePingFailure(error: PingError)
      requires Valid()
      modifies this
      ensures Valid() && history == old(history) + [Failure(error)]
      ensures relayMasterLogFile == old(relayMasterLogFile)
    {
      hide IsTooManyConnections, Refusal;
      ghost var p := Failure(error);
      RefusalIsRecognised(error);
      DeadSnoc(admitDefeatPingCnt, history, p);
      ExhaustedByCount(admitDefeatPingCnt, history);
      ExhaustedByCount(admitDefeatPingCnt, history + [p]);
      assert (history + [p])[..|history|] == history;
      if downs > admitDefeatPingCnt {
        if IsTooManyConnections(error) {
          deadDueToTooManyConnections := true;
        } else {
          deadDueToTooManyConnections := false;
        }
        alive := false;
      }
      downs := downs + 1;
      history := history + [p];
    }

    method Ping(answer: Ping)
      requires Valid()
      modifies this
      ensures Valid() && history == old(history) + [answer]
      ensures relayMasterLogFile == if answer.Success? then answer.relayFile else old(relayMasterLogFile)
    {
      hide IsTooManyConnections, Refusal, Dead, Exhausted;
      match answer
      case Failure(error) =>
        HandlePingFailure(error);
      case Success(file) =>
        DeadSnoc(admitDefeatPingCnt, history, answer);
        ExhaustedByCount(admitDefeatPingCnt, history + [answer]);
        downs := 0;
        deadDueToTooManyConnections := false;
        alive := true;
        relayMasterLogFile := file;
        history := history + [answer];
    }

    /** Failover is put off exactly when the history is exhausted, its last error is that of a
        server without free connections, and the operator did not override. */
    method ShouldDeferFailover() returns (defer: bool)
      requires Valid()
      ensures defer <==> !failoverOnTooManyConnections && Exhausted(admitDefeatPingCnt, history) && RefusedLast(history)
      ensures defer ==> !alive
    {
      if failoverOnTooManyConnections {
        return false;
      }
      return !alive && deadDueToTooManyConnections;
    }
  }
}
