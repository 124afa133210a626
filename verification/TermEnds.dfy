/** When a leader's term ends and how its view moves, read from the events alone: the ticks, the
    answers, what the detector said, and nothing that the leader stores. */
module TermEnds {
  import opened LeaderTerm
  import opened Text

  // ---------------------------------------------------------------- what ends a term

  /** The entry into the loop, or a tick, found the database down. */
  predicate WasDown(h: Health, events: seq<Event>) {
    h == Down || exists j | 0 <= j < |events| :: events[j] == Tick(Down)
  }

  /** A member answered the heartbeat of the running round with a newer view. */
  predicate ToldOld(h: Health, events: seq<Event>, i: int) {
    && 0 <= i < |events| && events[i].Reply? && !events[i].ok && events[i].badView
    && HeartbeatSent(h, events[..i])
  }

  /** The i-th event ends the term by itself: the node leaves, or is told of a newer view, or the loop
      comes round after the database was found down. */
  predicate Fatal(h: Health, events: seq<Event>, i: int) {
    && 0 <= i < |events|
    && (events[i].Leave? || ToldOld(h, events, i) || (!events[i].Purge? && WasDown(h, events[..i])))
  }

  /** For every tick, whether not more than half of the members had acknowledged its round. */
  function TicksBelow(c: Config, h: Health, events: seq<Event>): seq<bool> {
    if events == [] then []
    else
      var k := |events| - 1;
      if events[k].Tick? then TicksBelow(c, h, events[..k]) + [2 * Acks(h, events[..k]) <= c.members]
      else TicksBelow(c, h, events[..k])
  }

  /** So many ticks in a row were below quorum that the leader gives up; with at most two members it
      does so only if it has no patience at all. */
  ghost predicate GaveUp(c: Config, h: Health, events: seq<Event>) {
    (c.members > 2 || c.admitDefeat <= 0) && Impatient(TicksBelow(c, h, events), Patience(c))
  }

  ghost predicate Ended(c: Config, h: Health, events: seq<Event>) {
    GaveUp(c, h, events) || exists i :: Fatal(h, events, i)
  }

  lemma FatalPrefix(h: Health, events: seq<Event>, i: int, k: int)
    requires 0 <= i < k <= |events|
    ensures Fatal(h, events[..k], i) <==> Fatal(h, events, i)
  {
    assert events[..k][..i] == events[..i];
  }

  lemma ImpatientGrows(l: seq<bool>, b: bool, k: nat)
    requires Impatient(l, k)
    ensures Impatient(l + [b], k)
  {
    var i :| Window(l, i, k);
    assert forall j | 0 <= j < |l| :: (l + [b])[j] == l[j];
    assert Window(l + [b], i, k);
  }

  lemma EndedSnoc(c: Config, h: Health, events: seq<Event>)
    requires events != []
    ensures var k := |events| - 1;
            Ended(c, h, events) <==> Ended(c, h, events[..k]) || Fatal(h, events, k) || GaveUp(c, h, events)
  {
    hide Fatal, Impatient, Acks;
    var k := |events| - 1;
    if GaveUp(c, h, events[..k]) && events[k].Tick? {
      ImpatientGrows(TicksBelow(c, h, events[..k]), 2 * Acks(h, events[..k]) <= c.members, Patience(c));
    }
    if i :| Fatal(h, events[..k], i) {
      FatalIndex(h, events[..k], i);
      FatalPrefix(h, events, i, k);
    }
    if i :| Fatal(h, events, i) {
      FatalIndex(h, events, i);
      if i < k {
        FatalPrefix(h, events, i, k);
      }
    }
  }

  lemma FatalIndex(h: Health, events: seq<Event>, i: int)
    requires Fatal(h, events, i)
    ensures 0 <= i < |events|
  {
  }

  lemma WasDownSnoc(h: Health, events: seq<Event>)
    requires events != []
    ensures var k := |events| - 1;
            WasDown(h, events) <==> WasDown(h, events[..k]) || events[k] == Tick(Down)
  {
    var k := |events| - 1;
    assert forall j | 0 <= j < k :: events[..k][j] == events[j];
    if WasDown(h, events[..k]) && h != Down {
      var j :| 0 <= j < k && events[..k][j] == Tick(Down);
      assert events[j] == Tick(Down);
    }
  }

  // ---------------------------------------------------------------- the term follows the events

  /** The counter of the ticks below quorum, which a cluster of at most two does not keep. */
  ghost predicate Patient(c: Config, t: Term, l: seq<bool>) {
    t.lessHtAcks == (if c.members > 2 then Trailing(l) else 0)
  }

  ghost predicate Follows(c: Config, t: Term, h: Health, events: seq<Event>) {
    && (t.leading <==> !Ended(c, h, events))
    && (t.leading ==>
          && (t.mysqlDown <==> WasDown(h, events))
          && Patient(c, t, TicksBelow(c, h, events)))
  }

  lemma FollowsBegin(c: Config, view: nat, h: Health)
    ensures Follows(c, Begin(view, h), h, [])
  {
  }

  lemma FollowsTick(c: Config, t: Term, h: Health, events: seq<Event>)
    requires events != [] && events[|events| - 1].Tick?
    requires Follows(c, t, h, events[..|events| - 1]) && t.leading && !t.mysqlDown
    requires t.ackGranted == Acks(h, events[..|events| - 1])
    ensures Follows(c, Next(c, t, events[|events| - 1]), h, events)
  {
    hide Impatient, Acks, Trailing, WasDown, HeartbeatSent, Before;
    var k := |events| - 1;
    var l, below := TicksBelow(c, h, events[..k]), 2 * Acks(h, events[..k]) <= c.members;
    EndedSnoc(c, h, events);
    WasDownSnoc(h, events);
    assert !GaveUp(c, h, events[..k]);
    if c.members > 2 || c.admitDefeat <= 0 {
      ImpatientSnoc(l, below, Patience(c));
    }
    TrailingSnoc(l, below);
    if c.members <= 2 {
      TrailingAtLast(l, below);
    }
  }

  lemma TrailingAtLast(l: seq<bool>, b: bool)
    ensures Trailing(l + [b]) >= 1 <==> b
  {
    TrailingSnoc(l, b);
  }

  lemma FollowsOther(c: Config, t: Term, h: Health, events: seq<Event>)
    requires events != []
    requires Follows(c, t, h, events[..|events| - 1]) && t.leading
    requires events[|events| - 1].Tick? ==> t.mysqlDown
    requires !t.mysqlDown ==> t.sent == HeartbeatSent(h, events[..|events| - 1])
    ensures Follows(c, Next(c, t, events[|events| - 1]), h, events)
  {
    hide Impatient, Acks, Trailing, WasDown, HeartbeatSent, Before;
    EndedSnoc(c, h, events);
    WasDownSnoc(h, events);
  }

  lemma FollowsEnded(c: Config, t: Term, h: Health, events: seq<Event>)
    requires events != []
    requires Follows(c, t, h, events[..|events| - 1]) && !t.leading
    ensures Follows(c, Next(c, t, events[|events| - 1]), h, events)
  {
    hide GaveUp, Fatal;
    EndedSnoc(c, h, events);
  }

  lemma {:induction false} TermFollows(c: Config, view: nat, h: Health, events: seq<Event>)
    ensures Follows(c, Run(c, Begin(view, h), events), h, events)
  {
    hide Next, Follows;
    if events == [] {
      FollowsBegin(c, view, h);
    } else {
      var k := |events| - 1;
      var t := Run(c, Begin(view, h), events[..k]);
      TermFollows(c, view, h, events[..k]);
      AcksAreCounted(c, view, h, events[..k]);
      if !t.leading {
        FollowsEnded(c, t, h, events);
      } else if events[k].Tick? && !t.mysqlDown {
        FollowsTick(c, t, h, events);
      } else {
        FollowsOther(c, t, h, events);
      }
    }
  }

  /** After any events, in a cluster of any size, the node still leads exactly if it neither gave up
      nor met an event that ends a term: the node leaving, an answer with a newer view in a round
      whose heartbeat was sent, or any turn of the loop after the database was found down. */
  lemma StepsDownExactly(c: Config, view: nat, h: Health, events: seq<Event>)
    ensures Run(c, Begin(view, h), events).leading <==>
              && !((c.members > 2 || c.admitDefeat <= 0) && Impatient(TicksBelow(c, h, events), Patience(c)))
              && forall i :: !Fatal(h, events, i)
  {
    hide Run, Fatal, Impatient;
    TermFollows(c, view, h, events);
  }

  // ---------------------------------------------------------------- how the view moves

  /** A tick of a round that reached the quorum, but not every member. */
  predicate Partly(c: Config, h: Health, events: seq<Event>, i: int) {
    && 0 <= i < |events| && events[i].Tick?
    && 2 * Acks(h, events[..i]) > c.members && Acks(h, events[..i]) != c.members
  }

  /** A tick of a round in which all members answered. */
  predicate Fully(c: Config, h: Health, events: seq<Event>, i: int) {
    0 <= i < |events| && events[i].Tick? && Acks(h, events[..i]) == c.members
  }

  /** Some member missed a round, and since then all have not answered together. */
  ghost predicate Behind(c: Config, h: Health, events: seq<Event>) {
    exists j :: Partly(c, h, events, j) && forall k | j < k :: !Fully(c, h, events, k)
  }

  /** The first round that a member missed since all had answered. */
  ghost predicate FirstMiss(c: Config, h: Health, events: seq<Event>, i: int) {
    0 <= i < |events| && Partly(c, h, events, i) && !Behind(c, h, events[..i])
  }

  ghost function FirstMisses(c: Config, h: Health, events: seq<Event>): set<int> {
    set i | 0 <= i < |events| && FirstMiss(c, h, events, i)
  }

  lemma RoundPrefix(c: Config, h: Health, events: seq<Event>, i: int, k: int)
    requires 0 <= k <= |events| && i < k
    ensures Partly(c, h, events[..k], i) <==> Partly(c, h, events, i)
    ensures Fully(c, h, events[..k], i) <==> Fully(c, h, events, i)
  {
    assert i >= 0 ==> events[..k][..i] == events[..i];
  }

  lemma RoundRange(c: Config, h: Health, events: seq<Event>, i: int)
    ensures Partly(c, h, events, i) || Fully(c, h, events, i) ==> 0 <= i < |events|
  {
  }

  lemma BehindSnoc(c: Config, h: Health, events: seq<Event>)
    requires events != []
    ensures var k := |events| - 1;
            Behind(c, h, events) <==>
              Partly(c, h, events, k) || (Behind(c, h, events[..k]) && !Fully(c, h, events, k))
  {
    hide Partly, Fully;
    var k := |events| - 1;
    forall i ensures Partly(c, h, events, i) || Fully(c, h, events, i) ==> 0 <= i <= k {
      RoundRange(c, h, events, i);
    }
    forall i ensures Partly(c, h, events[..k], i) || Fully(c, h, events[..k], i) ==> 0 <= i < k {
      RoundRange(c, h, events[..k], i);
    }
    forall i | i < k
      ensures Partly(c, h, events[..k], i) <==> Partly(c, h, events, i)
      ensures Fully(c, h, events[..k], i) <==> Fully(c, h, events, i)
    {
      RoundPrefix(c, h, events, i, k);
    }
    if Partly(c, h, events, k) {
      assert forall j | k < j :: !Fully(c, h, events, j);
    }
    if Behind(c, h, events[..k]) && !Fully(c, h, events, k) {
      var j :| Partly(c, h, events[..k], j) && forall i | j < i :: !Fully(c, h, events[..k], i);
      assert Partly(c, h, events, j) && forall i | j < i :: !Fully(c, h, events, i);
    }
    if Behind(c, h, events) && !Partly(c, h, events, k) {
      var j :| Partly(c, h, events, j) && forall i | j < i :: !Fully(c, h, events, i);
      assert Partly(c, h, events[..k], j) && forall i | j < i :: !Fully(c, h, events[..k], i);
    }
  }

  lemma MissesSnoc(c: Config, h: Health, events: seq<Event>)
    requires events != []
    ensures var k := |events| - 1;
            |FirstMisses(c, h, events)|
            == |FirstMisses(c, h, events[..k])| + if FirstMiss(c, h, events, k) then 1 else 0
  {
    hide FirstMiss;
    var k := |events| - 1;
    forall i | 0 <= i < k ensures FirstMiss(c, h, events[..k], i) <==> FirstMiss(c, h, events, i) {
      MissPrefix(c, h, events, i, k);
    }
    if FirstMiss(c, h, events, k) {
      assert FirstMisses(c, h, events) == FirstMisses(c, h, events[..k]) + {k};
    } else {
      assert FirstMisses(c, h, events) == FirstMisses(c, h, events[..k]);
    }
  }

  lemma MissPrefix(c: Config, h: Health, events: seq<Event>, i: int, k: int)
    requires 0 <= i < k <= |events|
    ensures FirstMiss(c, h, events[..k], i) <==> FirstMiss(c, h, events, i)
  {
    hide Partly, Behind;
    RoundPrefix(c, h, events, i, k);
    assert events[..k][..i] == events[..i];
  }

  lemma ViewStep(c: Config, t: Term, e: Event)
    requires t.leading && Next(c, t, e).leading
    ensures var u := Next(c, t, e);
            if e.Tick? && !t.mysqlDown && 2 * t.ackGranted > c.members then
              if t.ackGranted == c.members then u.view == t.view && !u.incViewID
              else u.view == t.view + (if t.incViewID then 0 else 2) && u.incViewID
            else u.view == t.view && u.incViewID == t.incViewID
  {
    hide Before;
  }

  /** While a node leads, its view is the first one and two more for every round that was the first
      to be missed by a member since all had answered. */
  lemma {:induction false} ViewMovesExactly(c: Config, view: nat, h: Health, events: seq<Event>)
    requires Run(c, Begin(view, h), events).leading
    ensures Run(c, Begin(view, h), events).view == view + 2 * |FirstMisses(c, h, events)|
    ensures Run(c, Begin(view, h), events).incViewID <==> Behind(c, h, events)
  {
    hide Next, FirstMisses, Acks, Behind;
    if events == [] {
      NoMissYet(c, h);
    } else {
      var k := |events| - 1;
      var t := Run(c, Begin(view, h), events[..k]);
      EndsForGood(c, t, events[k]);
      ViewMovesExactly(c, view, h, events[..k]);
      AcksAreCounted(c, view, h, events[..k]);
      ViewStep(c, t, events[k]);
      BehindSnoc(c, h, events);
      MissesSnoc(c, h, events);
      TicksEndWhenDown(c, t, events[k]);
      AtLeastOne(h, events[..k]);
    }
  }

  lemma TicksEndWhenDown(c: Config, t: Term, e: Event)
    requires t.leading && Next(c, t, e).leading
    ensures e.Tick? ==> !t.mysqlDown
  {
  }

  lemma {:induction false} AtLeastOne(h: Health, events: seq<Event>)
    ensures Acks(h, events) >= 1
  {
    if events == [] {
    } else {
      AtLeastOne(h, events[..|events| - 1]);
    }
  }

  lemma NoMissYet(c: Config, h: Health)
    ensures FirstMisses(c, h, []) == {} && !Behind(c, h, [])
  {
  }
}
