/** How far a leader purges its binary logs (internal/election/raft/leader.go): the name it keeps is
    the smallest one reported since it was last erased, so a purge in the middle of a round, or an
    empty name, makes the next purge pass names that members still need. */
module PurgeBound {
  import opened Text
  import opened LeaderTerm

  /** What was reported: the names since the kept one was last erased; all names of the current
      round, how many of them came before such an erasure, and which event that was (-1 if none);
      and the same three, with the names since, as they were when the purge target was last set. */
  datatype Reports = Reports(
    since: seq<string>, round: seq<string>, gone: nat, at: int,
    basis: seq<string>, full: seq<string>, fullGone: nat, fullAt: int)

  function Nothing(): Reports {
    Reports([], [], 0, -1, [], [], 0, -1)
  }

  /** An answer in a round whose heartbeat was sent. */
  function Answered(c: Config, t: Term, r: Reports, e: Event, k: nat): Reports
    requires e.Reply?
  {
    var round := r.round + [e.file];
    var s :=
      if e.file == "" then r.(since := [], round := round, gone := |round|, at := k)
      else r.(since := r.since + [e.file], round := round);
    if Next(c, t, e).ackGranted == c.members
    then s.(basis := s.since, full := s.round, fullGone := s.gone, fullAt := s.at)
    else s
  }

  /** Event number k. */
  function Report(c: Config, t: Term, r: Reports, e: Event, k: nat): Reports {
    if !Next(c, t, e).leading then Nothing()
    else match e
      case Purge(done) =>
        if t.nextPurgeBinlog == "" || !done then r
        else
          var s := r.(since := [], basis := [], full := [], fullGone := 0, fullAt := -1);
          if r.round == [] then s else s.(gone := |r.round|, at := k)
      case Tick(_) => r.(round := [], gone := 0, at := -1)
      case Reply(ok, _, _, _) => if t.sent && ok then Answered(c, t, r, e, k) else r
      case Leave => r
  }

  function ReportsOf(c: Config, t: Term, events: seq<Event>): Reports {
    if events == [] then Nothing()
    else
      var k := |events| - 1;
      Report(c, Run(c, t, events[..k]), ReportsOf(c, t, events[..k]), events[k], k)
  }

  // ---------------------------------------------------------------- the kept name is a minimum

  ghost predicate Minimum(name: string, names: seq<string>) {
    if names == [] then name == ""
    else name in names && forall g | g in names :: g != "" && NotAfter(name, g)
  }

  lemma MinimumSnoc(name: string, names: seq<string>, file: string)
    requires Minimum(name, names) && file != ""
    ensures Minimum(if name == "" || Before(file, name) then file else name, names + [file])
  {
    BeforeTrichotomy(file, file);
    if names == [] {
    } else if Before(file, name) {
      forall g | g in names ensures NotAfter(file, g) {
        assert NotAfter(name, g);
        if Before(g, file) {
          BeforeTransitive(g, file, name);
        }
      }
    }
  }

  /** What holds of the names kept and reported. */
  ghost predicate Kept(c: Config, t: Term, r: Reports) {
    && Minimum(t.relayMasterLogFile, r.since) && Minimum(t.nextPurgeBinlog, r.basis)
    && r.gone <= |r.round| && r.fullGone <= |r.full|
    && (forall i | r.gone <= i < |r.round| :: r.round[i] in r.since)
    && (forall i | r.fullGone <= i < |r.full| :: r.full[i] in r.basis)
    && t.ackGranted <= |r.round| + 1
    && (r.full != [] ==> |r.full| + 1 >= c.members)
    && (r.full == [] ==> r.basis == [])
  }

  lemma AnswerKeeps(c: Config, t: Term, r: Reports, e: Event, k: nat)
    requires Kept(c, t, r) && e.Reply? && t.leading && !t.mysqlDown && t.sent && e.ok
    ensures Kept(c, Next(c, t, e), Answered(c, t, r, e, k))
  {
    hide Before, Minimum;
    if e.file == "" {
      EmptyMinimum();
      EmptyIsFirst(t.relayMasterLogFile);
    } else {
      MinimumSnoc(t.relayMasterLogFile, r.since, e.file);
    }
  }

  lemma EmptyMinimum()
    ensures Minimum("", [])
  {
  }

  lemma EmptyIsFirst(name: string)
    ensures name != "" ==> Before("", name)
  {
  }

  lemma KeptStep(c: Config, t: Term, r: Reports, e: Event, k: nat)
    requires t.leading ==> Kept(c, t, r)
    ensures Next(c, t, e).leading ==> t.leading && Kept(c, Next(c, t, e), Report(c, t, r, e, k))
    ensures !Next(c, t, e).leading && (!t.leading ==> t.nextPurgeBinlog == "") ==> Next(c, t, e).nextPurgeBinlog == ""
  {
    hide Before, Minimum, Answered;
    EmptyMinimum();
    if t.leading && e.Reply? && !t.mysqlDown && t.sent && e.ok {
      AnswerKeeps(c, t, r, e, k);
    }
  }

  lemma {:induction false} KeptRun(c: Config, view: nat, h: Health, events: seq<Event>)
    ensures var t := Run(c, Begin(view, h), events);
            if t.leading then Kept(c, t, ReportsOf(c, Begin(view, h), events)) else t.nextPurgeBinlog == ""
  {
    hide Next, Report, Kept;
    if events == [] {
      KeptBegin(c, view, h);
    } else {
      var k := |events| - 1;
      KeptRun(c, view, h, events[..k]);
      KeptStep(c, Run(c, Begin(view, h), events[..k]), ReportsOf(c, Begin(view, h), events[..k]), events[k], k);
    }
  }

  lemma KeptBegin(c: Config, view: nat, h: Health)
    ensures Kept(c, Begin(view, h), Nothing())
  {
  }

  /** The purge target passes a name of the latest round in which all members had answered exactly
      when the name was reported before the last erasure and lies before every name reported from
      that erasure to the answer that set the target. */
  lemma PassedExactly(c: Config, view: nat, h: Health, events: seq<Event>, i: nat)
    requires Run(c, Begin(view, h), events).nextPurgeBinlog != ""
    requires i < |ReportsOf(c, Begin(view, h), events).full|
    ensures var target, r := Run(c, Begin(view, h), events).nextPurgeBinlog, ReportsOf(c, Begin(view, h), events);
            && |r.full| + 1 >= c.members
            && (Before(r.full[i], target) <==> i < r.fullGone && forall g | g in r.basis :: Before(r.full[i], g))
  {
    hide Run, ReportsOf, Before;
    KeptRun(c, view, h, events);
    var target, r := Run(c, Begin(view, h), events).nextPurgeBinlog, ReportsOf(c, Begin(view, h), events);
    var f := r.full[i];
    BeforeTrichotomy(f, target);
    if Before(f, target) {
      forall g | g in r.basis ensures Before(f, g) {
        assert NotAfter(target, g);
        BeforeTrichotomy(target, g);
        if target != g {
          BeforeTransitive(f, target, g);
        }
      }
      BeforeTrichotomy(f, f);
    }
  }

  // ---------------------------------------------------------------- over all names

  /** The same events, but for the names in the answers. */
  ghost predicate SameShape(a: seq<Event>, b: seq<Event>) {
    |a| == |b| && forall i | 0 <= i < |a| :: SameButName(a[i], b[i])
  }

  predicate SameButName(e: Event, f: Event) {
    f == e || (e.Reply? && f.Reply? && f == e.(file := f.file))
  }

  ghost predicate AllNamed(events: seq<Event>) {
    forall i | 0 <= i < |events| && events[i].Reply? :: events[i].file != ""
  }

  /** The purge target is no later than any name of the latest round in which all had answered. */
  ghost predicate BoundHolds(c: Config, view: nat, h: Health, events: seq<Event>) {
    var target, full := Run(c, Begin(view, h), events).nextPurgeBinlog, ReportsOf(c, Begin(view, h), events).full;
    target != "" ==> forall i | 0 <= i < |full| :: NotAfter(target, full[i])
  }

  ghost predicate AlikeTerms(t: Term, u: Term) {
    && u.leading == t.leading && u.view == t.view && u.ackGranted == t.ackGranted && u.lessHtAcks == t.lessHtAcks
    && u.incViewID == t.incViewID && u.mysqlDown == t.mysqlDown && u.sent == t.sent
    && (t.relayMasterLogFile == "" <==> u.relayMasterLogFile == "")
    && (t.nextPurgeBinlog == "" <==> u.nextPurgeBinlog == "")
  }

  ghost predicate AlikeReports(r: Reports, s: Reports) {
    && |s.round| == |r.round| && s.gone == r.gone && s.at == r.at
    && |s.full| == |r.full| && s.fullGone == r.fullGone && s.fullAt == r.fullAt
  }

  lemma AlikeMissed(c: Config, t: Term, u: Term, h: Health)
    requires AlikeTerms(t, u)
    ensures AlikeTerms(Missed(c, t, h), Missed(c, u, h))
  {
    hide Send;
    var less := if c.members > 2 then t.lessHtAcks + 1 else t.lessHtAcks;
    AlikeSend(t.(lessHtAcks := less).(ackGranted := 1), u.(lessHtAcks := less).(ackGranted := 1), h);
  }

  lemma AlikeReached(c: Config, t: Term, u: Term)
    requires AlikeTerms(t, u)
    ensures AlikeTerms(Reached(c, t).(ackGranted := 1), Reached(c, u).(ackGranted := 1))
  {
  }

  lemma AlikeTick(c: Config, t: Term, u: Term, h: Health)
    requires AlikeTerms(t, u)
    ensures AlikeTerms(HeartbeatTick(c, t, h), HeartbeatTick(c, u, h))
  {
    hide Missed, Reached, Send, Quorum;
    AlikeMissed(c, t, u, h);
    AlikeReached(c, t, u);
    AlikeSend(Reached(c, t).(ackGranted := 1), Reached(c, u).(ackGranted := 1), h);
  }

  lemma AlikeSend(t: Term, u: Term, h: Health)
    requires AlikeTerms(t, u)
    ensures AlikeTerms(Send(t, h), Send(u, h))
  {
  }

  lemma AlikeReply(c: Config, t: Term, u: Term, ok: bool, badView: bool, idle: bool, f: string, g: string)
    requires AlikeTerms(t, u) && f != "" && g != ""
    ensures AlikeTerms(HeartbeatReply(c, t, ok, badView, idle, f), HeartbeatReply(c, u, ok, badView, idle, g))
  {
    hide Before;
  }

  lemma AlikeNext(c: Config, t: Term, u: Term, e: Event, f: Event)
    requires AlikeTerms(t, u) && SameButName(e, f) && (e.Reply? ==> e.file != "" && f.file != "")
    ensures AlikeTerms(Next(c, t, e), Next(c, u, f))
  {
    hide HeartbeatTick, HeartbeatReply;
    match e
    case Tick(h) => AlikeTick(c, t, u, h);
    case Reply(ok, badView, idle, file) => AlikeReply(c, t, u, ok, badView, idle, file, f.file);
    case _ =>
  }

  lemma AlikeStep(c: Config, t: Term, u: Term, r: Reports, s: Reports, e: Event, f: Event, k: nat)
    requires AlikeTerms(t, u) && AlikeReports(r, s) && SameButName(e, f)
    requires e.Reply? ==> e.file != "" && f.file != ""
    ensures AlikeTerms(Next(c, t, e), Next(c, u, f))
    ensures AlikeReports(Report(c, t, r, e, k), Report(c, u, s, f, k))
  {
    hide Next;
    AlikeNext(c, t, u, e, f);
  }

  /** Whether and where a round was cut does not depend on the names. */
  lemma {:induction false} AlikeRuns(c: Config, view: nat, h: Health, a: seq<Event>, b: seq<Event>)
    requires SameShape(a, b) && AllNamed(a) && AllNamed(b)
    ensures AlikeTerms(Run(c, Begin(view, h), a), Run(c, Begin(view, h), b))
    ensures AlikeReports(ReportsOf(c, Begin(view, h), a), ReportsOf(c, Begin(view, h), b))
  {
    hide Next, Report, AlikeTerms, AlikeReports;
    var t0 := Begin(view, h);
    if a == [] {
      AlikeBegin(t0);
    } else {
      var k := |a| - 1;
      assert SameShape(a[..k], b[..k]) && AllNamed(a[..k]) && AllNamed(b[..k]);
      AlikeRuns(c, view, h, a[..k], b[..k]);
      assert SameButName(a[k], b[k]);
      AlikeStep(c, Run(c, t0, a[..k]), Run(c, t0, b[..k]), ReportsOf(c, t0, a[..k]), ReportsOf(c, t0, b[..k]),
                a[k], b[k], k);
    }
  }

  lemma AlikeBegin(t: Term)
    ensures AlikeTerms(t, t) && AlikeReports(Nothing(), Nothing())
  {
  }

  /** The same events with one name for all answers before event p and another from there on. */
  function Threshold(events: seq<Event>, p: int): (t: seq<Event>)
    ensures |t| == |events|
  {
    seq(|events|, i requires 0 <= i < |events| =>
      if events[i].Reply? then events[i].(file := if i < p then "a" else "b") else events[i])
  }

  ghost predicate AllAre(names: seq<string>, name: string) {
    forall i | 0 <= i < |names| :: names[i] == name
  }

  /** After n events with names that change at p. */
  ghost predicate Parted(r: Reports, n: nat, p: nat) {
    && r.at < n && r.fullAt < n
    && if n <= p then AllAre(r.round, "a")
       else
         && (r.at == p ==> r.round != [] && r.round[0] == "a" && AllAre(r.since, "b"))
         && (r.fullAt == p ==> r.full != [] && r.full[0] == "a" && AllAre(r.basis, "b"))
  }

  lemma PartedStep(c: Config, t: Term, r: Reports, e: Event, n: nat, p: nat)
    requires Parted(r, n, p) && (e.Reply? ==> e.file == if n < p then "a" else "b")
    ensures Parted(Report(c, t, r, e, n), n + 1, p)
  {
    hide Before, Next;
  }

  lemma {:induction false} PartedRun(c: Config, view: nat, h: Health, events: seq<Event>, p: nat, n: nat)
    requires n <= |events|
    ensures Parted(ReportsOf(c, Begin(view, h), Threshold(events, p)[..n]), n, p)
  {
    hide Next, Report, Parted;
    var t0, e := Begin(view, h), Threshold(events, p);
    if n == 0 {
      assert e[..0] == [];
      PartedBegin(p);
    } else {
      PartedRun(c, view, h, events, p, n - 1);
      assert e[..n][..n - 1] == e[..n - 1] && e[..n][n - 1] == e[n - 1];
      PartedStep(c, Run(c, t0, e[..n - 1]), ReportsOf(c, t0, e[..n - 1]), e[n - 1], n - 1, p);
    }
  }

  lemma PartedBegin(p: nat)
    ensures Parted(Nothing(), 0, p)
  {
  }

  /** A cut is a cut by some event, and a round that set the target gave it a name. */
  ghost predicate Placed(r: Reports) {
    && (r.gone > 0 ==> r.at >= 0) && (r.fullGone > 0 ==> r.fullAt >= 0)
    && (r.full != [] ==> r.basis != [])
  }

  lemma PlacedStep(c: Config, t: Term, r: Reports, e: Event, k: nat)
    requires Placed(r) && (e.Reply? ==> e.file != "")
    ensures Placed(Report(c, t, r, e, k))
  {
    hide Before, Next;
  }

  lemma {:induction false} PlacedRun(c: Config, t: Term, events: seq<Event>)
    requires AllNamed(events)
    ensures Placed(ReportsOf(c, t, events))
  {
    hide Report, Placed;
    if events == [] {
      PlacedBegin();
    } else {
      var k := |events| - 1;
      assert AllNamed(events[..k]);
      PlacedRun(c, t, events[..k]);
      PlacedStep(c, Run(c, t, events[..k]), ReportsOf(c, t, events[..k]), events[k], k);
    }
  }

  lemma PlacedBegin()
    ensures Placed(Nothing())
  {
  }

  lemma UncutRoundIsBounded(c: Config, view: nat, h: Health, events: seq<Event>)
    requires ReportsOf(c, Begin(view, h), events).fullGone == 0
    ensures BoundHolds(c, view, h, events)
  {
    hide Run, ReportsOf, Before;
    var full := ReportsOf(c, Begin(view, h), events).full;
    if Run(c, Begin(view, h), events).nextPurgeBinlog != "" {
      forall i | 0 <= i < |full| ensures NotAfter(Run(c, Begin(view, h), events).nextPurgeBinlog, full[i]) {
        PassedExactly(c, view, h, events, i);
      }
    }
  }

  /** For a cut round there are names with which the target passes the first of them. */
  lemma CutRoundIsPassed(c: Config, view: nat, h: Health, events: seq<Event>) returns (named: seq<Event>)
    requires AllNamed(events) && ReportsOf(c, Begin(view, h), events).fullGone > 0
    ensures SameShape(events, named) && AllNamed(named) && !BoundHolds(c, view, h, named)
  {
    hide Run, ReportsOf, Before;
    var t0 := Begin(view, h);
    PlacedRun(c, t0, events);
    var p := ReportsOf(c, t0, events).fullAt;
    named := Threshold(events, p);
    AlikeRuns(c, view, h, events, named);
    PlacedRun(c, t0, named);
    PartedRun(c, view, h, events, p, |events|);
    assert named[..|events|] == named;
    KeptRun(c, view, h, named);
    var r, t := ReportsOf(c, t0, named), Run(c, t0, named);
    AtOnce(c, t0, named);
    assert r.fullAt == p < |events|;
    assert t.nextPurgeBinlog == "b" && r.full[0] == "a";
    AbeforeB();
  }

  lemma AbeforeB()
    ensures Before("a", "b")
  {
  }

  /** Nothing is reported of a term that has ended. */
  lemma AtOnce(c: Config, t: Term, events: seq<Event>)
    requires t.leading
    ensures !Run(c, t, events).leading ==> ReportsOf(c, t, events) == Nothing()
  {
    hide Next;
  }

  /** For given events, whatever names the nodes report, the target stays within the latest full
      round exactly when no effective purge fell after an answer of that round. */
  lemma PurgeBoundExactly(c: Config, view: nat, h: Health, events: seq<Event>)
    requires AllNamed(events)
    ensures (forall named | SameShape(events, named) && AllNamed(named) :: BoundHolds(c, view, h, named))
            <==> ReportsOf(c, Begin(view, h), events).fullGone == 0
  {
    hide Run, ReportsOf, BoundHolds;
    if ReportsOf(c, Begin(view, h), events).fullGone == 0 {
      forall named | SameShape(events, named) && AllNamed(named) ensures BoundHolds(c, view, h, named) {
        AlikeRuns(c, view, h, events, named);
        UncutRoundIsBounded(c, view, h, named);
      }
    } else {
      var named := CutRoundIsPassed(c, view, h, events);
    }
  }

  // ---------------------------------------------------------------- two short runs

  /** A purge in the middle of a round forgets the names answered before it, and the next purge
      removes logs that a member still needs. */
  lemma PurgeMidRoundForgets()
    ensures var c := Config(3, 2);
            var b1, b5 := Reply(true, false, false, "b.1"), Reply(true, false, false, "b.5");
            var events := [b1, b1, Tick(Up), b1, Purge(true), b5];
            Run(c, Begin(1, Up), events).nextPurgeBinlog == "b.5"
  {
    var c := Config(3, 2);
    var b1, b5 := Reply(true, false, false, "b.1"), Reply(true, false, false, "b.5");
    var events := [b1, b1, Tick(Up), b1, Purge(true), b5];
    var t0 := Begin(1, Up);
    assert Run(c, t0, []) == t0;
    RunOn(c, t0, events, 1);
    RunOn(c, t0, events, 2);
    RunOn(c, t0, events, 3);
    RunOn(c, t0, events, 4);
    RunOn(c, t0, events, 5);
    RunOn(c, t0, events, 6);
    assert events[..0] == [] && events[..6] == events;
    BeforeTrichotomy("b.1", "b.1");
  }

  /** An empty name erases the minimum as well: the name of an idle node then takes its place. */
  lemma EmptyNameForgets()
    ensures var c := Config(3, 2);
            var b1, none := Reply(true, false, false, "b.1"), Reply(true, false, false, "");
            Run(c, Begin(1, Up), [b1, none, Reply(true, false, true, "b.9")]).nextPurgeBinlog == "b.9"
  {
    var c := Config(3, 2);
    var events := [Reply(true, false, false, "b.1"), Reply(true, false, false, ""), Reply(true, false, true, "b.9")];
    var t0 := Begin(1, Up);
    assert Run(c, t0, []) == t0;
    RunOn(c, t0, events, 1);
    RunOn(c, t0, events, 2);
    RunOn(c, t0, events, 3);
    assert events[..0] == [] && events[..3] == events;
  }

  lemma RunOn(c: Config, t: Term, events: seq<Event>, k: nat)
    requires 0 < k <= |events|
    ensures Run(c, t, events[..k]) == Next(c, Run(c, t, events[..k - 1]), events[k - 1])
  {
    hide Next;
    assert events[..k][..k - 1] == events[..k - 1];
  }

}
