/** What every sequence of reconcile cycles keeps: the write gate, the order of hooks, demotion and
    database calls, and the meaning of the cached replica target. */
module HaSafety {
  import opened HaCycle
  import opened Text

  // ---------------------------------------------------------------- what the log says so far

  /** A summary of a log: facts of the current cycle, then facts that outlive it. */
  datatype Seen = Seen(
    leader: bool, promotable: bool, ready: bool, reported: bool, stopped: bool, ensured: bool,
    serving: bool,     // the start hook was applied and no stop has completed since
    writable: bool,    // the last change of the read-only option opened the database
    target: string)    // of the latest successful ApplyReplica

  ghost function Watch(m: Seen, e: Event): Seen {
    match e
    case Began(leader) =>
      m.(leader := leader, promotable := false, ready := false, reported := false, stopped := false, ensured := false)
    case Promotability(ok) => m.(promotable := ok)
    case Reported(writable) => m.(reported := writable)
    case Members(rows, primary) => m.(ready := Ready(rows, primary))
    case ReplicaDone(key) => m.(target := key)
    case Opened => m.(writable := true)
    case Closed => m.(writable := false)
    case StartRun(ok) => m.(serving := m.serving || ok)
    case StartSkipped => m.(serving := true)
    case StopRun(ok) => m.(stopped := m.stopped || ok)
    case ReplicaEnsured => m.(serving := false, ensured := true)
    case _ => m
  }

  ghost function Summary(log: Log): Seen {
    if log == [] then Seen(false, false, false, false, false, false, false, false, "")
    else Watch(Summary(log[..|log| - 1]), log[|log| - 1])
  }

  /** Whether an event may follow a log with this summary. */
  ghost predicate Allowed(c: Config, m: Seen, e: Event) {
    match e
    case Opened => m.leader && m.promotable && !c.nofailover && (c.mgr ==> m.ready)
    case StartRun(_) => m.reported && !m.serving
    case CalledPrimary => m.leader && m.promotable && !c.nofailover && !m.writable
    case CalledDemote => m.writable && (c.hooked ==> m.ensured && (c.onStop ==> m.stopped))
    case CalledReplica(_) => !m.writable && (c.hooked ==> m.ensured && (c.onStop ==> m.stopped))
    case _ => true
  }

  ghost predicate Obeys(c: Config, log: Log) {
    forall i | 0 <= i < |log| :: Allowed(c, Summary(log[..i]), log[i])
  }

  lemma Snoc(c: Config, log: Log, e: Event)
    ensures Summary(log + [e]) == Watch(Summary(log), e)
    ensures Obeys(c, log + [e]) <==> Obeys(c, log) && Allowed(c, Summary(log), e)
  {
    hide Allowed, Watch;
    var l := log + [e];
    assert l[..|log|] == log;
    forall i | 0 <= i < |log| ensures l[..i] == log[..i] && l[i] == log[i] {}
    if Obeys(c, l) {
      forall i | 0 <= i < |log| ensures Allowed(c, Summary(log[..i]), log[i]) {
        assert Allowed(c, Summary(l[..i]), l[i]);
      }
      assert Allowed(c, Summary(l[..|log|]), l[|log|]);
    }
  }

  lemma SummaryEmpty()
    ensures Summary([]) == Seen(false, false, false, false, false, false, false, false, "")
  {
  }

  lemma SummaryLast(log: Log)
    requires log != []
    ensures Summary(log) == Watch(Summary(log[..|log| - 1]), log[|log| - 1])
  {
    hide Watch;
  }

  /** Two events in one go. */
  lemma Snoc2(c: Config, log: Log, e: Event, f: Event)
    ensures var m := Watch(Summary(log), e);
            && Summary(log + [e] + [f]) == Watch(m, f)
            && (Obeys(c, log + [e] + [f]) <==> Obeys(c, log) && Allowed(c, Summary(log), e) && Allowed(c, m, f))
  {
    hide *;
    Snoc(c, log, e);
    Snoc(c, log + [e], f);
  }

  /** The invariant of the reconciler. */
  ghost predicate Sound(c: Config, w: World) {
    && Obeys(c, w.log)
    && Summary(w.log).writable == w.db.writable
    && (Summary(w.log).serving ==> w.hook.active)
    && (w.lastReplicaPrimary != "" ==> w.lastReplicaPrimary == Summary(w.log).target)
    && (!c.hooked ==> !w.hook.active)
  }

  /** What every part of a cycle leaves alone in the summary of the cycle. */
  ghost predicate SameCycle(m: Seen, n: Seen) {
    n.leader == m.leader && n.promotable == m.promotable && (m.stopped ==> n.stopped)
  }

  // ---------------------------------------------------------------- the driver's calls

  lemma WritableReadyIsReady(rows: seq<MgrRow>, primary: string)
    ensures HasLive(rows, primary) && CountLive(rows) >= 2 <==> Ready(rows, primary)
  {
    CountsLive(rows);
    if HasLive(rows, primary) && CountLive(rows) >= 2 {
      var k :| 0 <= k < |rows| && Live(rows[k]) && rows[k].id == primary;
      var i, j :| i != j && LiveAt(rows, i) && LiveAt(rows, j);
      if k == i {
        assert k != j && Live(rows[k]) && Live(rows[j]);
      } else {
        assert k != i && Live(rows[k]) && Live(rows[i]);
      }
    }
    if Ready(rows, primary) {
      var i, j :|
        && 0 <= i < |rows| && 0 <= j < |rows| && i != j && rows[i].id == primary
        && rows[i].state in {"ONLINE", "RECOVERING"} && rows[j].state in {"ONLINE", "RECOVERING"};
      assert LiveAt(rows, i) && LiveAt(rows, j);
    }
  }

  ghost predicate LiveAt(rows: seq<MgrRow>, i: int) {
    0 <= i < |rows| && Live(rows[i])
  }

  lemma {:induction false} CountsLive(rows: seq<MgrRow>)
    ensures CountLive(rows) >= 1 <==> exists i :: LiveAt(rows, i)
    ensures CountLive(rows) >= 2 <==> exists i, j :: i != j && LiveAt(rows, i) && LiveAt(rows, j)
  {
    hide Live;
    if rows == [] {
    } else {
      var k := |rows| - 1;
      var front := rows[..k];
      CountsLive(front);
      assert forall i :: LiveAt(front, i) <==> i < k && LiveAt(rows, i);
      assert LiveAt(rows, k) <==> Live(rows[k]);
    }
  }

  /** A driver call made in a state that may become primary. */
  lemma ApplyPrimarySound(c: Config, w: World, p: PrimaryAnswers)
    requires Sound(c, w) && !w.db.writable
    requires Summary(w.log).leader && Summary(w.log).promotable && !c.nofailover
    ensures var r := OnDb(w, ApplyPrimary(c, w.db, w.log, p));
            && Sound(c, r.w) && SameCycle(Summary(w.log), Summary(r.w.log))
            && (c.mgr ==> !r.w.db.writable)
  {
    hide Summary, Obeys;
    var l := w.log + [CalledPrimary];
    Snoc(c, w.log, CalledPrimary);
    Snoc(c, l, Opened);
    Snoc(c, l, Closed);
  }

  lemma DemoteSound(c: Config, w: World, ok: bool)
    requires Sound(c, w)
    requires w.db.writable ==> Allowed(c, Summary(w.log), CalledDemote)
    ensures var r := DemoteIfWritable(w, ok);
            && Sound(c, r.w) && Quiet(c, w, r.w) && (r.ok ==> !r.w.db.writable)
  {
    hide Summary, Obeys;
    var l := w.log + [CalledDemote];
    Snoc(c, w.log, CalledDemote);
    Snoc(c, l, Closed);
  }

  /** The hooks are as they were, and so is what this cycle did to them. */
  ghost predicate Quiet(c: Config, w: World, v: World) {
    && v.hook == w.hook
    && (Summary(w.log).ensured ==> Summary(v.log).ensured)
    && (Summary(w.log).stopped ==> Summary(v.log).stopped)
  }

  lemma ApplyReplicaSound(c: Config, w: World, key: string, to: Source, r: ReplicaAnswers)
    requires Sound(c, w) && !w.db.writable
    requires Allowed(c, Summary(w.log), CalledReplica(""))
    ensures var d := ApplyReplica(c, w.db, w.log, key, to, r);
            && !d.db.writable && Obeys(c, d.log)
            && (var m, n := Summary(w.log), Summary(d.log);
                !n.writable && n.serving == m.serving && n.ensured == m.ensured && n.stopped == m.stopped
                && n.target == if d.ok then key else m.target)
  {
    hide Summary, Obeys;
    var l := w.log + [CalledReplica(key)];
    Snoc(c, w.log, CalledReplica(key));
    Snoc(c, l, Closed);
    Snoc(c, l + [Closed], ReplicaDone(key));
  }

  lemma FollowSound(c: Config, w: World, a: Answers)
    requires Sound(c, w) && !w.db.writable
    requires Allowed(c, Summary(w.log), CalledReplica(""))
    ensures var r := Follow(c, w, a);
            && Sound(c, r.w) && Quiet(c, w, r.w) && !r.w.db.writable
  {
    hide Summary, Obeys, SourceOf, Target, ReplicaTargetKey, ApplyReplica, Allowed;
    ApplyReplicaSound(c, w, ReplicaTargetKey(Target(c, a)), SourceOf(c, Target(c, a)), a.replica);
  }

  // ---------------------------------------------------------------- the hooks

  lemma EnsurePrimarySound(c: Config, w: World, ctxOk: bool, ok: bool)
    requires Sound(c, w) && Summary(w.log).reported && c.hooked
    ensures var r := OnHook(w, EnsurePrimary(c, w.hook, w.log, ctxOk, ok));
            Sound(c, r.w) && r.w.db == w.db
  {
    hide Summary, Obeys;
    Snoc(c, w.log, StartRun(true));
    Snoc(c, w.log, StartRun(false));
    Snoc(c, w.log, StartSkipped);
  }

  lemma EnsureReplicaSound(c: Config, w: World, ctxOk: bool, ok: bool)
    requires Sound(c, w) && c.hooked
    ensures var r := OnHook(w, EnsureReplica(c, w.hook, w.log, ctxOk, ok));
            && Sound(c, r.w) && r.w.db == w.db
            && (r.ok ==> !r.w.hook.active && Summary(r.w.log).ensured && (c.onStop ==> Summary(r.w.log).stopped))
  {
    hide Summary, Obeys;
    Snoc(c, w.log, StopRun(false));
    Snoc(c, w.log, ReplicaEnsured);
    Snoc2(c, w.log, StopRun(true), ReplicaEnsured);
  }

  // ---------------------------------------------------------------- a cycle

  lemma ComputeDesiredSound(c: Config, w: World, a: Answers)
    requires Sound(c, w)
    ensures var v := ComputeDesired(c, w, a);
            && Sound(c, v)
            && (WantsPrimary(c, a) ==> Summary(v.log).leader && Summary(v.log).promotable && !c.nofailover)
  {
    hide Summary, Obeys;
    Snoc(c, w.log, Began(a.leader));
    Snoc2(c, w.log, Began(a.leader), Promotability(a.promotable));
  }

  lemma StopSound(c: Config, w: World, ctxOk: bool, ok: bool)
    requires Sound(c, w)
    ensures var v := OnHook(w, RunStopIfConfigured(c, w.hook, w.log, ctxOk, ok)).w;
            Sound(c, v) && SameCycle(Summary(w.log), Summary(v.log)) && v.db == w.db
  {
    hide Summary, Obeys;
    Snoc(c, w.log, StopRun(ok));
  }

  lemma DefensiveStopSound(c: Config, w: World, a: Answers)
    requires Sound(c, w)
    ensures Sound(c, DefensiveStop(c, w, a))
    ensures SameCycle(Summary(w.log), Summary(DefensiveStop(c, w, a).log))
    ensures DefensiveStop(c, w, a).db == w.db
  {
    hide Summary, Obeys, WantsPrimary, RunStopIfConfigured;
    StopSound(c, w.(defensiveStopDone := true), a.defenceCtxOk, a.defenceOk);
  }

  lemma StatusSound(c: Config, w: World)
    requires Sound(c, w)
    ensures Sound(c, Status(w)) && SameCycle(Summary(w.log), Summary(Status(w).log))
    ensures Summary(Status(w).log).reported == w.db.writable
    ensures Quiet(c, w, Status(w)) && Status(w).db == w.db
  {
    hide Summary, Obeys;
    Snoc(c, w.log, Reported(w.db.writable));
  }

  lemma OpenSound(c: Config, w: World, a: Answers)
    requires Sound(c, w) && c.mgr
    requires Summary(w.log).leader && Summary(w.log).promotable && !c.nofailover
    ensures var m := w.(log := w.log + [Members(a.rows, a.groupPrimary)]);
            && Sound(c, m) && SameCycle(Summary(w.log), Summary(m.log))
            && (WritableReady(c, a.rows, a.groupPrimary) ==>
                  var r := OnDb(m, SetReadWrite(m.db, m.log, a.phase2Ok));
                  Sound(c, r.w) && SameCycle(Summary(w.log), Summary(r.w.log)))
  {
    hide Summary, Obeys, Ready, CountLive, HasLive;
    WritableReadyIsReady(a.rows, a.groupPrimary);
    Snoc(c, w.log, Members(a.rows, a.groupPrimary));
    Snoc(c, w.log + [Members(a.rows, a.groupPrimary)], Opened);
  }

  lemma ApplyMGRPrimarySound(c: Config, w: World, a: Answers)
    requires Sound(c, w) && c.mgr && !w.db.writable
    requires Summary(w.log).leader && Summary(w.log).promotable && !c.nofailover
    ensures var r := ApplyMGRPrimary(c, w, a);
            Sound(c, r.w) && SameCycle(Summary(w.log), Summary(r.w.log))
  {
    hide Summary, Sound, ApplyPrimary, WritableReady, SetReadWrite;
    if !a.phase1 {
      ApplyPrimarySound(c, w, a.primary);
    }
    var p := if a.phase1 then Out(w, true) else OnDb(w, ApplyPrimary(c, w.db, w.log, a.primary));
    assert Sound(c, p.w);
    StatusSound(c, p.w);
    OpenSound(c, Status(p.w), a);
  }

  lemma PromoteSound(c: Config, w: World, a: Answers)
    requires Sound(c, w) && Summary(w.log).reported == w.db.writable
    requires Summary(w.log).leader && Summary(w.log).promotable && !c.nofailover
    ensures var r := Promote(c, w, a);
            && Sound(c, r.w) && (r.ok ==> Summary(r.w.log).reported == r.w.db.writable)
  {
    hide Summary, Sound, ApplyPrimary, ApplyMGRPrimary;
    if c.applyPromote && !w.db.writable {
      if c.mgr {
        ApplyMGRPrimarySound(c, w, a);
        StatusSound(c, ApplyMGRPrimary(c, w, a).w);
      } else {
        ApplyPrimarySound(c, w, a.primary);
        StatusSound(c, OnDb(w, ApplyPrimary(c, w.db, w.log, a.primary)).w);
      }
    }
  }

  lemma BePrimarySound(c: Config, w: World, a: Answers)
    requires Sound(c, w) && Summary(w.log).reported == w.db.writable
    requires Summary(w.log).leader && Summary(w.log).promotable && !c.nofailover
    ensures Sound(c, BePrimary(c, w, a).w)
  {
    hide Summary, Sound, Promote, EnsurePrimary;
    PromoteSound(c, w, a);
    var p := Promote(c, w, a);
    if p.ok && p.w.db.writable && c.hooked {
      EnsurePrimarySound(c, p.w, a.startCtxOk, a.startOk);
    }
  }

  lemma ApplyReplicaIfNeededSound(c: Config, w: World, a: Answers)
    requires Sound(c, w) && !w.db.writable
    requires Allowed(c, Summary(w.log), CalledReplica(""))
    ensures var r := ApplyReplicaIfNeeded(c, w, a);
            && Sound(c, r.w) && Quiet(c, w, r.w) && !r.w.db.writable
  {
    hide Summary, Obeys, Target, ReplicaTargetKey, HasTarget, Follow;
    FollowSound(c, w, a);
    FollowSound(c, w.(lastReplicaPrimary := ""), a);
  }

  lemma BeReplicaSound(c: Config, w: World, a: Answers)
    requires Sound(c, w)
    ensures var r := BeReplica(c, w, a);
            && Sound(c, r.w) && (r.ok ==> !r.w.db.writable && !r.w.hook.active)
  {
    hide Summary, Obeys, EnsureReplica, ApplyReplicaIfNeeded, DemoteIfWritable;
    if c.hooked {
      EnsureReplicaSound(c, w, a.stopCtxOk, a.stopOk);
    }
    var e := if c.hooked then OnHook(w, EnsureReplica(c, w.hook, w.log, a.stopCtxOk, a.stopOk)) else Out(w, true);
    if e.ok {
      DemoteSound(c, e.w, a.demoteOk);
      var d := DemoteIfWritable(e.w, a.demoteOk);
      if d.ok {
        ApplyReplicaIfNeededSound(c, d.w, a);
      }
    }
  }

  /** A cycle keeps the invariant; one that wants a replica and meets no error leaves the database
      read-only and nothing exposed. */
  lemma CycleSound(c: Config, w: World, a: Answers)
    requires Sound(c, w)
    ensures Sound(c, RunOnce(c, w, a).w)
    ensures !WantsPrimary(c, a) && RunOnce(c, w, a).ok ==>
              !RunOnce(c, w, a).w.db.writable && !RunOnce(c, w, a).w.hook.active
  {
    hide Summary, Sound, WantsPrimary, ComputeDesired, DefensiveStop, BePrimary, BeReplica, Status;
    ComputeDesiredSound(c, w, a);
    var v := ComputeDesired(c, w, a);
    DefensiveStopSound(c, v, a);
    var d := DefensiveStop(c, v, a);
    StatusSound(c, d);
    if WantsPrimary(c, a) {
      BePrimarySound(c, Status(d), a);
    } else {
      BeReplicaSound(c, Status(d), a);
    }
  }

  lemma {:induction false} RunSound(c: Config, skip: bool, steps: seq<Step>)
    requires c.delegated
    ensures Sound(c, Run(c, Fresh(skip), steps))
  {
    hide RunOnce;
    if steps == [] {
    } else {
      var k := |steps| - 1;
      RunSound(c, skip, steps[..k]);
      if steps[k].Cycle? {
        CycleSound(c, Run(c, Fresh(skip), steps[..k]), steps[k].a);
      }
    }
  }

  // ---------------------------------------------------------------- reading the log

  /** The cycle that is running at position e began at position b. */
  ghost predicate InCycle(log: Log, b: int, e: int) {
    0 <= b < e <= |log| && log[b].Began? && forall k | b < k < e :: !log[k].Began?
  }

  predicate SaysPromotable(e: Event) {
    e == Promotability(true)
  }

  ghost predicate ShowsReady(e: Event) {
    e.Members? && Ready(e.rows, e.primary)
  }

  predicate Stops(e: Event) {
    e == StopRun(true)
  }

  predicate SaysWritable(e: Event) {
    e == Reported(true)
  }

  /** Such an event happened before position e, in the same cycle. */
  ghost predicate Earlier(log: Log, e: int, p: Event -> bool) {
    exists b, k :: InCycle(log, b, e) && b < k < e && p(log[k])
  }

  ghost predicate Led(log: Log, e: int) {
    exists b :: InCycle(log, b, e) && log[b].leader
  }

  lemma CycleExtends(log: Log, b: int)
    requires log != [] && InCycle(log[..|log| - 1], b, |log| - 1) && !log[|log| - 1].Began?
    ensures InCycle(log, b, |log|)
  {
  }

  lemma EarlierExtends(log: Log, p: Event -> bool)
    requires log != [] && !log[|log| - 1].Began?
    requires Earlier(log[..|log| - 1], |log| - 1, p)
    ensures Earlier(log, |log|, p)
  {
    var n := |log| - 1;
    var b, k :| InCycle(log[..n], b, n) && b < k < n && p(log[..n][k]);
    CycleExtends(log, b);
    assert p(log[k]);
  }

  ghost predicate SomeCycle(log: Log) {
    exists b :: InCycle(log, b, |log|)
  }

  lemma {:induction false} CycleRuns(log: Log)
    requires Opens(log) && log != []
    ensures SomeCycle(log)
  {
    var n := |log| - 1;
    if log[n].Began? {
      assert InCycle(log, n, |log|);
    } else {
      CycleRuns(log[..n]);
      var b :| InCycle(log[..n], b, n);
      CycleExtends(log, b);
    }
  }

  lemma NowInCycle(log: Log, p: Event -> bool)
    requires log != [] && p(log[|log| - 1]) && !log[|log| - 1].Began?
    requires SomeCycle(log[..|log| - 1])
    ensures Earlier(log, |log|, p)
  {
    var n := |log| - 1;
    var b :| InCycle(log[..n], b, n);
    CycleExtends(log, b);
    assert p(log[n]);
  }

  /** Events come after the beginning of a cycle. */
  ghost predicate Opens(log: Log) {
    log != [] ==> log[0].Began?
  }

  lemma WatchFlags(m: Seen, e: Event)
    ensures var n := Watch(m, e);
            && (n.promotable ==> !e.Began? && (m.promotable || SaysPromotable(e)))
            && (n.ready ==> !e.Began? && (m.ready || ShowsReady(e)))
  {
    hide Ready;
  }

  lemma WatchStops(m: Seen, e: Event)
    ensures var n := Watch(m, e);
            && (n.stopped ==> !e.Began? && (m.stopped || Stops(e)))
            && (n.reported ==> !e.Began? && (m.reported || SaysWritable(e)))
  {
    hide Ready;
  }

  lemma WatchRest(m: Seen, e: Event)
    ensures var n := Watch(m, e);
            && (n.leader ==> if e.Began? then e.leader else m.leader)
            && (n.writable ==> e.Opened? || (m.writable && !e.Closed?))
            && n.target == if e.ReplicaDone? then e.key else m.target
  {
    hide Ready;
  }

  lemma EarlierStep(log: Log, p: Event -> bool, was: bool, now: bool)
    requires log != [] && Opens(log)
    requires was ==> Earlier(log[..|log| - 1], |log| - 1, p)
    requires now ==> !log[|log| - 1].Began? && (was || p(log[|log| - 1]))
    ensures now ==> Earlier(log, |log|, p)
  {
    hide Earlier, InCycle, SomeCycle;
    if now {
      if was {
        EarlierExtends(log, p);
      } else {
        assert log[0].Began? && log[..|log| - 1][0] == log[0];
        CycleRuns(log[..|log| - 1]);
        NowInCycle(log, p);
      }
    }
  }

  /** What the summary says of the current cycle did happen in it. */
  lemma {:induction false} CycleFacts(log: Log)
    requires Opens(log)
    ensures Summary(log).promotable ==> Earlier(log, |log|, SaysPromotable)
    ensures Summary(log).ready ==> Earlier(log, |log|, ShowsReady)
    ensures Summary(log).stopped ==> Earlier(log, |log|, Stops)
    ensures Summary(log).reported ==> Earlier(log, |log|, SaysWritable)
  {
    hide Earlier, ShowsReady, Summary, Watch;
    if log == [] {
      SummaryEmpty();
    } else {
      SummaryLast(log);
      var m, now := Summary(log[..|log| - 1]), Summary(log);
      WatchFlags(m, log[|log| - 1]);
      WatchStops(m, log[|log| - 1]);
      CycleFacts(log[..|log| - 1]);
      EarlierStep(log, SaysPromotable, m.promotable, now.promotable);
      EarlierStep(log, ShowsReady, m.ready, now.ready);
      EarlierStep(log, Stops, m.stopped, now.stopped);
      EarlierStep(log, SaysWritable, m.reported, now.reported);
    }
  }

  lemma {:induction false} LeaderFact(log: Log)
    requires Summary(log).leader
    ensures Led(log, |log|)
  {
    hide InCycle, Led, Summary, Watch;
    SummaryEmpty();
    var n := |log| - 1;
    SummaryLast(log);
    WatchRest(Summary(log[..n]), log[n]);
    if log[n].Began? {
      BeganNow(log);
      LedBy(log, n);
    } else {
      LeaderFact(log[..n]);
      LedExtends(log);
    }
  }

  lemma BeganNow(log: Log)
    requires log != [] && log[|log| - 1].Began?
    ensures InCycle(log, |log| - 1, |log|)
  {
  }

  lemma LedBy(log: Log, b: int)
    requires InCycle(log, b, |log|) && log[b].leader
    ensures Led(log, |log|)
  {
  }

  lemma LedExtends(log: Log)
    requires log != [] && !log[|log| - 1].Began? && Led(log[..|log| - 1], |log| - 1)
    ensures Led(log, |log|)
  {
    var n := |log| - 1;
    var b :| InCycle(log[..n], b, n) && log[..n][b].leader;
    CycleExtends(log, b);
  }

  // ---------------------------------------------------------------- theorems over all runs

  ghost predicate SameFirst(l: Log, m: Log) {
    l != [] ==> m != [] && m[0] == l[0]
  }

  lemma PromotionKeepsFirst(c: Config, w: World, a: Answers)
    ensures SameFirst(w.log, ApplyPrimary(c, w.db, w.log, a.primary).log)
    ensures SameFirst(w.log, ApplyMGRPrimary(c, w, a).w.log)
  {
    hide WritableReady;
    var p := ApplyPrimary(c, w.db, w.log, a.primary);
    assert SameFirst(w.log, p.log);
    hide ApplyPrimary;
  }

  lemma PrimaryKeepsFirst(c: Config, w: World, a: Answers)
    ensures SameFirst(w.log, BePrimary(c, w, a).w.log)
  {
    hide ApplyPrimary, ApplyMGRPrimary;
    PromotionKeepsFirst(c, w, a);
  }

  lemma FollowKeepsFirst(c: Config, w: World, a: Answers)
    ensures SameFirst(w.log, Follow(c, w, a).w.log)
  {
    hide Target, ReplicaTargetKey, SourceOf;
  }

  lemma NeededKeepsFirst(c: Config, w: World, a: Answers)
    ensures SameFirst(w.log, ApplyReplicaIfNeeded(c, w, a).w.log)
  {
    hide Target, ReplicaTargetKey, HasTarget, Follow;
    FollowKeepsFirst(c, w, a);
    FollowKeepsFirst(c, w.(lastReplicaPrimary := ""), a);
  }

  lemma ReplicaKeepsFirst(c: Config, w: World, a: Answers)
    ensures SameFirst(w.log, BeReplica(c, w, a).w.log)
  {
    hide ApplyReplicaIfNeeded;
    forall v: World ensures SameFirst(v.log, ApplyReplicaIfNeeded(c, v, a).w.log) {
      NeededKeepsFirst(c, v, a);
    }
  }

  lemma CycleBegins(c: Config, w: World, a: Answers)
    requires Opens(w.log)
    ensures Opens(RunOnce(c, w, a).w.log)
  {
    hide BePrimary, BeReplica, WantsPrimary;
    var d := DefensiveStop(c, ComputeDesired(c, w, a), a);
    assert Opens(d.log) && d.log != [];
    PrimaryKeepsFirst(c, Status(d), a);
    ReplicaKeepsFirst(c, Status(d), a);
  }

  lemma {:induction false} RunOpens(c: Config, skip: bool, steps: seq<Step>)
    requires c.delegated
    ensures Opens(Run(c, Fresh(skip), steps).log)
  {
    hide RunOnce;
    if steps == [] {
    } else {
      var k := |steps| - 1;
      RunOpens(c, skip, steps[..k]);
      if steps[k].Cycle? {
        CycleBegins(c, Run(c, Fresh(skip), steps[..k]), steps[k].a);
      }
    }
  }

  /** The events the environment has seen at the end of a run. */
  function Trace(c: Config, skip: bool, steps: seq<Step>): Log {
    Run(c, Fresh(skip), steps).log
  }

  lemma AllowedAt(c: Config, skip: bool, steps: seq<Step>, i: nat)
    requires c.delegated && i < |Trace(c, skip, steps)|
    ensures Opens(Trace(c, skip, steps)[..i]) && Allowed(c, Summary(Trace(c, skip, steps)[..i]), Trace(c, skip,
        steps)[i])
  {
    hide Run;
    RunSound(c, skip, steps);
    RunOpens(c, skip, steps);
  }

  lemma LiftCycle(log: Log, i: nat, p: Event -> bool)
    requires i <= |log| && Earlier(log[..i], i, p)
    ensures Earlier(log, i, p)
  {
    var b, k :| InCycle(log[..i], b, i) && b < k < i && p(log[..i][k]);
    assert InCycle(log, b, i) && p(log[k]);
  }

  lemma LiftLed(log: Log, i: nat)
    requires i <= |log| && Led(log[..i], i)
    ensures Led(log, i)
  {
    var b :| InCycle(log[..i], b, i) && log[..i][b].leader;
    assert InCycle(log, b, i) && log[b].leader;
  }

  /** The write gate.  The database is opened only in a cycle in which this node leads the
      cluster, may fail over and is promotable; under group replication, moreover, only after two
      members of the group, its primary among them, were seen live in that cycle. */
  lemma WriteGate(c: Config, skip: bool, steps: seq<Step>, i: nat)
    requires c.delegated && i < |Trace(c, skip, steps)| && Trace(c, skip, steps)[i].Opened?
    ensures !c.nofailover
    ensures Led(Trace(c, skip, steps), i)
    ensures Earlier(Trace(c, skip, steps), i, SaysPromotable)
    ensures c.mgr ==> Earlier(Trace(c, skip, steps), i, ShowsReady)
  {
    hide Trace, Summary, Earlier, Led;
    var log := Trace(c, skip, steps);
    AllowedAt(c, skip, steps, i);
    CycleFacts(log[..i]);
    LeaderFact(log[..i]);
    LiftLed(log, i);
    LiftCycle(log, i, SaysPromotable);
    if c.mgr {
      LiftCycle(log, i, ShowsReady);
    }
  }

  ghost predicate OpenSince(log: Log, i: int) {
    0 <= i < |log| && log[i].Opened? && forall k | i < k < |log| :: !log[k].Closed?
  }

  /** Nothing but the gate makes the database writable: if it is, it was opened and not closed since. */
  lemma WritableSinceOpened(c: Config, skip: bool, steps: seq<Step>)
    requires c.delegated && Run(c, Fresh(skip), steps).db.writable
    ensures var log := Trace(c, skip, steps);
            exists i :: OpenSince(log, i)
  {
    hide Run, Summary;
    RunSound(c, skip, steps);
    OpenedAt(Trace(c, skip, steps));
  }

  lemma {:induction false} OpenedAt(log: Log)
    requires Summary(log).writable
    ensures exists i :: OpenSince(log, i)
  {
    hide Summary, Watch;
    SummaryEmpty();
    var n := |log| - 1;
    SummaryLast(log);
    WatchRest(Summary(log[..n]), log[n]);
    if log[n].Opened? {
      assert OpenSince(log, n);
    } else {
      OpenedAt(log[..n]);
      var i :| OpenSince(log[..n], i);
      assert forall k | i < k < n :: log[..n][k] == log[k];
      assert OpenSince(log, i);
    }
  }

  predicate Serves(e: Event) {
    e == StartRun(true) || e == StartSkipped
  }

  lemma {:induction false} ServingSince(log: Log, i: nat)
    requires i < |log| && Serves(log[i]) && forall k | i < k < |log| :: !log[k].ReplicaEnsured?
    ensures Summary(log).serving
  {
    hide Summary;
    var n := |log| - 1;
    SummaryLast(log);
    if i < n {
      assert forall k | i < k < n :: log[..n][k] == log[k];
      ServingSince(log[..n], i);
    }
  }

  /** Between two runs of the start hook a stop has completed. */
  lemma StartsAreSeparated(c: Config, skip: bool, steps: seq<Step>, i: nat, j: nat)
    requires c.delegated && i < j < |Trace(c, skip, steps)|
    requires Serves(Trace(c, skip, steps)[i]) && Trace(c, skip, steps)[j].StartRun?
    ensures exists k :: i < k < j && Trace(c, skip, steps)[k].ReplicaEnsured?
  {
    hide Trace, Summary;
    var log := Trace(c, skip, steps);
    AllowedAt(c, skip, steps, j);
    if forall k | i < k < j :: !log[..j][k].ReplicaEnsured? {
      ServingSince(log[..j], i);
    } else {
      var k :| i < k < j && log[..j][k].ReplicaEnsured?;
      assert log[k].ReplicaEnsured?;
    }
  }

  /** The start hook runs only after this cycle's database status said writable. */
  lemma StartAfterWritable(c: Config, skip: bool, steps: seq<Step>, j: nat)
    requires c.delegated && j < |Trace(c, skip, steps)| && Trace(c, skip, steps)[j].StartRun?
    ensures Earlier(Trace(c, skip, steps), j, SaysWritable)
  {
    hide Trace, Summary, Earlier;
    AllowedAt(c, skip, steps, j);
    CycleFacts(Trace(c, skip, steps)[..j]);
    LiftCycle(Trace(c, skip, steps), j, SaysWritable);
  }

  /** The database is not demoted, nor pointed at a new primary, before a stop succeeded in the cycle. */
  lemma StopBeforeDemote(c: Config, skip: bool, steps: seq<Step>, j: nat)
    requires c.delegated && c.hooked && c.onStop && j < |Trace(c, skip, steps)|
    requires Trace(c, skip, steps)[j].CalledDemote? || Trace(c, skip, steps)[j].CalledReplica?
    ensures Earlier(Trace(c, skip, steps), j, Stops)
  {
    hide Trace, Summary, Earlier;
    AllowedAt(c, skip, steps, j);
    CycleFacts(Trace(c, skip, steps)[..j]);
    LiftCycle(Trace(c, skip, steps), j, Stops);
  }

  /** After any run, a cycle that wants a replica and meets no error leaves the database read-only
      and the hooks inactive. */
  lemma ReplicaCycleEndsDark(c: Config, skip: bool, steps: seq<Step>, a: Answers)
    requires c.delegated && !WantsPrimary(c, a) && RunOnce(c, Run(c, Fresh(skip), steps), a).ok
    ensures var w := RunOnce(c, Run(c, Fresh(skip), steps), a).w;
            !w.db.writable && !w.hook.active
  {
    hide Run, RunOnce, WantsPrimary;
    RunSound(c, skip, steps);
    CycleSound(c, Run(c, Fresh(skip), steps), a);
  }

  /** The election's own database calls do nothing exactly when they are delegated. */
  lemma DelegationSilencesRaft(c: Config)
    ensures c.delegated <==> forall w: World, op: RaftOp :: RaftSide(c, w, op).db == w.db
  {
    if !c.delegated {
      var w := Fresh(false);
      assert RaftSide(c, w, EnableReadWrite(true)).db.writable;
      assert RaftSide(c, w, EnableReadWrite(true)).db != w.db;
    }
  }

  // ---------------------------------------------------------------- the replica target

  /** The latest ApplyReplica to succeed did so at position i. */
  ghost predicate DoneSince(log: Log, i: int, key: string) {
    0 <= i < |log| && log[i] == ReplicaDone(key) && forall k | i < k < |log| :: !log[k].ReplicaDone?
  }

  /** A cached target is that of the latest successful ApplyReplica. */
  lemma CachedTargetIsLatest(c: Config, skip: bool, steps: seq<Step>)
    requires c.delegated && Run(c, Fresh(skip), steps).lastReplicaPrimary != ""
    ensures var log, key := Trace(c, skip, steps), Run(c, Fresh(skip), steps).lastReplicaPrimary;
            exists i :: DoneSince(log, i, key)
  {
    hide Run, Summary;
    RunSound(c, skip, steps);
    TargetDone(Trace(c, skip, steps));
  }

  lemma {:induction false} TargetDone(log: Log)
    requires Summary(log).target != ""
    ensures exists i :: DoneSince(log, i, Summary(log).target)
  {
    hide Summary, Watch;
    SummaryEmpty();
    var n := |log| - 1;
    var key := Summary(log).target;
    SummaryLast(log);
    WatchRest(Summary(log[..n]), log[n]);
    if log[n].ReplicaDone? {
      assert DoneSince(log, n, key);
    } else {
      TargetDone(log[..n]);
      var i :| DoneSince(log[..n], i, key);
      assert forall k | i < k < n :: log[..n][k] == log[k];
      assert DoneSince(log, i, key);
    }
  }

  /** A cycle that is to follow the given target. */
  predicate Wants(c: Config, a: Answers, key: string) {
    !WantsPrimary(c, a) && HasTarget(c, a) && ReplicaTargetKey(Target(c, a)) == key
  }

  ghost function RoleCalls(log: Log): nat {
    if log == [] then 0
    else
      var e := log[|log| - 1];
      RoleCalls(log[..|log| - 1]) + if e.CalledPrimary? || e.CalledReplica? || e.CalledDemote? then 1 else 0
  }

  lemma RoleCallsSnoc(log: Log, e: Event)
    ensures RoleCalls(log + [e]) ==
            RoleCalls(log) + if e.CalledPrimary? || e.CalledReplica? || e.CalledDemote? then 1 else 0
  {
    assert (log + [e])[..|log|] == log;
  }

  ghost predicate Settled(w: World, key: string) {
    key != "" && w.lastReplicaPrimary == key && !w.db.writable
  }

  lemma HooksAreNoRoleCalls(c: Config, w: World, a: Answers)
    requires !WantsPrimary(c, a)
    ensures RoleCalls(DefensiveStop(c, ComputeDesired(c, w, a), a).log) == RoleCalls(w.log)
    ensures forall h: Hook, l: Log :: RoleCalls(EnsureReplica(c, h, l, a.stopCtxOk, a.stopOk).log) == RoleCalls(l)
  {
    hide RoleCalls, WantsPrimary;
    var l := w.log + [Began(a.leader)];
    RoleCallsSnoc(w.log, Began(a.leader));
    RoleCallsSnoc(l, Promotability(a.promotable));
    var v := ComputeDesired(c, w, a);
    RoleCallsSnoc(v.log, StopRun(a.defenceOk));
    forall h: Hook, m: Log ensures RoleCalls(EnsureReplica(c, h, m, a.stopCtxOk, a.stopOk).log) == RoleCalls(m) {
      RoleCallsSnoc(m, StopRun(a.stopOk));
      RoleCallsSnoc(m, StopRun(false));
      RoleCallsSnoc(m + [StopRun(a.stopOk)], ReplicaEnsured);
      RoleCallsSnoc(m, ReplicaEnsured);
    }
  }

  /** Outside group replication a settled replica is left alone while its target stays. */
  lemma SettledCycle(c: Config, w: World, a: Answers, key: string)
    requires !c.mgr && Settled(w, key) && Wants(c, a, key)
    ensures Settled(RunOnce(c, w, a).w, key) && RoleCalls(RunOnce(c, w, a).w.log) == RoleCalls(w.log)
    ensures RunOnce(c, w, a).w.db == w.db
  {
    hide RoleCalls, WantsPrimary, HasTarget, Target, ReplicaTargetKey;
    HooksAreNoRoleCalls(c, w, a);
    var d := DefensiveStop(c, ComputeDesired(c, w, a), a);
    assert d.db == w.db && d.lastReplicaPrimary == key;
    RoleCallsSnoc(d.log, Reported(d.db.writable));
    var s := Status(d);
    assert OnHook(s, EnsureReplica(c, s.hook, s.log, a.stopCtxOk, a.stopOk)).w.db == s.db;
  }

  lemma {:induction false} SettledRun(c: Config, w: World, steps: seq<Step>, key: string)
    requires !c.mgr && c.delegated && Settled(w, key)
    requires forall s | s in steps && s.Cycle? :: Wants(c, s.a, key)
    ensures Settled(Run(c, w, steps), key) && RoleCalls(Run(c, w, steps).log) == RoleCalls(w.log)
    ensures Run(c, w, steps).db == w.db
  {
    hide RunOnce, Wants, RoleCalls, Settled;
    if steps == [] {
    } else {
      var k := |steps| - 1;
      assert forall s | s in steps[..k] :: s in steps;
      SettledRun(c, w, steps[..k], key);
      if steps[k].Cycle? {
        SettledCycle(c, Run(c, w, steps[..k]), steps[k].a, key);
      }
    }
  }

  /** Once a cycle has followed a target without error, no later cycle with that target touches the
      database's role. */
  lemma FollowedOnce(c: Config, w: World, a: Answers, steps: seq<Step>)
    requires !c.mgr && c.delegated && c.applyPromote
    requires Wants(c, a, ReplicaTargetKey(Target(c, a))) && RunOnce(c, w, a).ok && ReplicaTargetKey(Target(c, a)) != ""
    requires forall s | s in steps && s.Cycle? :: Wants(c, s.a, ReplicaTargetKey(Target(c, a)))
    ensures RoleCalls(Run(c, RunOnce(c, w, a).w, steps).log) == RoleCalls(RunOnce(c, w, a).w.log)
    ensures Run(c, RunOnce(c, w, a).w, steps).db == RunOnce(c, w, a).w.db
  {
    hide RoleCalls, Wants, RunOnce, Target, ReplicaTargetKey;
    SettledAfter(c, w, a);
    SettledRun(c, RunOnce(c, w, a).w, steps, ReplicaTargetKey(Target(c, a)));
  }

  lemma SettledAfter(c: Config, w: World, a: Answers)
    requires !c.mgr && c.applyPromote
    requires Wants(c, a, ReplicaTargetKey(Target(c, a))) && RunOnce(c, w, a).ok && ReplicaTargetKey(Target(c, a)) != ""
    ensures Settled(RunOnce(c, w, a).w, ReplicaTargetKey(Target(c, a)))
  {
    hide WantsPrimary, HasTarget, Target, ReplicaTargetKey, SourceOf, EnsureReplica;
  }

  /** A cycle without error that wants this node to follow a target leaves it following exactly
      when the cache named another target or the node followed it already: the cache says what
      was applied last, not what the database does now. */
  lemma FollowsUnlessStale(c: Config, w: World, a: Answers)
    requires !c.mgr && c.applyPromote
    requires Wants(c, a, ReplicaTargetKey(Target(c, a))) && RunOnce(c, w, a).ok && ReplicaTargetKey(Target(c, a)) != ""
    ensures RunOnce(c, w, a).w.db.source == SourceOf(c, Target(c, a)) <==>
              w.lastReplicaPrimary != ReplicaTargetKey(Target(c, a)) || w.db.source == SourceOf(c, Target(c, a))
  {
    hide WantsPrimary, HasTarget, Target, ReplicaTargetKey, SourceOf, EnsureReplica;
  }

  // ---------------------------------------------------------------- witnesses

  function StaleConfig(): Config {
    Config(false, true, false, true, false, false, false, "n1", 3306, "", 3306)
  }

  function Fine(leader: bool, leaderID: string, host: string): Answers {
    Answers(leader, true, true, leaderID, host, 3306, true, true, true, true, false,
            PrimaryAnswers(true, true, false, true, true, true, true, true, true, true, true),
            true, [], "", true, true, true, true, true, true, true, true, true, true,
            ReplicaAnswers(true, true, true, true, true))
  }

  const FOLLOW: Step := Cycle(Fine(false, "n2", "h2"))
  const LEAD: Step := Cycle(Fine(true, "n1", "h1"))

  lemma KeyOfN2()
    ensures ReplicaTargetKey(Ref("n2", "h2", 3306)) == "h2:3306"
  {
    var s := Itoa(3306);
    assert Itoa(3) == "3" && Itoa(33) == "33" && Itoa(330) == "330" && s == "3306";
    assert "h2" + ":" == "h2:" && "h2:" + "3306" == "h2:3306";
  }

  lemma FollowN2(w: World)
    requires w.lastReplicaPrimary in {"", "h2:3306"}
    ensures var r := RunOnce(StaleConfig(), w, FOLLOW.a);
            && r.ok && !r.w.db.writable && r.w.lastReplicaPrimary == "h2:3306"
            && r.w.db.source == if w.lastReplicaPrimary == "h2:3306" then w.db.source else Source("h2", 3306)
  {
    hide ReplicaTargetKey, Split;
    KeyOfN2();
  }

  lemma LeadN1(w: World)
    requires !w.db.writable
    ensures var r := RunOnce(StaleConfig(), w, LEAD.a);
            && r.ok && r.w.db == Db(true, Nobody) && r.w.lastReplicaPrimary == w.lastReplicaPrimary
  {
    hide Target, ReplicaTargetKey;
  }

  /** Without any error: a node follows n2, leads for a while, and when n2 leads again the node is
      left without a source for as long as n2 leads, since its cache still names n2. */
  lemma StaleCacheLeavesNoSource(more: seq<Step>)
    requires forall s | s in more && s.Cycle? :: Wants(StaleConfig(), s.a, "h2:3306")
    ensures var c := StaleConfig();
            var w1 := RunOnce(c, Fresh(false), FOLLOW.a);
            var w2 := RunOnce(c, w1.w, LEAD.a);
            var w3 := RunOnce(c, w2.w, FOLLOW.a);
            && w1.ok && w2.ok && w3.ok
            && w1.w.db == Db(false, Source("h2", 3306)) && w2.w.db == Db(true, Nobody)
            && Run(c, w3.w, more).db == Db(false, Nobody)
  {
    hide RunOnce, Wants;
    var c := StaleConfig();
    var w1 := RunOnce(c, Fresh(false), FOLLOW.a);
    var w2 := RunOnce(c, w1.w, LEAD.a);
    FollowN2(Fresh(false));
    LeadN1(w1.w);
    FollowN2(w2.w);
    SettledRun(c, RunOnce(c, w2.w, FOLLOW.a).w, more, "h2:3306");
  }
}
