/** What a reconcile cycle achieves: when it ends without error, when that leaves the database open
    or read-only, whom it then follows and which hooks have run, in terms of what the coordinator,
    the database and the hook commands answered. */
module HaProgress {
  import opened HaCycle
  import opened HaSafety
  import opened Text

  // ---------------------------------------------------------------- answers

  /** Every call by which a semi-sync database becomes primary worked. */
  predicate SemiSyncWorks(p: PrimaryAnswers) {
    p.ctxOk && p.gtidOk && p.waitOk && p.changeOk && p.semiSyncOk && p.sysVarOk && p.optionOk
  }

  /** The first phase of group replication worked: the node is primary of its group already, or
      could be made so. */
  predicate GroupWorks(p: PrimaryAnswers) {
    && p.ctxOk && p.relayOk && p.optionOk
    && (p.alreadyPrimary || ((p.running || p.sysVarOk) && p.changeOk))
  }

  /** Every call of the promotion in group replication worked. */
  ghost predicate MgrWorks(a: Answers) {
    && a.phase1Ok && (a.phase1 || GroupWorks(a.primary)) && a.statusOk2 && a.membersOk
    && (Ready(a.rows, a.groupPrimary) ==> a.phase2Ok) && a.statusOk3
  }

  /** Running the start command is possible, or there is nothing to run. */
  predicate StartWorks(c: Config, h: Hook, a: Answers) {
    c.hooked && c.onStart ==> a.startCtxOk && (h.active || h.skipStartOnce || a.startOk)
  }

  predicate StopWorks(c: Config, a: Answers) {
    c.hooked ==> a.stopCtxOk && (c.onStop ==> a.stopOk)
  }

  // ---------------------------------------------------------------- becoming primary

  lemma OpensWhenReady(c: Config, w: World, a: Answers)
    requires c.mgr && !w.db.writable
    ensures var r := OpenWhenReady(c, w, a);
            && (r.ok <==> a.membersOk && (Ready(a.rows, a.groupPrimary) ==> a.phase2Ok))
            && (r.ok ==> (r.w.db.writable <==> Ready(a.rows, a.groupPrimary)))
            && r.w.db.source == w.db.source && r.w.hook == w.hook && r.w.lastReplicaPrimary == w.lastReplicaPrimary
  {
    hide Ready, CountLive, HasLive;
    WritableReadyIsReady(a.rows, a.groupPrimary);
  }

  lemma GroupPhase(c: Config, w: World, p: PrimaryAnswers)
    requires c.mgr && !w.db.writable
    ensures var r := OnDb(w, ApplyPrimary(c, w.db, w.log, p));
            && (r.ok <==> GroupWorks(p)) && !r.w.db.writable && r.w.db.source == w.db.source
            && r.w.hook == w.hook && r.w.lastReplicaPrimary == w.lastReplicaPrimary
  {
  }

  lemma MgrPromotes(c: Config, w: World, a: Answers)
    requires c.mgr && c.applyPromote && !w.db.writable
    ensures var r := Promote(c, w, a);
            && (r.ok <==> MgrWorks(a))
            && (r.ok ==> (r.w.db.writable <==> Ready(a.rows, a.groupPrimary)))
            && r.w.db.source == w.db.source && r.w.hook == w.hook && r.w.lastReplicaPrimary == w.lastReplicaPrimary
  {
    hide ApplyPrimary, OpenWhenReady, Ready, GroupWorks;
    GroupPhase(c, w, a.primary);
    var p := if a.phase1 then Out(w, true) else OnDb(w, ApplyPrimary(c, w.db, w.log, a.primary));
    OpensWhenReady(c, Status(p.w), a);
  }

  lemma SemiSyncPromotes(c: Config, w: World, a: Answers)
    requires !c.mgr && c.applyPromote && !w.db.writable
    ensures var r := Promote(c, w, a);
            && (r.ok <==> SemiSyncWorks(a.primary) && a.statusOk3)
            && (r.ok ==> r.w.db == Db(true, Nobody))
            && r.w.hook == w.hook && r.w.lastReplicaPrimary == w.lastReplicaPrimary
  {
  }

  /** The part of a cycle before the role is applied. */
  function Prepared(c: Config, w: World, a: Answers): World {
    Status(DefensiveStop(c, ComputeDesired(c, w, a), a))
  }

  lemma PreparedKeeps(c: Config, w: World, a: Answers)
    ensures var p := Prepared(c, w, a);
            p.db == w.db && p.hook == w.hook && p.lastReplicaPrimary == w.lastReplicaPrimary
  {
    hide WantsPrimary;
  }

  /** What promotes the database, for either kind of replication. */
  ghost predicate PromotionWorks(c: Config, a: Answers) {
    if c.mgr then MgrWorks(a) else SemiSyncWorks(a.primary) && a.statusOk3
  }

  ghost predicate PromotionOpens(c: Config, a: Answers) {
    c.applyPromote && (c.mgr ==> Ready(a.rows, a.groupPrimary))
  }

  lemma PromoteDoes(c: Config, w: World, a: Answers)
    ensures var r := Promote(c, w, a);
            && (r.ok <==> c.applyPromote && !w.db.writable ==> PromotionWorks(c, a))
            && (r.ok ==> (r.w.db.writable <==> w.db.writable || PromotionOpens(c, a)))
            && (r.ok ==> r.w.db.source == if c.applyPromote && !w.db.writable && !c.mgr then Nobody else w.db.source)
            && r.w.hook == w.hook && r.w.lastReplicaPrimary == w.lastReplicaPrimary
  {
    hide MgrWorks, SemiSyncWorks, Ready;
    if c.applyPromote && !w.db.writable {
      hide Promote;
      if c.mgr {
        MgrPromotes(c, w, a);
      } else {
        SemiSyncPromotes(c, w, a);
      }
    }
  }

  /** Whether the database is open after the promotion. */
  ghost predicate EndsOpen(c: Config, w: World, a: Answers) {
    w.db.writable || PromotionOpens(c, a)
  }

  /** A cycle that wants a primary meets no error exactly when these answers say so ... */
  ghost predicate PrimaryWorks(c: Config, w: World, a: Answers) {
    && a.statusOk
    && (c.applyPromote && !w.db.writable ==> PromotionWorks(c, a))
    && (EndsOpen(c, w, a) ==> StartWorks(c, w.hook, a))
  }

  lemma CycleParts(c: Config, w: World, a: Answers)
    ensures RunOnce(c, w, a).ok ==> a.statusOk
    ensures a.statusOk ==> RunOnce(c, w, a) == if WantsPrimary(c, a) then BePrimary(c, Prepared(c, w, a), a)
                                               else BeReplica(c, Prepared(c, w, a), a)
  {
    hide BePrimary, BeReplica, WantsPrimary, ComputeDesired, DefensiveStop;
  }

  /** ... and then it leaves the database writable exactly if it was so, or if promotion is
      configured and, under group replication, two members were live, the primary among them. */
  lemma PrimaryCycleOpensExactly(c: Config, w: World, a: Answers)
    requires a.leader && a.promotable && !c.nofailover
    ensures RunOnce(c, w, a).ok <==> PrimaryWorks(c, w, a)
    ensures RunOnce(c, w, a).ok ==>
              var v := RunOnce(c, w, a).w;
              && (v.db.writable <==> EndsOpen(c, w, a)) && v.lastReplicaPrimary == w.lastReplicaPrimary
              && v.db.source == if c.applyPromote && !w.db.writable && !c.mgr then Nobody else w.db.source
  {
    assert WantsPrimary(c, a);
    hide Promote, RunOnce, WantsPrimary, Prepared, PromotionWorks, PromotionOpens;
    CycleParts(c, w, a);
    PreparedKeeps(c, w, a);
    PromoteDoes(c, Prepared(c, w, a), a);
  }

  // ---------------------------------------------------------------- the start hook

  /** How many such events the log holds. */
  ghost function Times(log: Log, p: Event -> bool): nat {
    if log == [] then 0 else Times(log[..|log| - 1], p) + if p(log[|log| - 1]) then 1 else 0
  }

  lemma TimesSnoc(p: Event -> bool)
    ensures forall l: Log, e: Event :: Times(l + [e], p) == Times(l, p) + if p(e) then 1 else 0
  {
    forall l: Log, e: Event ensures Times(l + [e], p) == Times(l, p) + if p(e) then 1 else 0 {
      assert (l + [e])[..|l|] == l;
    }
  }

  predicate Started(e: Event) {
    e == StartRun(true)
  }

  predicate Stopped(e: Event) {
    e == StopRun(true)
  }

  predicate Repointed(e: Event) {
    e.CalledReplica?
  }

  lemma PreparedTimes(c: Config, w: World, a: Answers)
    ensures Times(Prepared(c, w, a).log, Started) == Times(w.log, Started)
    ensures Times(Prepared(c, w, a).log, Repointed) == Times(w.log, Repointed)
    ensures Times(Prepared(c, w, a).log, Stopped) == Times(w.log, Stopped) +
      if !WantsPrimary(c, a) && !w.defensiveStopDone && c.hooked && c.onStop && a.defenceCtxOk && a.defenceOk
      then 1 else 0
  {
    hide Times, WantsPrimary;
    TimesSnoc(Started);
    TimesSnoc(Repointed);
    TimesSnoc(Stopped);
  }

  lemma PromoteTimes(c: Config, w: World, a: Answers)
    ensures Times(Promote(c, w, a).w.log, Started) == Times(w.log, Started)
  {
    hide Times, WritableReady;
    TimesSnoc(Started);
  }

  /** From w to v the start hook was brought up, or skipped once. */
  ghost predicate Brought(w: World, v: World) {
    && v.hook.active && v.hook.skipStartOnce == (w.hook.skipStartOnce && w.hook.active)
    && Times(v.log, Started) == Times(w.log, Started) + if w.hook.active || w.hook.skipStartOnce then 0 else 1
  }

  ghost predicate HookUntouched(w: World, v: World) {
    v.hook == w.hook && Times(v.log, Started) == Times(w.log, Started)
  }

  lemma StartDoes(c: Config, w: World, a: Answers)
    ensures var e := OnHook(w, EnsurePrimary(c, w.hook, w.log, a.startCtxOk, a.startOk));
            e.ok ==> if c.onStart then Brought(w, e.w) else HookUntouched(w, e.w)
  {
    hide Times;
    TimesSnoc(Started);
  }

  lemma PrimaryStarts(c: Config, w: World, a: Answers)
    requires BePrimary(c, w, a).ok
    ensures var v := BePrimary(c, w, a).w;
            if EndsOpen(c, w, a) && c.hooked && c.onStart then Brought(w, v) else HookUntouched(w, v)
  {
    hide Promote, EnsurePrimary, PromotionWorks, PromotionOpens, Times;
    PromoteDoes(c, w, a);
    PromoteTimes(c, w, a);
    StartDoes(c, Promote(c, w, a).w, a);
  }

  /** A cycle without error that ends as primary has the start hook applied: the command has run in
      it unless it was applied before or is to be skipped once; otherwise the hooks stay as they
      were. */
  lemma StartHookRunsExactly(c: Config, w: World, a: Answers)
    requires a.leader && a.promotable && !c.nofailover && RunOnce(c, w, a).ok
    ensures var v := RunOnce(c, w, a).w;
            if EndsOpen(c, w, a) && c.hooked && c.onStart then Brought(w, v) else HookUntouched(w, v)
  {
    assert WantsPrimary(c, a);
    hide BePrimary, BeReplica, RunOnce, WantsPrimary, Prepared, PromotionOpens, Times, Brought, HookUntouched;
    CycleParts(c, w, a);
    PreparedKeeps(c, w, a);
    PreparedTimes(c, w, a);
    PrimaryStarts(c, Prepared(c, w, a), a);
    BroughtFrom(w, Prepared(c, w, a), RunOnce(c, w, a).w);
  }

  lemma BroughtFrom(w: World, p: World, v: World)
    requires p.hook == w.hook && Times(p.log, Started) == Times(w.log, Started)
    ensures Brought(p, v) <==> Brought(w, v)
    ensures HookUntouched(p, v) <==> HookUntouched(w, v)
  {
    hide Times;
  }

  // ---------------------------------------------------------------- being a replica

  predicate PointWorks(c: Config, r: ReplicaAnswers) {
    r.ctxOk && r.optionOk && r.changeOk && (c.mgr || r.startOk)
  }

  /** There is another leader to follow, under this key. */
  predicate Leads(c: Config, a: Answers) {
    a.viewOk && a.leaderID !in {"", c.id} && ReplicaTargetKey(Target(c, a)) != ""
  }

  /** The replica is pointed at its target: it was last pointed elsewhere, or its group lost it. */
  predicate Repoints(c: Config, w: World, a: Answers) {
    && c.applyPromote && Leads(c, a)
    && (w.lastReplicaPrimary != ReplicaTargetKey(Target(c, a)) || (c.mgr && !a.joined))
  }

  lemma FollowDoes(c: Config, w: World, a: Answers)
    requires !w.db.writable
    ensures var r, key := Follow(c, w, a), ReplicaTargetKey(Target(c, a));
            && (r.ok <==> PointWorks(c, a.replica))
            && (r.ok ==> r.w.lastReplicaPrimary == key && !r.w.db.writable)
            && r.w.hook == w.hook
            && (r.ok ==> r.w.db.source == if c.mgr then w.db.source else SourceOf(c, Target(c, a)))
            && Times(r.w.log, Repointed) == Times(w.log, Repointed) + 1
            && Times(r.w.log, Stopped) == Times(w.log, Stopped)
  {
    hide Times, Target, ReplicaTargetKey, SourceOf;
    TimesSnoc(Repointed);
    TimesSnoc(Stopped);
  }

  lemma NeededDoes(c: Config, w: World, a: Answers)
    requires !w.db.writable && c.applyPromote
    ensures var r, key := ApplyReplicaIfNeeded(c, w, a), ReplicaTargetKey(Target(c, a));
            && (r.ok <==> (Repoints(c, w, a) ==> PointWorks(c, a.replica))
                          && (Leads(c, a) && w.lastReplicaPrimary == key && c.mgr ==> a.joinedOk))
            && (r.ok ==> !r.w.db.writable && r.w.lastReplicaPrimary ==
                         if !a.viewOk || a.leaderID in {"", c.id} then "" else if key == "" then w.lastReplicaPrimary
                         else key)
            && (r.ok ==>
                  r.w.db.source
                  == if Repoints(c, w, a) && !c.mgr then SourceOf(c, Target(c, a)) else w.db.source)
            && (r.ok ==> r.w.hook == w.hook && Times(r.w.log, Stopped) == Times(w.log, Stopped))
            && (r.ok ==> Times(r.w.log, Repointed) == Times(w.log, Repointed) + if Repoints(c, w, a) then 1 else 0)
  {
    hide Times, Target, ReplicaTargetKey, SourceOf, Follow, PointWorks;
    FollowDoes(c, w, a);
    FollowDoes(c, w.(lastReplicaPrimary := ""), a);
  }

  lemma StopDoes(c: Config, w: World, a: Answers)
    ensures var e := if c.hooked then OnHook(w, EnsureReplica(c, w.hook, w.log, a.stopCtxOk, a.stopOk))
                     else Out(w, true);
            && (e.ok <==> StopWorks(c, a)) && e.w.db == w.db && e.w.lastReplicaPrimary == w.lastReplicaPrimary
            && (e.ok ==> e.w.hook == if c.hooked then w.hook.(active := false) else w.hook)
            && Times(e.w.log, Repointed) == Times(w.log, Repointed)
            && (e.ok ==> Times(e.w.log, Stopped) == Times(w.log, Stopped) + if c.hooked && c.onStop then 1 else 0)
  {
    hide Times;
    TimesSnoc(Repointed);
    TimesSnoc(Stopped);
  }

  lemma DemotionDoes(w: World, ok: bool)
    ensures var d := DemoteIfWritable(w, ok);
            && (d.ok <==> (w.db.writable ==> ok)) && (d.ok ==> d.w.db == w.db.(writable := false))
            && d.w.hook == w.hook && d.w.lastReplicaPrimary == w.lastReplicaPrimary
            && Times(d.w.log, Repointed) == Times(w.log, Repointed) && Times(d.w.log, Stopped) == Times(w.log, Stopped)
  {
    hide Times;
    TimesSnoc(Repointed);
    TimesSnoc(Stopped);
  }

  /** The replica's cache after a cycle without error. */
  function CacheAfter(c: Config, w: World, a: Answers): string {
    if !c.applyPromote then w.lastReplicaPrimary
    else if !a.viewOk || a.leaderID in {"", c.id} then ""
    else if ReplicaTargetKey(Target(c, a)) == "" then w.lastReplicaPrimary
    else ReplicaTargetKey(Target(c, a))
  }

  /** From w to v a replica was stopped, demoted and pointed as it should be. */
  ghost predicate Replicated(c: Config, w: World, a: Answers, v: World) {
    && !v.db.writable && v.hook == (if c.hooked then w.hook.(active := false) else w.hook)
    && v.db.source == (if Repoints(c, w, a) && !c.mgr then SourceOf(c, Target(c, a)) else w.db.source)
    && v.lastReplicaPrimary == CacheAfter(c, w, a)
    && Times(v.log, Repointed) == Times(w.log, Repointed) + (if Repoints(c, w, a) then 1 else 0)
    && Times(v.log, Stopped) == Times(w.log, Stopped) + (if c.hooked && c.onStop then 1 else 0)
  }

  /** ReplicaWorks without the first status. */
  predicate RoleWorks(c: Config, w: World, a: Answers) {
    && StopWorks(c, a) && (w.db.writable ==> a.demoteOk)
    && (Repoints(c, w, a) ==> PointWorks(c, a.replica))
    && (c.applyPromote && Leads(c, a) && w.lastReplicaPrimary == ReplicaTargetKey(Target(c, a)) && c.mgr ==> a.joinedOk)
  }

  lemma ReplicaDoes(c: Config, w: World, a: Answers)
    ensures var r := BeReplica(c, w, a);
            (r.ok <==> RoleWorks(c, w, a)) && (r.ok ==> Replicated(c, w, a, r.w))
  {
    hide Times, EnsureReplica, ApplyReplicaIfNeeded, DemoteIfWritable, Target, ReplicaTargetKey, SourceOf, StopWorks,
         PointWorks;
    StopDoes(c, w, a);
    var e := if c.hooked then OnHook(w, EnsureReplica(c, w.hook, w.log, a.stopCtxOk, a.stopOk)) else Out(w, true);
    DemotionDoes(e.w, a.demoteOk);
    var d := DemoteIfWritable(e.w, a.demoteOk);
    if d.ok && c.applyPromote {
      NeededDoes(c, d.w, a);
    }
  }

  lemma PreparedWorks(c: Config, w: World, v: World, a: Answers)
    requires v.db == w.db && v.lastReplicaPrimary == w.lastReplicaPrimary
    ensures RoleWorks(c, v, a) <==> RoleWorks(c, w, a)
    ensures Repoints(c, v, a) <==> Repoints(c, w, a)
    ensures CacheAfter(c, v, a) == CacheAfter(c, w, a)
  {
    hide Target, ReplicaTargetKey, StopWorks, PointWorks;
  }

  /** A cycle that wants a replica meets no error exactly when these answers say so; it then leaves
      the database read-only and the hooks inactive, with the stop command run once, and once more
      in defence if no cycle had wanted a replica before. */
  lemma ReplicaCycleStopsExactly(c: Config, w: World, a: Answers)
    requires !(a.leader && a.promotable && !c.nofailover)
    ensures RunOnce(c, w, a).ok <==> a.statusOk && RoleWorks(c, w, a)
    ensures RunOnce(c, w, a).ok ==>
              var v := RunOnce(c, w, a).w;
              && !v.db.writable && v.hook == (if c.hooked then w.hook.(active := false) else w.hook)
              && Times(v.log, Stopped) == Times(w.log, Stopped)
                   + (if c.hooked && c.onStop then 1 else 0)
                   + (if c.hooked && c.onStop && !w.defensiveStopDone && a.defenceCtxOk && a.defenceOk then 1 else 0)
  {
    assert !WantsPrimary(c, a);
    hide RunOnce, WantsPrimary, Prepared, Times, BeReplica, RoleWorks, CacheAfter, Repoints, SourceOf, Target;
    CycleParts(c, w, a);
    PreparedKeeps(c, w, a);
    PreparedTimes(c, w, a);
    PreparedWorks(c, w, Prepared(c, w, a), a);
    ReplicaDoes(c, Prepared(c, w, a), a);
  }

  /** It is pointed at its target exactly once if that is needed and not at all otherwise; the
      cache names the target from then on. */
  lemma ReplicaCycleFollowsExactly(c: Config, w: World, a: Answers)
    requires !(a.leader && a.promotable && !c.nofailover) && RunOnce(c, w, a).ok
    ensures var v := RunOnce(c, w, a).w;
            && Times(v.log, Repointed) == Times(w.log, Repointed) + (if Repoints(c, w, a) then 1 else 0)
            && v.db.source == (if Repoints(c, w, a) && !c.mgr then SourceOf(c, Target(c, a)) else w.db.source)
            && v.lastReplicaPrimary == CacheAfter(c, w, a)
  {
    assert !WantsPrimary(c, a);
    hide RunOnce, WantsPrimary, Prepared, Times, BeReplica, RoleWorks, CacheAfter, Repoints, SourceOf, Target;
    CycleParts(c, w, a);
    PreparedKeeps(c, w, a);
    PreparedTimes(c, w, a);
    PreparedWorks(c, w, Prepared(c, w, a), a);
    ReplicaDoes(c, Prepared(c, w, a), a);
  }

  lemma FollowFails(c: Config, w: World, a: Answers)
    requires !w.db.writable && !PointWorks(c, a.replica)
    ensures Follow(c, w, a).w.lastReplicaPrimary == w.lastReplicaPrimary
  {
    hide Target, ReplicaTargetKey, SourceOf;
  }

  lemma ReplicaFails(c: Config, w: World, a: Answers)
    requires StopWorks(c, a) && (w.db.writable ==> a.demoteOk) && Repoints(c, w, a) && !PointWorks(c, a.replica)
    requires w.lastReplicaPrimary == ReplicaTargetKey(Target(c, a)) && c.mgr ==> a.joinedOk
    ensures BeReplica(c, w, a).w.lastReplicaPrimary != ReplicaTargetKey(Target(c, a))
  {
    hide Times, EnsureReplica, DemoteIfWritable, Target, ReplicaTargetKey, SourceOf, StopWorks, PointWorks, Follow;
    StopDoes(c, w, a);
    var e := if c.hooked then OnHook(w, EnsureReplica(c, w.hook, w.log, a.stopCtxOk, a.stopOk)) else Out(w, true);
    DemotionDoes(e.w, a.demoteOk);
    var d := DemoteIfWritable(e.w, a.demoteOk).w;
    FollowFails(c, d, a);
    FollowFails(c, d.(lastReplicaPrimary := ""), a);
  }

  /** A cycle whose attempt to point the replica at its target failed is followed by another
      attempt as soon as that target is wanted again, under group replication too. */
  lemma FailedPointIsRetried(c: Config, w: World, a: Answers, b: Answers)
    requires !(a.leader && a.promotable && !c.nofailover)
    requires a.statusOk && StopWorks(c, a) && (w.db.writable ==> a.demoteOk) && Repoints(c, w, a)
    requires w.lastReplicaPrimary == ReplicaTargetKey(Target(c, a)) && c.mgr ==> a.joinedOk
    requires !PointWorks(c, a.replica)
    requires Leads(c, b) && ReplicaTargetKey(Target(c, b)) == ReplicaTargetKey(Target(c, a))
    ensures !RunOnce(c, w, a).ok && Repoints(c, RunOnce(c, w, a).w, b)
  {
    assert !WantsPrimary(c, a);
    ReplicaCycleStopsExactly(c, w, a);
    hide RunOnce, WantsPrimary, Prepared, BeReplica, StopWorks, PointWorks, Target, ReplicaTargetKey;
    CycleParts(c, w, a);
    PreparedKeeps(c, w, a);
    PreparedWorks(c, w, Prepared(c, w, a), a);
    ReplicaFails(c, Prepared(c, w, a), a);
  }

  /** The defensive stop is over exactly once a cycle has wanted a replica. */
  lemma {:induction false} DefendedOnce(c: Config, skip: bool, steps: seq<Step>)
    requires c.delegated
    ensures Run(c, Fresh(skip), steps).defensiveStopDone <==>
              exists i | 0 <= i < |steps| :: WantsReplica(c, steps[i])
  {
    hide RunOnce;
    if steps == [] {
    } else {
      var k := |steps| - 1;
      DefendedOnce(c, skip, steps[..k]);
      assert forall i | 0 <= i < k :: steps[..k][i] == steps[i];
      if steps[k].Cycle? {
        CycleDefends(c, Run(c, Fresh(skip), steps[..k]), steps[k].a);
      }
      if exists i | 0 <= i < k :: WantsReplica(c, steps[..k][i]) {
        var i :| 0 <= i < k && WantsReplica(c, steps[..k][i]);
        assert WantsReplica(c, steps[i]);
      }
      if exists i | 0 <= i < |steps| :: WantsReplica(c, steps[i]) {
        var i :| 0 <= i < |steps| && WantsReplica(c, steps[i]);
        assert i < k ==> WantsReplica(c, steps[..k][i]);
      }
    }
  }

  predicate WantsReplica(c: Config, s: Step) {
    s.Cycle? && !(s.a.leader && s.a.promotable && !c.nofailover)
  }

  lemma CycleDefends(c: Config, w: World, a: Answers)
    ensures RunOnce(c, w, a).w.defensiveStopDone <==> w.defensiveStopDone || WantsReplica(c, Cycle(a))
  {
    hide ApplyPrimary, SetReadWrite, WritableReady, EnsurePrimary, EnsureReplica, ApplyReplica, Target,
         ReplicaTargetKey, SourceOf;
  }

  // ---------------------------------------------------------------- whom a replica follows

  /** The database that the leader advertises is followed, and named by the key. */
  lemma FollowsAdvertised(c: Config, a: Answers)
    requires a.viewOk && a.leaderID !in {"", c.id} && a.dbHost != "" && a.dbPort > 0
    ensures Leads(c, a)
    ensures SourceOf(c, Target(c, a)) == Source(a.dbHost, a.dbPort)
    ensures ReplicaTargetKey(Target(c, a)) == a.dbHost + ":" + Itoa(a.dbPort)
  {
  }

  /** A leader that advertises no database, but whose name is "host:port", is followed at that host
      at the configured port, or else at the port of the name. */
  lemma FollowsByName(c: Config, a: Answers, host: string, port: nat)
    requires a.viewOk && a.leaderID != c.id && !(a.dbHost != "" && a.dbPort > 0)
    requires host != "" && ':' !in host && 0 < port < 0x8000_0000_0000_0000
    requires a.leaderID == host + ":" + Itoa(port)
    ensures Leads(c, a)
    ensures var at := if c.mysqlPort > 0 then c.mysqlPort else port;
            SourceOf(c, Target(c, a)) == Source(host, at) && ReplicaTargetKey(Target(c, a)) == host + ":" + Itoa(at)
  {
    hide Split, Itoa, Atoi;
    ItoaAvoids(port, ':');
    AtoiItoa(port);
    SplitFirst(host, ':', Itoa(port));
    SplitNothing(Itoa(port), ':');
    assert host + [':'] + Itoa(port) == a.leaderID;
  }

  /** Any other name is itself the key, and replication goes where the configuration says. */
  lemma FollowsByConfiguration(c: Config, a: Answers)
    requires a.viewOk && a.leaderID !in {"", c.id} && !(a.dbHost != "" && a.dbPort > 0) && ':' !in a.leaderID
    ensures Leads(c, a)
    ensures SourceOf(c, Target(c, a)) == Source(c.replHost, c.replPort)
    ensures ReplicaTargetKey(Target(c, a)) == a.leaderID
  {
    hide Split;
    SplitNothing(a.leaderID, ':');
  }

  // ---------------------------------------------------------------- the election's own calls

  /** What the election asks of the database by itself happens, as far as it succeeds, exactly when
      the reconciler is not in charge. */
  lemma ElectionActsExactly(c: Config, w: World, op: RaftOp)
    ensures var v := RaftSide(c, w, op);
            && v.hook == w.hook && v.lastReplicaPrimary == w.lastReplicaPrimary
            && (v.db.writable <==> if !c.delegated && !op.ChangeToMaster? && op.ok then op.EnableReadWrite?
                                   else w.db.writable)
            && v.db.source == if !c.delegated && op.ChangeToMaster? && (op.ok || op.moved) then Nobody else w.db.source
  {
  }
}
