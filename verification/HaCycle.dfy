/** One reconcile cycle (internal/ha/reconcile.go) with the primary hooks (primary_hook.go) and the
    MySQL driver (internal/database/mysql/driver.go), as functions.  Whatever the coordinator, the
    database or a hook command answers is a parameter; what they are asked to do is logged. */
module HaCycle {
  import opened Text

  datatype Config = Config(
    mgr: bool,            // group replication rather than semi-sync
    delegated: bool,      // the reconciler owns the database role, not the election
    nofailover: bool,
    applyPromote: bool,
    hooked: bool,         // primary hooks are attached
    onStart: bool,        // the start command is configured (neither empty nor "nop")
    onStop: bool,
    id: string,
    mysqlPort: int,
    replHost: string,
    replPort: int)

  /** model.MysqlReadwrite or not, and where the replication channel points. */
  datatype Source = Nobody | Source(host: string, port: int)
  datatype Db = Db(writable: bool, source: Source)

  datatype Hook = Hook(active: bool, skipStartOnce: bool)

  datatype World = World(db: Db, hook: Hook, defensiveStopDone: bool, lastReplicaPrimary: string, log: Log)

  datatype MgrRow = MgrRow(id: string, state: string)

  datatype Event =
    | Began(leader: bool)
    | Promotability(ok: bool)
    | Reported(writable: bool)
    | Members(rows: seq<MgrRow>, primary: string)
    | CalledPrimary
    | CalledReplica(key: string)
    | ReplicaDone(key: string)
    | CalledDemote
    | Opened
    | Closed
    | StartRun(ok: bool)
    | StartSkipped
    | StopRun(ok: bool)
    | ReplicaEnsured

  type Log = seq<Event>

  datatype PrimaryAnswers = PrimaryAnswers(
    ctxOk: bool, relayOk: bool, alreadyPrimary: bool, running: bool, gtidOk: bool, waitOk: bool,
    changeOk: bool, moved: bool, semiSyncOk: bool, sysVarOk: bool, optionOk: bool)

  datatype ReplicaAnswers = ReplicaAnswers(ctxOk: bool, optionOk: bool, changeOk: bool, moved: bool, startOk: bool)

  /** Everything a cycle learns from outside. */
  datatype Answers = Answers(
    leader: bool, promotable: bool,
    viewOk: bool, leaderID: string, dbHost: string, dbPort: int,
    statusOk: bool, statusOk2: bool, statusOk3: bool,
    phase1Ok: bool, phase1: bool, primary: PrimaryAnswers,
    membersOk: bool, rows: seq<MgrRow>, groupPrimary: string, phase2Ok: bool,
    defenceCtxOk: bool, defenceOk: bool, stopCtxOk: bool, stopOk: bool, startCtxOk: bool, startOk: bool,
    demoteOk: bool, joinedOk: bool, joined: bool, replica: ReplicaAnswers)

  datatype DbOut = DbOut(db: Db, log: Log, ok: bool)
  datatype HookOut = HookOut(hook: Hook, log: Log, ok: bool)
  datatype Out = Out(w: World, ok: bool)

  // ---------------------------------------------------------------- driver.go

  function SetReadOnly(db: Db, log: Log, ok: bool): DbOut {
    if ok then DbOut(db.(writable := false), log + [Closed], true) else DbOut(db, log, false)
  }

  function SetReadWrite(db: Db, log: Log, ok: bool): DbOut {
    if ok then DbOut(db.(writable := true), log + [Opened], true) else DbOut(db, log, false)
  }

  function ApplyPrimaryMGR(db: Db, log: Log, p: PrimaryAnswers): DbOut {
    if !p.relayOk then DbOut(db, log, false)
    else if p.alreadyPrimary then SetReadOnly(db, log, p.optionOk)
    else if !p.running && !p.sysVarOk then DbOut(db, log, false)
    else if !p.changeOk then DbOut(db, log, false)
    else SetReadOnly(db, log, p.optionOk)
  }

  function ApplyPrimarySemiSync(db: Db, log: Log, p: PrimaryAnswers): DbOut {
    if !p.gtidOk || !p.waitOk then DbOut(db, log, false)
    else
      var d := if p.changeOk || p.moved then db.(source := Nobody) else db;
      if !p.changeOk || !p.semiSyncOk || !p.sysVarOk then DbOut(d, log, false)
      else SetReadWrite(d, log, p.optionOk)
  }

  function ApplyPrimary(c: Config, db: Db, log: Log, p: PrimaryAnswers): DbOut {
    var l := log + [CalledPrimary];
    if !p.ctxOk then DbOut(db, l, false)
    else if c.mgr then ApplyPrimaryMGR(db, l, p)
    else ApplyPrimarySemiSync(db, l, p)
  }

  datatype Ref = Ref(member: string, host: string, port: int)

  /** Where ApplyReplica points replication for this reference. */
  function SourceOf(c: Config, ref: Ref): Source {
    Source(if ref.host != "" then ref.host else c.replHost, if ref.port != 0 then ref.port else c.replPort)
  }

  function ApplyReplica(c: Config, db: Db, log: Log, key: string, to: Source, r: ReplicaAnswers): DbOut {
    var l := log + [CalledReplica(key)];
    if !r.ctxOk then DbOut(db, l, false)
    else
      var o := SetReadOnly(db, l, r.optionOk);
      if !o.ok then o
      else if c.mgr then
        if r.changeOk then DbOut(o.db, o.log + [ReplicaDone(key)], true) else DbOut(o.db, o.log, false)
      else
        var d := if r.changeOk || r.moved then o.db.(source := to) else o.db;
        if r.changeOk && r.startOk then DbOut(d, o.log + [ReplicaDone(key)], true) else DbOut(d, o.log, false)
  }

  function Demote(db: Db, log: Log, ok: bool): DbOut {
    SetReadOnly(db, log + [CalledDemote], ok)
  }

  predicate Live(row: MgrRow) {
    row.state == "ONLINE" || row.state == "RECOVERING"
  }

  /** Two members of the group are live, and the primary is one of them. */
  ghost predicate Ready(rows: seq<MgrRow>, primary: string) {
    exists i, j | 0 <= i < |rows| && 0 <= j < |rows| ::
      && i != j && rows[i].id == primary
      && rows[i].state in {"ONLINE", "RECOVERING"} && rows[j].state in {"ONLINE", "RECOVERING"}
  }

  function CountLive(rows: seq<MgrRow>): nat {
    if rows == [] then 0 else CountLive(rows[..|rows| - 1]) + if Live(rows[|rows| - 1]) then 1 else 0
  }

  predicate HasLive(rows: seq<MgrRow>, id: string) {
    exists i | 0 <= i < |rows| :: Live(rows[i]) && rows[i].id == id
  }

  /** MGRClusterWritableReady without its errors. */
  predicate WritableReady(c: Config, rows: seq<MgrRow>, primary: string) {
    c.mgr && HasLive(rows, primary) && CountLive(rows) >= 2
  }

  // ---------------------------------------------------------------- primary_hook.go

  function RunStop(c: Config, log: Log, ok: bool): Log {
    if c.onStop then log + [StopRun(ok)] else log
  }

  function RunStopIfConfigured(c: Config, h: Hook, log: Log, ctxOk: bool, ok: bool): HookOut {
    if !ctxOk then HookOut(h, log, false) else HookOut(h, RunStop(c, log, ok), !c.onStop || ok)
  }

  function EnsurePrimary(c: Config, h: Hook, log: Log, ctxOk: bool, ok: bool): HookOut {
    if !c.onStart then HookOut(h, log, true)
    else if !ctxOk then HookOut(h, log, false)
    else if h.active then HookOut(h, log, true)
    else if h.skipStartOnce then HookOut(Hook(true, false), log + [StartSkipped], true)
    else if !ok then HookOut(h, log + [StartRun(false)], false)
    else HookOut(h.(active := true), log + [StartRun(true)], true)
  }

  function EnsureReplica(c: Config, h: Hook, log: Log, ctxOk: bool, ok: bool): HookOut {
    if !ctxOk then HookOut(h, log, false)
    else if c.onStop && !ok then HookOut(h, log + [StopRun(false)], false)
    else HookOut(h.(active := false), RunStop(c, log, ok) + [ReplicaEnsured], true)
  }

  // ---------------------------------------------------------------- reconcile.go

  predicate WantsPrimary(c: Config, a: Answers) {
    a.leader && !c.nofailover && a.promotable
  }

  function Primary(a: Answers): Ref {
    if !a.viewOk || a.leaderID == "" then Ref("", "", 0)
    else if a.dbHost != "" && a.dbPort > 0 then Ref(a.leaderID, a.dbHost, a.dbPort)
    else Ref(a.leaderID, "", 0)
  }

  /** The driver reports writability together with the role. */
  function Status(w: World): World {
    w.(log := w.log + [Reported(w.db.writable)])
  }

  function OnDb(w: World, d: DbOut): Out {
    Out(w.(db := d.db, log := d.log), d.ok)
  }

  function OnHook(w: World, h: HookOut): Out {
    Out(w.(hook := h.hook, log := h.log), h.ok)
  }

  function ComputeDesired(c: Config, w: World, a: Answers): World {
    var l := w.log + [Began(a.leader)];
    w.(log := if a.leader && !c.nofailover then l + [Promotability(a.promotable)] else l)
  }

  function DefensiveStop(c: Config, w: World, a: Answers): World {
    if w.defensiveStopDone || WantsPrimary(c, a) then w
    else
      var v := w.(defensiveStopDone := true);
      if c.hooked then OnHook(v, RunStopIfConfigured(c, v.hook, v.log, a.defenceCtxOk, a.defenceOk)).w else v
  }

  /** The second phase: the database opens once the group is ready. */
  function OpenWhenReady(c: Config, w: World, a: Answers): Out {
    if !a.membersOk then Out(w, false)
    else
      var m := w.(log := w.log + [Members(a.rows, a.groupPrimary)]);
      if !WritableReady(c, a.rows, a.groupPrimary) then Out(m, true)
      else OnDb(m, SetReadWrite(m.db, m.log, a.phase2Ok))
  }

  function ApplyMGRPrimary(c: Config, w: World, a: Answers): Out {
    if !a.phase1Ok then Out(w, false)
    else
      var p := if a.phase1 then Out(w, true) else OnDb(w, ApplyPrimary(c, w.db, w.log, a.primary));
      if !p.ok then p
      else if !a.statusOk2 then Out(p.w, false)
      else
        var s := Status(p.w);
        if s.db.writable then Out(s, true) else OpenWhenReady(c, s, a)
  }

  function Promote(c: Config, w: World, a: Answers): Out {
    if !c.applyPromote || w.db.writable then Out(w, true)
    else
      var p := if c.mgr then ApplyMGRPrimary(c, w, a) else OnDb(w, ApplyPrimary(c, w.db, w.log, a.primary));
      if !p.ok then p
      else if !a.statusOk3 then Out(p.w, false)
      else Out(Status(p.w), true)
  }

  function BePrimary(c: Config, w: World, a: Answers): Out {
    var p := Promote(c, w, a);
    if !p.ok || !p.w.db.writable || !c.hooked then p
    else OnHook(p.w, EnsurePrimary(c, p.w.hook, p.w.log, a.startCtxOk, a.startOk))
  }

  /** net.SplitHostPort without its treatment of brackets. */
  function SplitHostPort(s: string): seq<string> {
    var parts := Split(s, ':');
    if |parts| == 2 then parts else []
  }

  function EnrichPrimaryRef(ref: Ref, mysqlPort: int): Ref {
    if ref.host != "" && ref.port > 0 then ref
    else if ref.host != "" || ref.member == "" then ref
    else
      var parts := SplitHostPort(ref.member);
      if parts == [] then ref
      else
        var port := if parts[1] != "" && Atoi(parts[1]).ok && mysqlPort <= 0 then Atoi(parts[1]).value else ref.port;
        ref.(host := parts[0], port := if mysqlPort > 0 then mysqlPort else port)
  }

  function ReplicaTargetKey(ref: Ref): string {
    if ref.host != "" && ref.port > 0 then ref.host + ":" + Itoa(ref.port) else ref.member
  }

  /** The reference a replica should follow, and whether there is one. */
  function Target(c: Config, a: Answers): Ref {
    EnrichPrimaryRef(Primary(a), c.mysqlPort)
  }

  predicate HasTarget(c: Config, a: Answers) {
    Primary(a).member != "" && Primary(a).member != c.id
  }

  function Follow(c: Config, w: World, a: Answers): Out {
    var key := ReplicaTargetKey(Target(c, a));
    var r := OnDb(w, ApplyReplica(c, w.db, w.log, key, SourceOf(c, Target(c, a)), a.replica));
    if r.ok then Out(r.w.(lastReplicaPrimary := key), true) else r
  }

  function ApplyReplicaIfNeeded(c: Config, w: World, a: Answers): Out {
    if !HasTarget(c, a) then Out(w.(lastReplicaPrimary := ""), true)
    else
      var key := ReplicaTargetKey(Target(c, a));
      if key == "" then Out(w, true)
      else if key != w.lastReplicaPrimary then Follow(c, w, a)
      else if !c.mgr then Out(w, true)
      else if !a.joinedOk then Out(w, false)
      else if a.joined then Out(w, true)
      else Follow(c, w.(lastReplicaPrimary := ""), a)
  }

  function DemoteIfWritable(w: World, ok: bool): Out {
    if w.db.writable then OnDb(w, Demote(w.db, w.log, ok)) else Out(w, true)
  }

  function BeReplica(c: Config, w: World, a: Answers): Out {
    var e := if c.hooked then OnHook(w, EnsureReplica(c, w.hook, w.log, a.stopCtxOk, a.stopOk)) else Out(w, true);
    if !e.ok then e
    else
      var d := DemoteIfWritable(e.w, a.demoteOk);
      if !d.ok || !c.applyPromote then d else ApplyReplicaIfNeeded(c, d.w, a)
  }

  function ApplyDesired(c: Config, w: World, a: Answers): Out {
    if !a.statusOk then Out(w, false)
    else if WantsPrimary(c, a) then BePrimary(c, Status(w), a)
    else BeReplica(c, Status(w), a)
  }

  function RunOnce(c: Config, w: World, a: Answers): Out {
    ApplyDesired(c, DefensiveStop(c, ComputeDesired(c, w, a), a), a)
  }

  // ---------------------------------------------------------------- raft/dbops.go, and runs

  datatype RaftOp = DemoteReadOnly(ok: bool) | ChangeToMaster(ok: bool, moved: bool) | EnableReadWrite(ok: bool)

  /** The election's own database calls; it gives them up when the reconciler is in charge. */
  function RaftSide(c: Config, w: World, op: RaftOp): World {
    if c.delegated then w
    else match op
      case DemoteReadOnly(ok) => OnDb(w, Demote(w.db, w.log, ok)).w
      case ChangeToMaster(ok, moved) => if ok || moved then w.(db := w.db.(source := Nobody)) else w
      case EnableReadWrite(ok) => OnDb(w, SetReadWrite(w.db, w.log, ok)).w
  }

  datatype Step = Cycle(a: Answers) | Raft(op: RaftOp)

  function Next(c: Config, w: World, s: Step): World {
    match s
    case Cycle(a) => RunOnce(c, w, a).w
    case Raft(op) => RaftSide(c, w, op)
  }

  function Run(c: Config, w: World, steps: seq<Step>): World {
    if steps == [] then w else Next(c, Run(c, w, steps[..|steps| - 1]), steps[|steps| - 1])
  }

  /** A fresh process: the stored option is neither value until set, and nothing has been served. */
  function Fresh(skipStartOnce: bool): World {
    World(Db(false, Nobody), Hook(false, skipStartOnce), false, "", [])
  }
}
