/** The reconciler, its hooks and the MySQL driver as the objects the program has, each method
    proved against the function of HaCycle that describes it. */
module HaClasses {
  import H = HaCycle
  import S = HaSafety

  /** What is done to the outside, in order. */
  class Journal {
    var events: H.Log

    constructor ()
      ensures events == []
    {
      events := [];
    }

    method Note(e: H.Event)
      modifies this
      ensures events == old(events) + [e]
    {
      events := events + [e];
    }
  }

  class Driver {
    const cfg: H.Config
    const journal: Journal
    var writable: bool      // option == READWRITE
    var source: H.Source

    ghost function Db(): H.Db
      reads this
    {
      H.Db(writable, source)
    }

    constructor (cfg: H.Config, journal: Journal)
      ensures this.cfg == cfg && this.journal == journal && Db() == H.Db(false, H.Nobody)
    {
      this.cfg, this.journal, writable, source := cfg, journal, false, H.Nobody;
    }

    method SetReadOnly(answer: bool) returns (ok: bool)
      modifies this`writable, journal
      ensures H.DbOut(Db(), journal.events, ok) == H.SetReadOnly(old(Db()), old(journal.events), answer)
    {
      if !answer {
        return false;
      }
      writable := false;
      journal.Note(H.Closed);
      return true;
    }

    method SetReadWrite(answer: bool) returns (ok: bool)
      modifies this`writable, journal
      ensures H.DbOut(Db(), journal.events, ok) == H.SetReadWrite(old(Db()), old(journal.events), answer)
    {
      if !answer {
        return false;
      }
      writable := true;
      journal.Note(H.Opened);
      return true;
    }

    method ApplyPrimaryMGR(p: H.PrimaryAnswers) returns (ok: bool)
      modifies this, journal
      ensures H.DbOut(Db(), journal.events, ok) == H.ApplyPrimaryMGR(old(Db()), old(journal.events), p)
    {
      if !p.relayOk {
        return false;
      }
      if p.alreadyPrimary {
        ok := SetReadOnly(p.optionOk);
        return;
      }
      if !p.running {
        if !p.sysVarOk {
          return false;
        }
      }
      if !p.changeOk {
        return false;
      }
      ok := SetReadOnly(p.optionOk);
    }

    method ApplyPrimarySemiSync(p: H.PrimaryAnswers) returns (ok: bool)
      modifies this, journal
      ensures H.DbOut(Db(), journal.events, ok) == H.ApplyPrimarySemiSync(old(Db()), old(journal.events), p)
    {
      if !p.gtidOk {
        return false;
      }
      if !p.waitOk {
        return false;
      }
      if p.changeOk || p.moved {
        source := H.Nobody;
      }
      if !p.changeOk || !p.semiSyncOk || !p.sysVarOk {
        return false;
      }
      ok := SetReadWrite(p.optionOk);
    }

    method ApplyPrimary(p: H.PrimaryAnswers) returns (ok: bool)
      modifies this, journal
      ensures H.DbOut(Db(), journal.events, ok) == H.ApplyPrimary(cfg, old(Db()), old(journal.events), p)
    {
      journal.Note(H.CalledPrimary);
      if !p.ctxOk {
        return false;
      }
      if cfg.mgr {
        ok := ApplyPrimaryMGR(p);
      } else {
        ok := ApplyPrimarySemiSync(p);
      }
    }

    method ApplyReplica(key: string, primary: H.Ref, r: H.ReplicaAnswers) returns (ok: bool)
      modifies this, journal
      ensures H.DbOut(Db(), journal.events, ok)
           == H.ApplyReplica(cfg, old(Db()), old(journal.events), key, H.SourceOf(cfg, primary), r)
    {
      journal.Note(H.CalledReplica(key));
      if !r.ctxOk {
        return false;
      }
      var host, port := cfg.replHost, cfg.replPort;
      if primary.host != "" {
        host := primary.host;
      }
      if primary.port != 0 {
        port := primary.port;
      }
      ok := SetReadOnly(r.optionOk);
      if !ok {
        return;
      }
      if !cfg.mgr && (r.changeOk || r.moved) {
        source := H.Source(host, port);
      }
      if !r.changeOk || (!cfg.mgr && !r.startOk) {
        return false;
      }
      journal.Note(H.ReplicaDone(key));
    }

    method Demote(answer: bool) returns (ok: bool)
      modifies this, journal
      ensures H.DbOut(Db(), journal.events, ok) == H.Demote(old(Db()), old(journal.events), answer)
    {
      journal.Note(H.CalledDemote);
      ok := SetReadOnly(answer);
    }

    /** Counts the live members and looks for the primary among them. */
    method MGRClusterWritableReady(rows: seq<H.MgrRow>, uuid: string) returns (ready: bool)
      ensures ready == (cfg.mgr && S.ShowsReady(H.Members(rows, uuid)))
      ensures ready == H.WritableReady(cfg, rows, uuid)
    {
      if !cfg.mgr {
        return false;
      }
      var cnt: nat, masterOK := 0, false;
      for i := 0 to |rows|
        invariant cnt == H.CountLive(rows[..i])
        invariant masterOK == H.HasLive(rows[..i], uuid)
      {
        assert rows[..i + 1][..i] == rows[..i];
        assert forall k | 0 <= k < i :: rows[..i + 1][k] == rows[..i][k];
        if rows[i].state == "ONLINE" || rows[i].state == "RECOVERING" {
          cnt := cnt + 1;
          if rows[i].id == uuid {
            assert H.Live(rows[..i + 1][i]);
            masterOK := true;
          }
        }
      }
      assert rows[..|rows|] == rows;
      S.WritableReadyIsReady(rows, uuid);
      ready := masterOK && cnt >= 2;
    }
  }

  class PrimaryHooks {
    const cfg: H.Config
    const journal: Journal
    var active: bool
    var skipStartOnce: bool

    ghost function Hook(): H.Hook
      reads this
    {
      H.Hook(active, skipStartOnce)
    }

    constructor (cfg: H.Config, journal: Journal)
      ensures this.cfg == cfg && this.journal == journal && Hook() == H.Hook(false, false)
    {
      this.cfg, this.journal, active, skipStartOnce := cfg, journal, false, false;
    }

    method SetSkipPrimaryStartOnce()
      modifies this`skipStartOnce
      ensures skipStartOnce
    {
      skipStartOnce := true;
    }

    method RunStop(answer: bool) returns (ok: bool)
      modifies journal
      ensures journal.events == H.RunStop(cfg, old(journal.events), answer)
      ensures ok == (!cfg.onStop || answer)
    {
      if !cfg.onStop {
        return true;
      }
      journal.Note(H.StopRun(answer));
      return answer;
    }

    method RunStopIfConfigured(ctxOk: bool, answer: bool) returns (ok: bool)
      modifies journal
      ensures H.HookOut(Hook(), journal.events, ok)
           == H.RunStopIfConfigured(cfg, old(Hook()), old(journal.events), ctxOk, answer)
    {
      if !ctxOk {
        return false;
      }
      ok := RunStop(answer);
    }

    method EnsurePrimary(ctxOk: bool, answer: bool) returns (ok: bool)
      modifies this, journal
      ensures H.HookOut(Hook(), journal.events, ok)
           == H.EnsurePrimary(cfg, old(Hook()), old(journal.events), ctxOk, answer)
    {
      if !cfg.onStart {
        return true;
      }
      if !ctxOk {
        return false;
      }
      if active {
        return true;
      }
      if skipStartOnce {
        skipStartOnce := false;
        active := true;
        journal.Note(H.StartSkipped);
        return true;
      }
      journal.Note(H.StartRun(answer));
      if !answer {
        return false;
      }
      active := true;
      return true;
    }

    method EnsureReplica(ctxOk: bool, answer: bool) returns (ok: bool)
      modifies this, journal
      ensures H.HookOut(Hook(), journal.events, ok)
           == H.EnsureReplica(cfg, old(Hook()), old(journal.events), ctxOk, answer)
    {
      if !ctxOk {
        return false;
      }
      if !active && !cfg.onStop {
        journal.Note(H.ReplicaEnsured);
        return true;
      }
      ok := RunStop(answer);
      if !ok {
        return;
      }
      active := false;
      journal.Note(H.ReplicaEnsured);
    }
  }

  class Reconciler {
    const cfg: H.Config
    const journal: Journal
    const driver: Driver
    const hooks: PrimaryHooks
    var defensiveStopDone: bool
    var lastReplicaPrimary: string

    ghost predicate Valid() {
      driver.journal == journal && hooks.journal == journal && driver.cfg == cfg && hooks.cfg == cfg
    }

    ghost function World(): H.World
      reads this, journal, driver, hooks
    {
      H.World(driver.Db(), hooks.Hook(), defensiveStopDone, lastReplicaPrimary, journal.events)
    }

    constructor (cfg: H.Config, driver: Driver, hooks: PrimaryHooks, journal: Journal)
      requires driver.journal == journal && hooks.journal == journal && driver.cfg == cfg && hooks.cfg == cfg
      ensures Valid() && this.cfg == cfg && this.driver == driver && this.hooks == hooks && this.journal == journal
      ensures World() == H.World(driver.Db(), hooks.Hook(), false, "", journal.events)
    {
      this.cfg, this.driver, this.hooks, this.journal := cfg, driver, hooks, journal;
      defensiveStopDone, lastReplicaPrimary := false, "";
    }

    method ComputeDesired(a: H.Answers) returns (primary: bool, target: H.Ref)
      modifies journal
      ensures World() == H.ComputeDesired(cfg, old(World()), a)
      ensures primary == H.WantsPrimary(cfg, a) && target == H.Primary(a)
    {
      journal.Note(H.Began(a.leader));
      if a.leader && !cfg.nofailover {
        journal.Note(H.Promotability(a.promotable));
        primary := a.promotable;
      } else {
        primary := false;
      }
      target := PrimaryRef(a);
    }

    /** The reference to the cluster's leader, with its database if the view names one. */
    method PrimaryRef(a: H.Answers) returns (target: H.Ref)
      ensures target == H.Primary(a)
    {
      target := H.Ref("", "", 0);
      if a.viewOk && a.leaderID != "" {
        target := H.Ref(a.leaderID, "", 0);
        if a.dbHost != "" && a.dbPort > 0 {
          target := H.Ref(a.leaderID, a.dbHost, a.dbPort);
        }
      }
    }

    method Status() returns (writable: bool)
      requires Valid()
      modifies journal
      ensures World() == H.Status(old(World())) && writable == driver.writable
    {
      journal.Note(H.Reported(driver.writable));
      return driver.writable;
    }

    method RunOnce(a: H.Answers) returns (ok: bool)
      requires Valid()
      modifies this, journal, driver, hooks
      ensures H.Out(World(), ok) == H.RunOnce(cfg, old(World()), a)
    {
      hide H.ComputeDesired, H.WantsPrimary, H.ApplyDesired, H.RunStopIfConfigured;
      var primary, target := ComputeDesired(a);
      if !defensiveStopDone && !primary {
        defensiveStopDone := true;
        if cfg.hooked {
          var stopped := hooks.RunStopIfConfigured(a.defenceCtxOk, a.defenceOk);
        }
      }
      ok := ApplyDesired(primary, target, a);
    }

    method ApplyDesired(primary: bool, target: H.Ref, a: H.Answers) returns (ok: bool)
      requires Valid() && primary == H.WantsPrimary(cfg, a) && target == H.Primary(a)
      modifies this, journal, driver, hooks
      ensures H.Out(World(), ok) == H.ApplyDesired(cfg, old(World()), a)
    {
      hide H.BePrimary, H.BeReplica, H.Primary, H.WantsPrimary;
      if !a.statusOk {
        return false;
      }
      var writable := Status();
      if primary {
        ok := BePrimary(writable, a);
      } else {
        ok := BeReplica(writable, target, a);
      }
    }

    method Promote(health: bool, a: H.Answers) returns (ok: bool, writable: bool)
      requires Valid() && health == driver.writable
      modifies this, journal, driver
      ensures H.Out(World(), ok) == H.Promote(cfg, old(World()), a)
      ensures ok ==> writable == driver.writable
    {
      hide H.ApplyPrimary, H.ApplyMGRPrimary;
      writable := health;
      if !cfg.applyPromote || health {
        return true, writable;
      }
      if cfg.mgr {
        ok := ApplyMGRPrimary(a);
      } else {
        ok := driver.ApplyPrimary(a.primary);
      }
      if !ok {
        return;
      }
      if !a.statusOk3 {
        return false, writable;
      }
      writable := Status();
    }

    method BePrimary(health: bool, a: H.Answers) returns (ok: bool)
      requires Valid() && health == driver.writable
      modifies this, journal, driver, hooks
      ensures H.Out(World(), ok) == H.BePrimary(cfg, old(World()), a)
    {
      hide H.Promote, H.EnsurePrimary;
      var writable;
      ok, writable := Promote(health, a);
      if ok && writable && cfg.hooked {
        ok := hooks.EnsurePrimary(a.startCtxOk, a.startOk);
      }
    }

    method ApplyMGRPrimary(a: H.Answers) returns (ok: bool)
      requires Valid()
      modifies this, journal, driver
      ensures H.Out(World(), ok) == H.ApplyMGRPrimary(cfg, old(World()), a)
    {
      hide H.ApplyPrimary, H.OpenWhenReady;
      if !a.phase1Ok {
        return false;
      }
      if !a.phase1 {
        ok := driver.ApplyPrimary(a.primary);
        if !ok {
          return;
        }
      }
      if !a.statusOk2 {
        return false;
      }
      var writable := Status();
      if writable {
        return true;
      }
      ok := OpenWhenReady(a);
    }

    method OpenWhenReady(a: H.Answers) returns (ok: bool)
      requires Valid()
      modifies journal, driver
      ensures H.Out(World(), ok) == H.OpenWhenReady(cfg, old(World()), a)
    {
      hide H.WritableReady;
      if !a.membersOk {
        return false;
      }
      journal.Note(H.Members(a.rows, a.groupPrimary));
      var ready := driver.MGRClusterWritableReady(a.rows, a.groupPrimary);
      if !ready {
        return true;
      }
      ok := driver.SetReadWrite(a.phase2Ok);
    }

    method BeReplica(health: bool, target: H.Ref, a: H.Answers) returns (ok: bool)
      requires Valid() && health == driver.writable && target == H.Primary(a)
      modifies this, journal, driver, hooks
      ensures H.Out(World(), ok) == H.BeReplica(cfg, old(World()), a)
    {
      hide H.EnsureReplica, H.ApplyReplicaIfNeeded, H.Primary, H.Demote;
      if cfg.hooked {
        ok := hooks.EnsureReplica(a.stopCtxOk, a.stopOk);
        if !ok {
          return;
        }
      }
      if health {
        ok := driver.Demote(a.demoteOk);
        if !ok {
          return;
        }
      }
      if cfg.applyPromote {
        ok := ApplyReplicaIfNeeded(target, a);
      } else {
        ok := true;
      }
    }

    method ApplyReplicaIfNeeded(primary: H.Ref, a: H.Answers) returns (ok: bool)
      requires Valid() && primary == H.Primary(a)
      modifies this, journal, driver
      ensures H.Out(World(), ok) == H.ApplyReplicaIfNeeded(cfg, old(World()), a)
    {
      hide H.Primary, H.ApplyReplica, H.EnrichPrimaryRef, H.ReplicaTargetKey, H.SourceOf;
      if primary.member == "" || primary.member == cfg.id {
        lastReplicaPrimary := "";
        return true;
      }
      var ref := H.EnrichPrimaryRef(primary, cfg.mysqlPort);
      var targetKey := H.ReplicaTargetKey(ref);
      if targetKey == "" {
        return true;
      }
      if targetKey == lastReplicaPrimary {
        if !cfg.mgr {
          return true;
        }
        if !a.joinedOk {
          return false;
        }
        if a.joined {
          return true;
        }
        lastReplicaPrimary := "";
      }
      ok := driver.ApplyReplica(targetKey, ref, a.replica);
      if ok {
        lastReplicaPrimary := targetKey;
      }
    }
  }

  /** internal/election/raft/dbops.go: the election's way to the database. */
  class RaftDatabase {
    const delegateDBApply: bool
    const driver: Driver

    constructor (driver: Driver)
      ensures this.driver == driver && delegateDBApply == driver.cfg.delegated
    {
      this.driver, delegateDBApply := driver, driver.cfg.delegated;
    }

    ghost function After(w: H.World): H.World
      reads driver, driver.journal
    {
      w.(db := driver.Db(), log := driver.journal.events)
    }

    method DemoteReadOnly(answer: bool) returns (ok: bool)
      requires delegateDBApply == driver.cfg.delegated
      modifies driver, driver.journal
      ensures forall w: H.World | w == old(After(w)) :: After(w) == H.RaftSide(driver.cfg, w, H.DemoteReadOnly(answer))
      ensures ok == (driver.cfg.delegated || answer)
    {
      if delegateDBApply {
        return true;
      }
      ok := driver.Demote(answer);
    }

    method ChangeToMaster(answer: bool, moved: bool) returns (ok: bool)
      requires delegateDBApply == driver.cfg.delegated
      modifies driver, driver.journal
      ensures forall w: H.World | w == old(After(w)) :: After(w) == H.RaftSide(driver.cfg, w,
          H.ChangeToMaster(answer, moved))
      ensures ok == (driver.cfg.delegated || answer)
    {
      if delegateDBApply {
        return true;
      }
      if answer || moved {
        driver.source := H.Nobody;
      }
      return answer;
    }

    method EnableReadWrite(answer: bool) returns (ok: bool)
      requires delegateDBApply == driver.cfg.delegated
      modifies driver, driver.journal
      ensures forall w: H.World | w == old(After(w)) :: After(w) == H.RaftSide(driver.cfg, w, H.EnableReadWrite(answer))
      ensures ok == (driver.cfg.delegated || answer)
    {
      if delegateDBApply {
        return true;
      }
      ok := driver.SetReadWrite(answer);
    }
  }
}
