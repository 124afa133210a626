/** What a node's member lists and its epoch say about the operations that came before, whatever
    they were. */
module MembershipHistory {
  import opened Membership

  lemma RunLast(b: Book, ops: seq<Op>)
    requires ops != []
    ensures Run(b, ops) == Apply(Run(b, ops[..|ops| - 1]), ops[|ops| - 1])
  {
    hide Apply;
  }

  // ---------------------------------------------------------------- the epoch

  /** The k-th operation added or removed a node, and changed a map by it. */
  ghost predicate Changed(b: Book, ops: seq<Op>, k: int) {
    && 0 <= k < |ops| && !ops[k].Update? && !ops[k].Heartbeats?
    && (var m, n := Run(b, ops[..k]), Apply(Run(b, ops[..k]), ops[k]);
        m.peers != n.peers || m.idlePeers != n.idlePeers)
  }

  ghost function ChangesSince(b: Book, ops: seq<Op>, u: int): set<int> {
    set k | u < k < |ops| && Changed(b, ops, k)
  }

  /** The u-th operation is the latest update of the epoch, if there was one. */
  ghost predicate LatestUpdate(ops: seq<Op>, u: int) {
    && (u == -1 || (0 <= u < |ops| && ops[u].Update?))
    && forall k | u < k < |ops| :: !ops[k].Update?
  }

  lemma ChangedBefore(b: Book, ops: seq<Op>, k: int, i: int)
    requires 0 <= i < k <= |ops|
    ensures Changed(b, ops[..k], i) <==> Changed(b, ops, i)
  {
    hide Run, Apply;
    assert ops[..k][..i] == ops[..i];
  }

  lemma ChangesSnoc(b: Book, ops: seq<Op>, u: int)
    requires ops != [] && -1 <= u < |ops| - 1
    ensures var k := |ops| - 1;
            && |ChangesSince(b, ops, u)| == |ChangesSince(b, ops[..k], u)| + if Changed(b, ops, k) then 1 else 0
  {
    hide Changed;
    var k := |ops| - 1;
    forall i | 0 <= i < k ensures Changed(b, ops[..k], i) <==> Changed(b, ops, i) {
      ChangedBefore(b, ops, k, i);
    }
    if Changed(b, ops, k) {
      assert ChangesSince(b, ops, u) == ChangesSince(b, ops[..k], u) + {k};
    } else {
      assert ChangesSince(b, ops, u) == ChangesSince(b, ops[..k], u);
    }
  }

  /** The epoch is the one last received, or else the first, and one more for every add and remove
      since then that changed a map. */
  lemma {:induction false} EpochTellsHistory(b: Book, ops: seq<Op>, u: int)
    requires LatestUpdate(ops, u)
    ensures Run(b, ops).epoch == (if u == -1 then b.epoch else ops[u].epoch) + |ChangesSince(b, ops, u)|
  {
    hide Apply;
    var k := |ops| - 1;
    if u == k {
      assert ChangesSince(b, ops, u) == {};
      LatestEpoch(b, ops);
    } else {
      assert forall i | 0 <= i < k :: ops[..k][i] == ops[i];
      EpochTellsHistory(b, ops[..k], u);
      ChangesSnoc(b, ops, u);
      EpochStep(b, ops);
    }
  }

  lemma LatestEpoch(b: Book, ops: seq<Op>)
    requires ops != [] ==> ops[|ops| - 1].Update?
    ensures Run(b, ops).epoch == if ops == [] then b.epoch else ops[|ops| - 1].epoch
  {
    hide Sanitize, Refresh;
  }

  lemma EpochStep(b: Book, ops: seq<Op>)
    requires ops != [] && !ops[|ops| - 1].Update?
    ensures var k := |ops| - 1;
            Run(b, ops).epoch == Run(b, ops[..k]).epoch + if Changed(b, ops, k) then 1 else 0
  {
    hide Apply;
    var k := |ops| - 1;
    RunLast(b, ops);
    if ops[k].Heartbeats? {
      BroadcastKeeps(Run(b, ops[..k]));
    } else {
      EpochCountsChanges(Run(b, ops[..k]), ops[k]);
    }
  }

  lemma BroadcastKeeps(b: Book)
    ensures Apply(b, Heartbeats).epoch == b.epoch
  {
  }

  /** An update with lists that a well-behaved node sends is taken over as it is, and saved. */
  lemma UpdateIsAdopted(b: Book, ops: seq<Op>, epoch: nat, peers: seq<string>, idle: seq<string>)
    requires Inv(b) && forall op | op in ops :: SaneOp(op)
    requires Sane(Lists(peers, idle))
    ensures var c := Run(b, ops + [Update(epoch, peers, idle)]);
            && c.epoch == epoch && c.metaPeers == peers && c.metaIdle == idle
            && c.file == Written(Lists(peers, idle))
            && c.peers.Keys == Names(peers) - {b.id} && c.idlePeers.Keys >= Names(idle) - {b.id}
  {
    hide Inv, Clean, Sanitize;
    var op := Update(epoch, peers, idle);
    assert (ops + [op])[..|ops|] == ops;
    InvRun(b, ops);
    CleanIsFixed(peers);
    CleanIsFixed(idle);
    InvStep(Run(b, ops), op);
    Reached(Run(b, ops), op);
  }

  lemma Reached(b: Book, op: Op)
    requires Inv(b) && op.Update?
    ensures Apply(b, op).peers.Keys == Names(op.peers) - {b.id}
    ensures Apply(b, op).idlePeers.Keys >= Names(op.idle) - {b.id}
  {
    hide Sanitize, Clean;
  }

  // ---------------------------------------------------------------- the lists

  function Listed(b: Book, idle: bool): seq<string> {
    if idle then b.metaIdle else b.metaPeers
  }

  /** The operation lists x: it adds a node that is unknown so far, or it brings a list with it. */
  predicate Puts(b: Book, op: Op, x: string, idle: bool) {
    match op
    case Add(y) => !idle && y == x && x !in {"", b.id} && x !in b.peers && x !in b.idlePeers
    case AddIdle(y) => idle && y == x && x !in {"", b.id} && x !in b.peers && x !in b.idlePeers
    case Update(_, peers, others) => x in if idle then others else peers
    case _ => false
  }

  /** The operation unlists x, which must not be the node itself, or brings a list without it. */
  predicate Takes(b: Book, op: Op, x: string, idle: bool) {
    match op
    case Remove(y) => !idle && y == x && x != b.id
    case RemoveIdle(y) => idle && y == x && x != b.id
    case Update(_, peers, others) => x !in if idle then others else peers
    case _ => false
  }

  lemma ListedStep(b: Book, op: Op, x: string, idle: bool)
    requires Inv(b) && SaneOp(op)
    ensures x in Listed(Apply(b, op), idle) <==>
              Puts(b, op, x, idle) || (x in Listed(b, idle) && !Takes(b, op, x, idle))
  {
    hide Clean, RemoveFirst, Sanitize, OwnNames;
    match op
    case Remove(y) =>
      RemoveFirstClean(b.metaPeers, y);
      assert x in RemoveFirst(b.metaPeers, y) <==> x in Names(RemoveFirst(b.metaPeers, y));
      assert x in b.metaPeers <==> x in Names(b.metaPeers);
    case RemoveIdle(y) =>
      RemoveFirstClean(b.metaIdle, y);
      assert x in RemoveFirst(b.metaIdle, y) <==> x in Names(RemoveFirst(b.metaIdle, y));
      assert x in b.metaIdle <==> x in Names(b.metaIdle);
    case Update(epoch, peers, others) =>
      CleanIsFixed(peers);
      CleanIsFixed(others);
    case _ =>
  }

  /** At the k-th operation, or with the first book, x came into the list, and none took it out since. */
  ghost predicate ListedSince(b: Book, ops: seq<Op>, x: string, idle: bool, k: int) {
    && (if k == -1 then x in Listed(b, idle) else 0 <= k < |ops| && Puts(Run(b, ops[..k]), ops[k], x, idle))
    && forall j | k < j < |ops| :: !Takes(Run(b, ops[..j]), ops[j], x, idle)
  }

  lemma SincePrefix(b: Book, ops: seq<Op>, x: string, idle: bool, k: int)
    requires ops != [] && k < |ops| - 1
    ensures var n := |ops| - 1;
            ListedSince(b, ops, x, idle, k) <==>
              ListedSince(b, ops[..n], x, idle, k) && !Takes(Run(b, ops[..n]), ops[n], x, idle)
  {
    hide Run, Puts, Takes;
    var n := |ops| - 1;
    var front := ops[..n];
    assert forall j | 0 <= j < n :: front[j] == ops[j] && front[..j] == ops[..j];
  }

  /** In every run a node is listed, as peer or as idle node, exactly if something put it there and
      nothing took it out since. */
  lemma {:induction false} ListsTellHistory(b: Book, ops: seq<Op>, x: string, idle: bool)
    requires Inv(b) && forall op | op in ops :: SaneOp(op)
    ensures x in Listed(Run(b, ops), idle) <==> exists k :: ListedSince(b, ops, x, idle, k)
  {
    hide Inv, SaneOp, Apply, Puts, Takes, Listed, ListedSince;
    if ops == [] {
      ListedAtFirst(b, x, idle);
    } else {
      var n := |ops| - 1;
      assert forall op | op in ops[..n] :: op in ops;
      ListsTellHistory(b, ops[..n], x, idle);
      InvRun(b, ops[..n]);
      RunLast(b, ops);
      ListedStep(Run(b, ops[..n]), ops[n], x, idle);
      ListedNow(b, ops, x, idle);
    }
  }

  lemma ListedAtFirst(b: Book, x: string, idle: bool)
    ensures x in Listed(b, idle) <==> exists k :: ListedSince(b, [], x, idle, k)
  {
    if x in Listed(b, idle) {
      assert ListedSince(b, [], x, idle, -1);
    }
  }

  lemma ListedNow(b: Book, ops: seq<Op>, x: string, idle: bool)
    requires ops != []
    ensures var n := |ops| - 1;
            (exists k :: ListedSince(b, ops, x, idle, k)) <==>
              || Puts(Run(b, ops[..n]), ops[n], x, idle)
              || ((exists k :: ListedSince(b, ops[..n], x, idle, k)) && !Takes(Run(b, ops[..n]), ops[n], x, idle))
  {
    hide Run, Puts, Takes;
    var n := |ops| - 1;
    if Puts(Run(b, ops[..n]), ops[n], x, idle) {
      assert ListedSince(b, ops, x, idle, n);
    }
    if k :| ListedSince(b, ops[..n], x, idle, k) {
      SincePrefix(b, ops, x, idle, k);
    }
    if k :| ListedSince(b, ops, x, idle, k) {
      if k < n {
        SincePrefix(b, ops, x, idle, k);
      }
    }
  }

  // ---------------------------------------------------------------- their order

  lemma {:induction false} RemoveFirstOrder(s: seq<string>, z: string, x: string, y: string)
    requires Clean(s) && x in s && y in s && x != z && y != z
    ensures x in RemoveFirst(s, z) && y in RemoveFirst(s, z)
    ensures IndexOf(RemoveFirst(s, z), x) < IndexOf(RemoveFirst(s, z), y) <==> IndexOf(s, x) < IndexOf(s, y)
  {
    hide Clean;
    TailClean(s);
    RemoveFirstClean(s, z);
    assert x in Names(RemoveFirst(s, z)) && y in Names(RemoveFirst(s, z));
    if s[0] == z {
    } else if x != s[0] && y != s[0] {
      RemoveFirstOrder(s[1..], z, x, y);
      assert ([s[0]] + RemoveFirst(s[1..], z))[1..] == RemoveFirst(s[1..], z);
    }
  }

  lemma TailClean(s: seq<string>)
    requires Clean(s) && s != []
    ensures Clean(s[1..]) && s[0] !in s[1..]
    ensures forall x | x in s && x != s[0] :: x in s[1..]
  {
  }

  /** An add or remove keeps the order of the names that stay, and a new name comes last. */
  lemma OrderIsKept(b: Book, op: Op, x: string, y: string, idle: bool)
    requires Inv(b) && !op.Update? && x in Listed(b, idle)
    requires x in Listed(Apply(b, op), idle) && y in Listed(Apply(b, op), idle)
    ensures IndexOf(Listed(Apply(b, op), idle), x) < IndexOf(Listed(Apply(b, op), idle), y) <==>
              if y in Listed(b, idle) then IndexOf(Listed(b, idle), x) < IndexOf(Listed(b, idle), y) else true
  {
    hide Clean, RemoveFirst, IndexOf;
    var s := Listed(b, idle);
    match op
    case Add(z) =>
      if Listed(Apply(b, op), idle) != s {
        AppendOrder(s, z, x, y);
      }
    case AddIdle(z) =>
      if Listed(Apply(b, op), idle) != s {
        AppendOrder(s, z, x, y);
      }
    case Remove(z) =>
      if Listed(Apply(b, op), idle) != s {
        RemoveOrder(s, z, x, y);
      }
    case RemoveIdle(z) =>
      if Listed(Apply(b, op), idle) != s {
        RemoveOrder(s, z, x, y);
      }
    case Heartbeats =>
  }

  lemma AppendOrder(s: seq<string>, z: string, x: string, y: string)
    requires x in s && y in s + [z]
    ensures IndexOf(s + [z], x) < IndexOf(s + [z], y) <==> if y in s then IndexOf(s, x) < IndexOf(s, y) else true
  {
    hide IndexOf;
    IndexOfAppend(s, [z], x);
    IndexOfAppend(s, [z], y);
    if y !in s {
      FirstIndex(z);
    }
  }

  lemma FirstIndex(z: string)
    ensures IndexOf([z], z) == 0
  {
  }

  lemma RemoveOrder(s: seq<string>, z: string, x: string, y: string)
    requires Clean(s) && x in s && x in RemoveFirst(s, z) && y in RemoveFirst(s, z)
    ensures y in s
    ensures IndexOf(RemoveFirst(s, z), x) < IndexOf(RemoveFirst(s, z), y) <==> IndexOf(s, x) < IndexOf(s, y)
  {
    hide IndexOf, RemoveFirst, Clean;
    RemoveFirstClean(s, z);
    assert x in Names(RemoveFirst(s, z)) && y in Names(RemoveFirst(s, z));
    assert x in Names(s) - {z} && y in Names(s) - {z};
    RemoveFirstOrder(s, z, x, y);
  }
}
