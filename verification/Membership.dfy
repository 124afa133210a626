/** The member lists of a node and its connection maps, which are changed side by side
    (internal/election/raft: api.go, raft.go, leader.go, peer_json.go), as functions. */
module Membership {

  /** The Peer tuple: what it takes to reach a node. */
  datatype Peer = Peer(connectionStr: string)

  datatype Lists = Lists(peers: seq<string>, idle: seq<string>)
  datatype Stored = Nothing | Written(lists: Lists)

  datatype Book = Book(
    id: string,
    metaPeers: seq<string>,
    metaIdle: seq<string>,
    peers: map<string, Peer>,
    idlePeers: map<string, Peer>,
    epoch: nat,
    file: Stored)

  function Names(s: seq<string>): set<string> {
    set x | x in s
  }

  // ---------------------------------------------------------------- peer_json.go

  /** Drops empty names and repetitions. */
  function Sanitize(s: seq<string>): seq<string> {
    if s == [] then []
    else
      var front, p := Sanitize(s[..|s| - 1]), s[|s| - 1];
      if p == "" || p in front then front else front + [p]
  }

  ghost predicate NoRepeats(s: seq<string>) {
    forall i, j | 0 <= i < j < |s| :: s[i] != s[j]
  }

  ghost predicate Clean(s: seq<string>) {
    NoRepeats(s) && "" !in s
  }

  function IndexOf(s: seq<string>, x: string): nat
    requires x in s
  {
    if s[0] == x then 0 else 1 + IndexOf(s[1..], x)
  }

  lemma {:induction false} SanitizeCleans(s: seq<string>)
    ensures Clean(Sanitize(s)) && Names(Sanitize(s)) == Names(s) - {""}
  {
    if s == [] {
    } else {
      var front := s[..|s| - 1];
      SanitizeCleans(front);
      assert s == front + [s[|s| - 1]];
      assert forall x :: x in Sanitize(front) <==> x in Names(Sanitize(front));
    }
  }

  lemma {:induction false} CleanIsFixed(s: seq<string>)
    requires Clean(s)
    ensures Sanitize(s) == s
  {
    if s == [] {
    } else {
      var k := |s| - 1;
      CleanIsFixed(s[..k]);
      assert s == s[..k] + [s[k]];
    }
  }

  lemma {:induction false} IndexOfAppend(s: seq<string>, t: seq<string>, x: string)
    requires x in s + t
    ensures IndexOf(s + t, x) == if x in s then IndexOf(s, x) else |s| + IndexOf(t, x)
    ensures x in s ==> IndexOf(s, x) < |s|
  {
    if s == [] {
      assert s + t == t;
    } else if s[0] != x {
      assert (s + t)[1..] == s[1..] + t;
      IndexOfAppend(s[1..], t, x);
    }
  }

  /** Cleaning keeps the order in which names first occur, and cleaning twice changes nothing. */
  lemma {:induction false} SanitizeKeepsOrder(s: seq<string>, a: string, b: string)
    requires a in Sanitize(s) && b in Sanitize(s)
    ensures a in s && b in s
    ensures IndexOf(Sanitize(s), a) < IndexOf(Sanitize(s), b) <==> IndexOf(s, a) < IndexOf(s, b)
    ensures Sanitize(Sanitize(s)) == Sanitize(s)
  {
    SanitizeCleans(s);
    CleanIsFixed(Sanitize(s));
    SameMembers(s, a);
    SameMembers(s, b);
    var front, p := s[..|s| - 1], s[|s| - 1];
    assert s == front + [p];
    SanitizeCleans(front);
    IndexOfAppend(front, [p], a);
    IndexOfAppend(front, [p], b);
    if Sanitize(s) != Sanitize(front) {
      IndexOfAppend(Sanitize(front), [p], a);
      IndexOfAppend(Sanitize(front), [p], b);
      SameMembers(front, p);
    }
    if a in Sanitize(front) {
      SameMembers(front, a);
    }
    if b in Sanitize(front) {
      SameMembers(front, b);
    }
    if a in Sanitize(front) && b in Sanitize(front) {
      SanitizeKeepsOrder(front, a, b);
    }
  }

  lemma SameMembers(s: seq<string>, x: string)
    ensures x in Sanitize(s) <==> x in s && x != ""
  {
    SanitizeCleans(s);
    assert x in Names(Sanitize(s)) <==> x in Names(s) - {""};
  }

  // ---------------------------------------------------------------- api.go

  function RemoveFirst(s: seq<string>, x: string): seq<string> {
    if s == [] then [] else if s[0] == x then s[1..] else [s[0]] + RemoveFirst(s[1..], x)
  }

  function Save(b: Book): Book {
    b.(epoch := b.epoch + 1, file := Written(Lists(b.metaPeers, b.metaIdle)))
  }

  predicate CanAdd(b: Book, x: string) {
    x != "" && x !in b.peers && x !in b.idlePeers && x != b.id
  }

  function AddPeer(b: Book, x: string): Book {
    if CanAdd(b, x) then Save(b.(peers := b.peers[x := Peer(x)], metaPeers := b.metaPeers + [x])) else b
  }

  function AddIdlePeer(b: Book, x: string): Book {
    if CanAdd(b, x) then Save(b.(idlePeers := b.idlePeers[x := Peer(x)], metaIdle := b.metaIdle + [x])) else b
  }

  function RemovePeer(b: Book, x: string): Book {
    if x != b.id && x in b.peers then
      Save(b.(peers := b.peers - {x}, metaPeers := RemoveFirst(b.metaPeers, x)))
    else b
  }

  function RemoveIdlePeer(b: Book, x: string): Book {
    if x != b.id && x in b.idlePeers then
      Save(b.(idlePeers := b.idlePeers - {x}, metaIdle := RemoveFirst(b.metaIdle, x)))
    else b
  }

  // ---------------------------------------------------------------- raft.go, leader.go

  /** Adds the missing names and drops what is not marked. */
  function Refresh(m: map<string, Peer>, id: string, names: seq<string>, mark: set<string>): map<string, Peer>
    requires Names(names) <= mark
  {
    map x | x in (m.Keys * mark) + (Names(names) - {id}) :: if x in m then m[x] else Peer(x)
  }

  function UpdateEpoch(b: Book, epoch: nat, peers: seq<string>, idle: seq<string>): Book {
    Book(b.id, Sanitize(peers), Sanitize(idle),
         Refresh(b.peers, b.id, peers, Names(peers)),
         Refresh(b.idlePeers, b.id, idle, Names(peers) + Names(idle)),
         epoch, Written(Lists(Sanitize(peers), Sanitize(idle))))
  }

  /** Sending heartbeats copies the idle map into the map of peers. */
  function Broadcast(b: Book): Book {
    b.(peers := b.peers + b.idlePeers)
  }

  function Connect(id: string, names: seq<string>): map<string, Peer> {
    map x | x in Names(names) - {id} :: Peer(x)
  }

  /** initPeers on the cleaned contents of the peers file, or on nothing. */
  function Start(id: string, superIdle: bool, file: Stored): Book {
    var l := if file.Written? then Lists(Sanitize(file.lists.peers), Sanitize(file.lists.idle)) else Lists([], []);
    Book(id,
         if l.peers == [] && !superIdle then [id] else l.peers,
         if l.idle == [] && superIdle then [id] else l.idle,
         Connect(id, l.peers), Connect(id, l.idle), 0, file)
  }

  datatype Op =
    | Add(x: string)
    | AddIdle(x: string)
    | Remove(x: string)
    | RemoveIdle(x: string)
    | Update(epoch: nat, peers: seq<string>, idle: seq<string>)
    | Heartbeats

  function Apply(b: Book, op: Op): Book {
    match op
    case Add(x) => AddPeer(b, x)
    case AddIdle(x) => AddIdlePeer(b, x)
    case Remove(x) => RemovePeer(b, x)
    case RemoveIdle(x) => RemoveIdlePeer(b, x)
    case Update(epoch, peers, idle) => UpdateEpoch(b, epoch, peers, idle)
    case Heartbeats => Broadcast(b)
  }

  function Run(b: Book, ops: seq<Op>): Book {
    if ops == [] then b else Apply(Run(b, ops[..|ops| - 1]), ops[|ops| - 1])
  }

  // ---------------------------------------------------------------- the invariant

  /** Lists a well-behaved node sends or stores. */
  ghost predicate Sane(l: Lists) {
    Clean(l.peers) && Clean(l.idle) && Names(l.peers) !! Names(l.idle)
  }

  ghost predicate SaneOp(op: Op) {
    op.Update? ==> Sane(Lists(op.peers, op.idle))
  }

  ghost predicate OwnNames(m: map<string, Peer>) {
    forall x | x in m :: m[x] == Peer(x)
  }

  ghost predicate Inv(b: Book) {
    && Sane(Lists(b.metaPeers, b.metaIdle))
    && b.id !in b.peers && b.id !in b.idlePeers
    && Names(b.metaPeers) - {b.id} <= b.peers.Keys
    && Names(b.metaIdle) - {b.id} <= b.idlePeers.Keys
    && OwnNames(b.peers) && OwnNames(b.idlePeers)
  }

  lemma {:induction false} RemoveFirstClean(s: seq<string>, x: string)
    requires Clean(s)
    ensures Clean(RemoveFirst(s, x)) && Names(RemoveFirst(s, x)) == Names(s) - {x}
  {
    if s == [] {
    } else {
      var t := s[1..];
      assert s == [s[0]] + t;
      assert s[0] !in t;
      if s[0] != x {
        RemoveFirstClean(t, x);
        assert forall y :: y in RemoveFirst(t, x) <==> y in Names(RemoveFirst(t, x));
        assert Names(s) == {s[0]} + Names(t);
        assert Names([s[0]] + RemoveFirst(t, x)) == {s[0]} + Names(RemoveFirst(t, x));
      }
    }
  }

  lemma AppendClean(s: seq<string>, x: string)
    requires Clean(s) && x !in s && x != ""
    ensures Clean(s + [x]) && Names(s + [x]) == Names(s) + {x}
  {
  }

  lemma InvStep(b: Book, op: Op)
    requires Inv(b) && SaneOp(op)
    ensures Inv(Apply(b, op)) && Apply(b, op).id == b.id
  {
    hide Clean, RemoveFirst, Sanitize;
    match op
    case Add(x) =>
      if CanAdd(b, x) {
        assert x !in Names(b.metaPeers) && x !in Names(b.metaIdle);
        AppendClean(b.metaPeers, x);
      }
    case AddIdle(x) =>
      if CanAdd(b, x) {
        assert x !in Names(b.metaPeers) && x !in Names(b.metaIdle);
        AppendClean(b.metaIdle, x);
      }
    case Remove(x) => RemoveFirstClean(b.metaPeers, x);
    case RemoveIdle(x) => RemoveFirstClean(b.metaIdle, x);
    case Update(epoch, peers, idle) =>
      CleanIsFixed(peers);
      CleanIsFixed(idle);
    case Heartbeats =>
  }

  /** The lists stay free of repetitions and disjoint, and every listed node but this one can be
      reached, under any sequence of changes, epoch updates and heartbeats. */
  lemma {:induction false} InvRun(b: Book, ops: seq<Op>)
    requires Inv(b) && forall op | op in ops :: SaneOp(op)
    ensures Inv(Run(b, ops)) && Run(b, ops).id == b.id
  {
    hide Inv, SaneOp, Apply;
    if ops == [] {
    } else {
      var k := |ops| - 1;
      assert forall op | op in ops[..k] :: op in ops;
      InvRun(b, ops[..k]);
      InvStep(Run(b, ops[..k]), ops[k]);
    }
  }

  /** A node starts well exactly when the stored lists are disjoint and its own name, which fills
      an empty list, is not stored in the other. */
  lemma StartsWell(id: string, superIdle: bool, file: Stored)
    requires id != ""
    ensures Inv(Start(id, superIdle, file)) <==>
              file.Written? ==>
                && (forall x | x in file.lists.peers && x in file.lists.idle :: x == "")
                && !(!superIdle && id in file.lists.idle && forall x | x in file.lists.peers :: x == "")
                && !(superIdle && id in file.lists.peers && forall x | x in file.lists.idle :: x == "")
  {
    hide Sanitize, Clean;
    var b := Start(id, superIdle, file);
    StartIsDisjoint(id, superIdle, file);
    if file.Written? {
      var p, i := file.lists.peers, file.lists.idle;
      EmptyWhen(p);
      EmptyWhen(i);
      forall x ensures x in Sanitize(p) <==> x in p && x != "" { SameMembers(p, x); }
      forall x ensures x in Sanitize(i) <==> x in i && x != "" { SameMembers(i, x); }
      if Sanitize(p) == [] && !superIdle {
        assert id in b.metaPeers;
      }
      if Sanitize(i) == [] && superIdle {
        assert id in b.metaIdle;
      }
    }
  }

  lemma StartIsDisjoint(id: string, superIdle: bool, file: Stored)
    requires id != ""
    ensures var b := Start(id, superIdle, file);
            Inv(b) <==> forall x | x in b.metaPeers :: x !in b.metaIdle
  {
    hide Sanitize;
    var b := Start(id, superIdle, file);
    assert Clean([id]);
    if file.Written? {
      SanitizeCleans(file.lists.peers);
      SanitizeCleans(file.lists.idle);
    }
    assert forall x :: x in b.metaPeers <==> x in Names(b.metaPeers);
  }

  lemma EmptyWhen(s: seq<string>)
    ensures Sanitize(s) == [] <==> forall x | x in s :: x == ""
  {
    SanitizeCleans(s);
    if Sanitize(s) == [] {
      forall x | x in s ensures x == "" { SameMembers(s, x); }
    } else {
      SameMembers(s, Sanitize(s)[0]);
    }
  }

  // ---------------------------------------------------------------- what else is in the maps

  /** The names that heartbeats copied into the map of peers, and the names that an epoch update
      left in the idle map although they moved to the peers. */
  datatype Strays = Strays(merged: set<string>, lingering: set<string>)

  function Trace(b: Book, s: Strays, op: Op): Strays {
    match op
    case Remove(x) => s.(merged := s.merged - {x})
    case RemoveIdle(x) => s.(lingering := s.lingering - {x})
    case Update(epoch, peers, idle) => Strays({}, b.idlePeers.Keys * Names(peers))
    case Heartbeats => s.(merged := s.merged + b.idlePeers.Keys)
    case _ => s
  }

  function StraysOf(b: Book, ops: seq<Op>): Strays {
    if ops == [] then Strays({}, {})
    else
      var k := |ops| - 1;
      Trace(Run(b, ops[..k]), StraysOf(b, ops[..k]), ops[k])
  }

  ghost predicate Exact(b: Book, s: Strays) {
    && b.peers.Keys == (Names(b.metaPeers) - {b.id}) + s.merged
    && b.idlePeers.Keys == (Names(b.metaIdle) - {b.id}) + s.lingering
  }

  lemma ExactStep(b: Book, s: Strays, op: Op)
    requires Inv(b) && SaneOp(op) && Exact(b, s)
    ensures Exact(Apply(b, op), Trace(b, s, op))
  {
    hide Clean, RemoveFirst, Sanitize, OwnNames;
    match op
    case Add(x) =>
      if CanAdd(b, x) {
        assert x !in Names(b.metaPeers);
        AppendClean(b.metaPeers, x);
      }
    case AddIdle(x) =>
      if CanAdd(b, x) {
        assert x !in Names(b.metaIdle);
        AppendClean(b.metaIdle, x);
      }
    case Remove(x) => RemoveFirstClean(b.metaPeers, x);
    case RemoveIdle(x) => RemoveFirstClean(b.metaIdle, x);
    case Update(epoch, peers, idle) =>
      CleanIsFixed(peers);
      CleanIsFixed(idle);
    case Heartbeats =>
  }

  /** The maps hold the lists without this node, and exactly the strays beside them. */
  lemma {:induction false} MapsAreListsAndStrays(b: Book, ops: seq<Op>)
    requires Inv(b) && Exact(b, Strays({}, {})) && forall op | op in ops :: SaneOp(op)
    ensures Exact(Run(b, ops), StraysOf(b, ops))
  {
    hide Inv, SaneOp, Apply, Exact, Trace;
    if ops == [] {
    } else {
      var k := |ops| - 1;
      assert forall op | op in ops[..k] :: op in ops;
      MapsAreListsAndStrays(b, ops[..k]);
      InvRun(b, ops[..k]);
      ExactStep(Run(b, ops[..k]), StraysOf(b, ops[..k]), ops[k]);
    }
  }

  /** While no idle node is known the map of peers is the list of peers without this node. */
  lemma {:induction false} ExactWithoutIdle(b: Book, ops: seq<Op>)
    requires Inv(b) && Exact(b, Strays({}, {})) && b.metaIdle == []
    requires forall op | op in ops :: SaneOp(op) && !op.AddIdle? && (op.Update? ==> op.idle == [])
    ensures Run(b, ops).metaIdle == [] && Run(b, ops).idlePeers == map[]
    ensures Run(b, ops).peers.Keys == Names(Run(b, ops).metaPeers) - {b.id}
  {
    hide Inv, SaneOp;
    MapsAreListsAndStrays(b, ops);
    InvRun(b, ops);
    if ops == [] {
      assert b.idlePeers.Keys == {};
    } else {
      var k := |ops| - 1;
      assert forall op | op in ops[..k] :: op in ops;
      ExactWithoutIdle(b, ops[..k]);
      assert ops[k] in ops;
      NoStrays(b, ops);
    }
  }

  lemma {:induction false} NoStrays(b: Book, ops: seq<Op>)
    requires Inv(b) && Exact(b, Strays({}, {})) && b.metaIdle == []
    requires forall op | op in ops :: SaneOp(op) && !op.AddIdle? && (op.Update? ==> op.idle == [])
    ensures StraysOf(b, ops) == Strays({}, {}) && Run(b, ops).idlePeers == map[] && Run(b, ops).metaIdle == []
  {
    hide Inv, SaneOp;
    if ops == [] {
      assert b.idlePeers.Keys == {};
    } else {
      var k := |ops| - 1;
      assert forall op | op in ops[..k] :: op in ops;
      NoStrays(b, ops[..k]);
      assert ops[k] in ops;
      assert Refresh(map[], b.id, [], Names([])) == map[];
    }
  }

  /** Each add or remove that changes a map raises the epoch by exactly one, and no other does. */
  lemma EpochCountsChanges(b: Book, op: Op)
    requires op.Add? || op.AddIdle? || op.Remove? || op.RemoveIdle?
    ensures var c := Apply(b, op);
            && c.epoch == b.epoch + (if c.peers != b.peers || c.idlePeers != b.idlePeers then 1 else 0)
            && (c.peers == b.peers && c.idlePeers == b.idlePeers ==> c == b)
  {
    hide RemoveFirst;
    var x := op.x;
    assert x in b.peers ==> x !in (b.peers - {x});
    assert x in b.idlePeers ==> x !in (b.idlePeers - {x});
    assert x in b.peers[x := Peer(x)] && x in b.idlePeers[x := Peer(x)];
  }

  /** An unlisted node is refused exactly when it is among the strays. */
  lemma RefusedAsStray(b: Book, ops: seq<Op>, x: string)
    requires Inv(b) && Exact(b, Strays({}, {})) && forall op | op in ops :: SaneOp(op)
    requires x != "" && x != b.id && x !in Run(b, ops).metaPeers && x !in Run(b, ops).metaIdle
    ensures AddPeer(Run(b, ops), x) == Run(b, ops) <==>
              x in StraysOf(b, ops).merged || x in StraysOf(b, ops).lingering
  {
    hide Inv;
    InvRun(b, ops);
    MapsAreListsAndStrays(b, ops);
    var r := Run(b, ops);
    if CanAdd(r, x) {
      EpochCountsChanges(r, Add(x));
    }
  }

  /** A leader that drops an idle node after a heartbeat can no longer admit it as a peer. */
  lemma DroppedIdleCannotReturn(b: Book, x: string)
    requires Inv(b) && CanAdd(b, x)
    ensures var c := Run(b, [AddIdle(x), Heartbeats, RemoveIdle(x)]);
            x !in c.metaPeers && x !in c.metaIdle && AddPeer(c, x) == c && AddIdlePeer(c, x) == c
  {
    hide Clean, RemoveFirst;
    var c1 := Apply(b, AddIdle(x));
    var c2 := Apply(c1, Heartbeats);
    var c3 := Apply(c2, RemoveIdle(x));
    var ops := [AddIdle(x), Heartbeats, RemoveIdle(x)];
    assert Run(b, []) == b;
    assert ops[..1] == [AddIdle(x)] && ops[..2] == [AddIdle(x), Heartbeats];
    assert ops[..1][..0] == [] && ops[..2][..1] == ops[..1];
    assert Run(b, ops[..1]) == c1;
    assert Run(b, ops[..2]) == c2;
    assert Run(b, ops) == c3;
    InvStep(b, AddIdle(x));
    InvStep(c1, Heartbeats);
    RemoveFirstClean(c2.metaIdle, x);
    assert x !in Names(b.metaPeers);
    assert x !in Names(RemoveFirst(c2.metaIdle, x));
  }

  // ---------------------------------------------------------------- restart

  ghost predicate FileCurrent(b: Book) {
    b.file == Written(Lists(b.metaPeers, b.metaIdle))
  }

  /** The file on disk holds the current lists from the first change on. */
  lemma {:induction false} FileFollows(b: Book, ops: seq<Op>)
    requires FileCurrent(b)
    ensures FileCurrent(Run(b, ops))
  {
    if ops == [] {
    } else {
      FileFollows(b, ops[..|ops| - 1]);
    }
  }

  lemma {:induction false} ChangeWritesFile(b: Book, op: Op)
    requires Apply(b, op) != b && !op.Heartbeats?
    ensures FileCurrent(Apply(b, op))
  {
    hide RemoveFirst, Sanitize, Refresh;
  }

  /** A restart from the file recovers the lists and repairs the maps. */
  lemma RestartRepairs(b: Book, superIdle: bool)
    requires Inv(b) && FileCurrent(b) && b.metaPeers != [] && (superIdle ==> b.metaIdle != [])
    ensures var c := Start(b.id, superIdle, b.file);
            && c.metaPeers == b.metaPeers && c.metaIdle == b.metaIdle
            && Inv(c) && Exact(c, Strays({}, {})) && c.id == b.id && c.epoch == 0 && c.file == b.file
  {
    hide Clean, Sanitize;
    CleanIsFixed(b.metaPeers);
    CleanIsFixed(b.metaIdle);
  }
}
