/** The membership fields of a node and the methods that change them, against Membership.dfy. */
module MembershipClass {
  import M = Membership

  method SanitizePeerList(peers: seq<string>) returns (out: seq<string>)
    ensures out == M.Sanitize(peers)
    ensures M.Clean(out) && forall x :: x in out <==> x in peers && x != ""
  {
    if |peers| == 0 {
      return peers;
    }
    out := [];
    var seen: set<string> := {};
    for i := 0 to |peers|
      invariant out == M.Sanitize(peers[..i])
      invariant forall x :: x in seen <==> x in out
    {
      assert peers[..i + 1][..i] == peers[..i];
      var p := peers[i];
      if p == "" || p in seen {
        continue;
      }
      seen := seen + {p};
      out := out + [p];
    }
    assert peers[..|peers|] == peers;
    M.SanitizeCleans(peers);
    forall x ensures x in out <==> x in peers && x != "" {
      M.SameMembers(peers, x);
    }
  }

  /** The search loop of RemovePeer: drops the first occurrence. */
  method DropFirst(names: seq<string>, x: string) returns (rest: seq<string>)
    ensures rest == M.RemoveFirst(names, x)
  {
    for i := 0 to |names|
      invariant x !in names[..i]
      invariant M.RemoveFirst(names, x) == names[..i] + M.RemoveFirst(names[i..], x)
    {
      assert names[i..] == [names[i]] + names[i + 1..];
      if names[i] == x {
        return names[..i] + names[i + 1..];
      }
      assert names[..i + 1] == names[..i] + [names[i]];
    }
    assert names[|names|..] == [];
    return names;
  }

  class Membership {
    const id: string
    var metaPeers: seq<string>
    var metaIdle: seq<string>
    var peers: map<string, M.Peer>
    var idlePeers: map<string, M.Peer>
    var epoch: nat
    var file: M.Stored

    ghost function Book(): M.Book
      reads this
    {
      M.Book(id, metaPeers, metaIdle, peers, idlePeers, epoch, file)
    }

    /** NewRaft with initPeers. */
    constructor (id: string, superIdle: bool, file: M.Stored)
      ensures Book() == M.Start(id, superIdle, file)
    {
      this.id, this.file, epoch := id, file, 0;
      metaPeers, metaIdle, peers, idlePeers := [], [], map[], map[];
      new;
      InitPeers(superIdle);
    }

    method InitPeers(superIdle: bool)
      requires metaPeers == [] && metaIdle == [] && peers == map[] && idlePeers == map[] && epoch == 0
      modifies this`metaPeers, this`metaIdle, this`peers, this`idlePeers
      ensures Book() == M.Start(id, superIdle, file)
    {
      hide M.Sanitize, M.Connect;
      if file.Written? {
        metaPeers := SanitizePeerList(file.lists.peers);
        metaIdle := SanitizePeerList(file.lists.idle);
      }
      peers := ConnectAll(metaPeers);
      if |metaPeers| == 0 && !superIdle {
        metaPeers := metaPeers + [id];
      }
      idlePeers := ConnectAll(metaIdle);
      if |metaIdle| == 0 && superIdle {
        metaIdle := metaIdle + [id];
      }
    }

    method ConnectAll(names: seq<string>) returns (r: map<string, M.Peer>)
      ensures r == M.Connect(id, names)
    {
      r := Connected(names, map[]);
    }

    /** A connection for every name that has none. */
    method Connected(names: seq<string>, m: map<string, M.Peer>) returns (r: map<string, M.Peer>)
      ensures r == map x | x in m.Keys + (M.Names(names) - {id}) :: if x in m then m[x] else M.Peer(x)
    {
      r := m;
      for i := 0 to |names|
        invariant r.Keys == m.Keys + (M.Names(names[..i]) - {id})
        invariant forall x | x in r :: r[x] == if x in m then m[x] else M.Peer(x)
      {
        var name := names[i];
        assert names[..i + 1] == names[..i] + [name];
        if name !in r {
          if name != id {
            r := r[name := M.Peer(name)];
          }
        }
      }
      assert names[..|names|] == names;
    }

    /** Drops the connections that are not marked. */
    method Pruned(m: map<string, M.Peer>, mark: set<string>) returns (r: map<string, M.Peer>)
      ensures r == map x | x in m.Keys * mark :: m[x]
    {
      r := m;
      var todo := m.Keys;
      while todo != {}
        invariant todo <= m.Keys
        invariant r.Keys == todo + m.Keys * mark
        invariant forall x | x in r :: r[x] == m[x]
        decreases |todo|
      {
        var name :| name in todo;
        if name !in mark {
          r := r - {name};
        }
        todo := todo - {name};
      }
    }

    /** Adds what is missing, then drops what is not marked. */
    method Refreshed(m: map<string, M.Peer>, names: seq<string>, mark: set<string>) returns (r: map<string, M.Peer>)
      requires M.Names(names) <= mark
      ensures r == M.Refresh(m, id, names, mark)
    {
      r := Connected(names, m);
      r := Pruned(r, mark);
    }

    method Save()
      modifies this`epoch, this`file
      ensures Book() == M.Save(old(Book()))
    {
      epoch := epoch + 1;
      file := M.Written(M.Lists(metaPeers, metaIdle));
    }

    method AddPeer(connStr: string)
      modifies this
      ensures Book() == M.AddPeer(old(Book()), connStr)
    {
      if connStr == "" {
        return;
      }
      if connStr in peers {
        return;
      }
      if connStr in idlePeers {
        return;
      }
      if id != connStr {
        peers := peers[connStr := M.Peer(connStr)];
        metaPeers := metaPeers + [connStr];
        Save();
      }
    }

    method AddIdlePeer(connStr: string)
      modifies this
      ensures Book() == M.AddIdlePeer(old(Book()), connStr)
    {
      if connStr == "" {
        return;
      }
      if connStr in peers {
        return;
      }
      if connStr in idlePeers {
        return;
      }
      if id != connStr {
        idlePeers := idlePeers[connStr := M.Peer(connStr)];
        metaIdle := metaIdle + [connStr];
        Save();
      }
    }

    method RemovePeer(connStr: string)
      modifies this
      ensures Book() == M.RemovePeer(old(Book()), connStr)
    {
      if connStr != id {
        if connStr !in peers {
          return;
        }
        peers := peers - {connStr};
        metaPeers := DropFirst(metaPeers, connStr);
        Save();
      }
    }

    method RemoveIdlePeer(connStr: string)
      modifies this
      ensures Book() == M.RemoveIdlePeer(old(Book()), connStr)
    {
      if connStr != id {
        if connStr !in idlePeers {
          return;
        }
        idlePeers := idlePeers - {connStr};
        metaIdle := DropFirst(metaIdle, connStr);
        Save();
      }
    }

    method UpdateEpoch(epochid: nat, names: seq<string>, idleNames: seq<string>)
      modifies this
      ensures Book() == M.UpdateEpoch(old(Book()), epochid, names, idleNames)
    {
      hide M.Refresh, M.Sanitize;
      var mark := M.Names(names);
      peers := Refreshed(peers, names, mark);
      metaPeers := SanitizePeerList(names);
      mark := mark + M.Names(idleNames);
      idlePeers := Refreshed(idlePeers, idleNames, mark);
      metaIdle := SanitizePeerList(idleNames);
      epoch := epochid;
      file := M.Written(M.Lists(metaPeers, metaIdle));
    }

    /** The part of the leader's broadcast that merges the maps in place. */
    method Broadcast() returns (allPeers: map<string, M.Peer>)
      modifies this`peers
      ensures Book() == M.Broadcast(old(Book())) && allPeers == peers
    {
      hide Merged;
      ghost var before := peers;
      MergedAll(before, idlePeers);
      var idle := idlePeers;
      var todo := idle.Keys;
      assert idle.Keys - todo == {};
      while todo != {}
        modifies this`peers
        invariant todo <= idle.Keys
        invariant peers == Merged(before, idle, idle.Keys - todo)
        decreases |todo|
      {
        var k :| k in todo;
        MergeOne(before, idle, idle.Keys - todo, k);
        peers := peers[k := idle[k]];
        assert idle.Keys - (todo - {k}) == idle.Keys - todo + {k};
        todo := todo - {k};
      }
      assert idle.Keys - {} == idle.Keys;
      return peers;
    }
  }

  ghost function Merged(m: map<string, M.Peer>, n: map<string, M.Peer>, keys: set<string>): map<string, M.Peer>
    requires keys <= n.Keys
  {
    map x | x in m.Keys + keys :: if x in keys then n[x] else m[x]
  }

  lemma MergeOne(m: map<string, M.Peer>, n: map<string, M.Peer>, keys: set<string>, k: string)
    requires keys <= n.Keys && k in n
    ensures Merged(m, n, keys + {k}) == Merged(m, n, keys)[k := n[k]]
  {
  }

  lemma MergedAll(m: map<string, M.Peer>, n: map<string, M.Peer>)
    ensures Merged(m, n, {}) == m && Merged(m, n, n.Keys) == m + n
  {
  }
}
