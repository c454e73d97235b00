/**
 * ConnectionManager (app/services/websocket.py): the registry of open
 * websocket connections and of the one connection each user was last given.
 *
 * A dict keeps its keys in insertion order and `broadcast` sends in that
 * order, so the registry keeps the connection ids in `ids`, oldest first,
 * beside the map `active` from id to socket. Sockets are opaque handles;
 * whether a send fails is an oracle parameter (the set of failing ids, or one
 * flag for a targeted send). A successful send is recorded in `sent`.
 */
module Hub {
  import opened Common

  /** An opaque handle for an accepted websocket. */
  type Socket = nat

  /** One text frame that reached a connection. */
  datatype Delivery = Delivery(conn: string, text: string)

  /** The ids of `xs` outside `gone`, in order (what is left after deleting them). */
  function Keep(xs: seq<string>, gone: set<string>): seq<string>
    decreases |xs|
  {
    if xs == [] then []
    else
      var x := xs[|xs| - 1];
      Keep(xs[..|xs| - 1], gone) + if x in gone then [] else [x]
  }

  /** The ids of `xs` inside `gone`, in order (the `disconnected` list). */
  function Among(xs: seq<string>, gone: set<string>): seq<string>
    decreases |xs|
  {
    if xs == [] then []
    else
      var x := xs[|xs| - 1];
      Among(xs[..|xs| - 1], gone) + if x in gone then [x] else []
  }

  /** The frames one pass over `xs` delivers when the ids in `failing` fail. */
  function Deliveries(xs: seq<string>, failing: set<string>, text: string): seq<Delivery>
    decreases |xs|
  {
    if xs == [] then []
    else
      var x := xs[|xs| - 1];
      Deliveries(xs[..|xs| - 1], failing, text) + if x in failing then [] else [Delivery(x, text)]
  }

  /** Deleting leaves exactly the ids outside `gone`, keeps their order and adds no duplicate. */
  lemma {:induction false} KeepRule(xs: seq<string>, gone: set<string>)
    ensures forall x :: x in Keep(xs, gone) <==> x in xs && x !in gone
    ensures |Keep(xs, gone)| <= |xs|
    ensures Unique(xs) ==> Unique(Keep(xs, gone))
    decreases |xs|
  {
    if xs != [] {
      var init, x := xs[..|xs| - 1], xs[|xs| - 1];
      assert xs == init + [x];
      KeepRule(init, gone);
      if Unique(xs) {
        UniquePrefix(xs);
        if x !in gone {
          UniqueAppend(Keep(init, gone), x);
        }
      }
    }
  }

  /** The collected failures are exactly the listed ids inside `gone`. */
  lemma {:induction false} AmongRule(xs: seq<string>, gone: set<string>)
    ensures forall x :: x in Among(xs, gone) <==> x in xs && x in gone
    decreases |xs|
  {
    if xs != [] {
      assert xs == xs[..|xs| - 1] + [xs[|xs| - 1]];
      AmongRule(xs[..|xs| - 1], gone);
    }
  }

  /** A pass delivers `text` once to every kept id, in order, and to nothing else. */
  lemma {:induction false} DeliveriesRule(xs: seq<string>, failing: set<string>, text: string)
    ensures |Deliveries(xs, failing, text)| == |Keep(xs, failing)|
    ensures forall i :: 0 <= i < |Keep(xs, failing)| ==>
      Deliveries(xs, failing, text)[i] == Delivery(Keep(xs, failing)[i], text)
    decreases |xs|
  {
    if xs != [] {
      DeliveriesRule(xs[..|xs| - 1], failing, text);
    }
  }

  /** Deleting ids one batch after another is deleting them all at once. */
  lemma {:induction false} KeepTwice(xs: seq<string>, a: set<string>, b: set<string>)
    ensures Keep(Keep(xs, a), b) == Keep(xs, a + b)
    decreases |xs|
  {
    if xs != [] {
      var init, x := xs[..|xs| - 1], xs[|xs| - 1];
      KeepTwice(init, a, b);
      if x in a {
        assert Keep(xs, a) == Keep(init, a);
        assert Keep(xs, a + b) == Keep(init, a + b);
      } else {
        var k := Keep(init, a) + [x];
        assert Keep(xs, a) == k;
        assert k[..|k| - 1] == Keep(init, a);
        assert Keep(k, b) == Keep(Keep(init, a), b) + if x in b then [] else [x];
        assert Keep(xs, a + b) == Keep(init, a + b) + if x in b then [] else [x];
      }
    }
  }

  /** Only the ids that occur in `xs` matter to what deleting leaves. */
  lemma {:induction false} KeepOnlyListed(xs: seq<string>, a: set<string>, b: set<string>)
    requires forall x :: x in xs ==> (x in a <==> x in b)
    ensures Keep(xs, a) == Keep(xs, b)
    decreases |xs|
  {
    if xs != [] {
      assert xs[|xs| - 1] in xs;
      KeepOnlyListed(xs[..|xs| - 1], a, b);
    }
  }

  /** Deleting an id that is not listed changes nothing. */
  lemma KeepAbsent(xs: seq<string>, c: string)
    requires c !in xs
    ensures Keep(xs, {c}) == xs
  {
    KeepOnlyListed(xs, {c}, {});
    KeepNothing(xs);
  }

  lemma {:induction false} KeepNothing(xs: seq<string>)
    ensures Keep(xs, {}) == xs
    decreases |xs|
  {
    if xs != [] {
      KeepNothing(xs[..|xs| - 1]);
      assert xs == xs[..|xs| - 1] + [xs[|xs| - 1]];
    }
  }

  class ConnectionManager {
    /** active_connections: connection id to socket. */
    var active: map<string, Socket>
    /** The keys of `active` in insertion order. */
    var ids: seq<string>
    /** user_connections: user id to the connection id last given to that user. */
    var userConn: map<string, string>
    /** Every frame that reached a socket, in order. */
    var sent: seq<Delivery>

    ghost predicate Valid()
      reads this
    {
      Unique(ids) && forall c :: c in ids <==> c in active
    }

    constructor ()
      ensures Valid()
      ensures active == map[] && ids == [] && userConn == map[] && sent == []
    {
      active, ids, userConn, sent := map[], [], map[], [];
    }

    /**
     * connect: registers the accepted socket under the fresh id `connId` (the
     * uuid, a parameter) and points the user at it. A connection the user held
     * before stays open; only the user's mapping moves.
     */
    method Connect(socket: Socket, user: string, connId: string) returns (r: string)
      requires Valid() && connId !in active
      modifies this
      ensures Valid()
      ensures r == connId
      ensures active == old(active)[connId := socket] && ids == old(ids) + [connId]
      ensures userConn == old(userConn)[user := connId] && sent == old(sent)
      ensures forall c :: c in old(active) ==> c in active && active[c] == old(active)[c]
    {
      UniqueAppend(ids, connId);
      active := active[connId := socket];
      ids := ids + [connId];
      userConn := userConn[user := connId];
      r := connId;
    }

    /**
     * disconnect: drops the connection and the user's mapping, each only if
     * present; calling it again changes nothing.
     */
    method Disconnect(connId: string, user: string)
      requires Valid()
      modifies this`active, this`ids, this`userConn
      ensures Valid()
      ensures active == old(active) - {connId} && ids == Keep(old(ids), {connId})
      ensures userConn == old(userConn) - {user}
      ensures connId !in active && user !in userConn
      ensures old(connId !in active && user !in userConn) ==>
        active == old(active) && ids == old(ids) && userConn == old(userConn)
    {
      Forget(connId);
      if user in userConn {
        userConn := userConn - {user};
      }
    }

    /** `del active_connections[c]` when present. */
    method Forget(c: string)
      requires Valid()
      modifies this`active, this`ids
      ensures Valid()
      ensures active == old(active) - {c} && ids == Keep(old(ids), {c})
      ensures c !in old(active) ==> ids == old(ids)
    {
      if c in active {
        KeepRule(ids, {c});
        active := active - {c};
        ids := Keep(ids, {c});
      } else {
        KeepAbsent(ids, c);
      }
    }

    /**
     * broadcast: sends `text` to every open connection in insertion order,
     * collects the ids whose send failed, then deletes exactly those. The user
     * mappings are left alone, so a user whose connection failed is left
     * pointing at a connection that no longer exists.
     */
    method Broadcast(text: string, failing: set<string>)
      requires Valid()
      modifies this`active, this`ids, this`sent
      ensures Valid()
      ensures active == old(active) - failing && ids == Keep(old(ids), failing)
      ensures sent == old(sent) + Deliveries(old(ids), failing, text)
      ensures userConn == old(userConn)
      ensures forall u :: u in userConn && userConn[u] in failing ==> userConn[u] !in active
    {
      var disconnected := SendAll(ids, text, failing);
      AmongRule(ids, failing);
      BroadcastDone(active, ids, failing, disconnected);
      Prune(disconnected);
    }

    /** The deleting pass of broadcast: drops each listed id that is still open. */
    method Prune(gone: seq<string>)
      requires Valid()
      modifies this`active, this`ids
      ensures Valid()
      ensures active == old(active) - Elems(gone) && ids == Keep(old(ids), Elems(gone))
    {
      KeepNothing(ids);
      ghost var done: set<string> := {};
      var j := 0;
      while j < |gone|
        invariant 0 <= j <= |gone| && done == Elems(gone[..j])
        invariant active == old(active) - done && ids == Keep(old(ids), done)
        invariant Valid()
      {
        assert gone[..j + 1][..j] == gone[..j];
        PruneOne(gone[j], done, old(active), old(ids));
        done := done + {gone[j]};
        j := j + 1;
      }
      assert gone[..j] == gone;
    }

    /** One step of the deleting pass: `c` joins the ids deleted so far. */
    method PruneOne(c: string, ghost done: set<string>, ghost a0: map<string, Socket>, ghost i0: seq<string>)
      requires Valid() && active == a0 - done && ids == Keep(i0, done)
      modifies this`active, this`ids
      ensures Valid() && active == a0 - (done + {c}) && ids == Keep(i0, done + {c})
    {
      KeepTwice(i0, done, {c});
      Forget(c);
    }

    /** The sending pass of broadcast: returns the ids whose send failed. */
    method SendAll(conns: seq<string>, text: string, failing: set<string>) returns (disconnected: seq<string>)
      modifies this`sent
      ensures disconnected == Among(conns, failing)
      ensures sent == old(sent) + Deliveries(conns, failing, text)
    {
      disconnected := [];
      var i := 0;
      while i < |conns|
        invariant 0 <= i <= |conns|
        invariant disconnected == Among(conns[..i], failing)
        invariant sent == old(sent) + Deliveries(conns[..i], failing, text)
      {
        var c := conns[i];
        assert conns[..i + 1][..i] == conns[..i];
        if c in failing {
          disconnected := disconnected + [c];
        } else {
          sent := sent + [Delivery(c, text)];
        }
        i := i + 1;
      }
      assert conns[..i] == conns;
    }

    /**
     * send_to_user: sends to the user's mapped connection when there is one
     * (and its id is not empty) and it is still open; a failed send
     * disconnects that connection and the user.
     */
    method SendToUser(user: string, text: string, fails: bool)
      requires Valid()
      modifies this`active, this`ids, this`userConn, this`sent
      ensures Valid()
      ensures !Reachable(old(userConn), old(active), user) ==>
        active == old(active) && ids == old(ids) && userConn == old(userConn) && sent == old(sent)
      ensures Reachable(old(userConn), old(active), user) && !fails ==>
        active == old(active) && ids == old(ids) && userConn == old(userConn) &&
        sent == old(sent) + [Delivery(old(userConn)[user], text)]
      ensures Reachable(old(userConn), old(active), user) && fails ==>
        active == old(active) - {old(userConn)[user]} && ids == Keep(old(ids), {old(userConn)[user]}) &&
        userConn == old(userConn) - {user} && sent == old(sent)
    {
      if Reachable(userConn, active, user) {
        var c := userConn[user];
        if fails {
          Disconnect(c, user);
        } else {
          sent := sent + [Delivery(c, text)];
        }
      }
    }
  }

  /** The user has a non-empty mapping to a connection that is still open. */
  predicate Reachable(userConn: map<string, string>, active: map<string, Socket>, user: string) {
    user in userConn && userConn[user] != "" && userConn[user] in active
  }

  /** The ids listed in `xs`, as a set. */
  ghost function Elems(xs: seq<string>): set<string>
    decreases |xs|
  {
    if xs == [] then {} else Elems(xs[..|xs| - 1]) + {xs[|xs| - 1]}
  }

  lemma {:induction false} ElemsRule(xs: seq<string>)
    ensures forall x :: x in Elems(xs) <==> x in xs
    decreases |xs|
  {
    if xs != [] {
      ElemsRule(xs[..|xs| - 1]);
      assert xs == xs[..|xs| - 1] + [xs[|xs| - 1]];
    }
  }

  /** After the deleting pass, what is left is exactly the non-failing part. */
  lemma BroadcastDone(a0: map<string, Socket>, i0: seq<string>, failing: set<string>, disconnected: seq<string>)
    requires Unique(i0) && forall c :: c in i0 <==> c in a0
    requires forall x :: x in disconnected <==> x in i0 && x in failing
    ensures a0 - Elems(disconnected) == a0 - failing
    ensures Keep(i0, Elems(disconnected)) == Keep(i0, failing)
  {
    ElemsRule(disconnected);
    KeepOnlyListed(i0, Elems(disconnected), failing);
  }
}
