/** Concrete runs of the relay, each on a fresh process, with the events every
    connection has been sent at the end. The engine's verdicts are the ones a
    standard Connect Four board gives: two pieces dropped in column 3 land in
    rows 0 and 1. Each step is one method that takes the process from one
    fully known state to the next. */
module Walkthrough {
  import opened Connect4
  import opened Events
  import opened App

  const M1: Move := Move(Player1, 3, 0)
  const M2: Move := Move(Player2, 3, 1)
  const P1: Event := Play(Player1, 3, 0)
  const P2: Event := Play(Player2, 3, 1)
  const Hi: Event := Init("J", "W")

  /** The process state is exactly the one given, and valid. */
  ghost predicate At(server: Server, join: map<Token, SessionId>, watch: map<Token, SessionId>, sessions: seq<Session>,
                     phase: map<ConnId, Phase>, outbox: map<ConnId, seq<Event>>)
    reads server
  {
    server.Valid() && server.join == join && server.watch == watch && server.sessions == sessions &&
    server.phase == phase && server.outbox == outbox
  }

  /** A fresh process; connection 1 starts a game and is given the tokens "J" and "W". */
  method Opened() returns (server: Server)
    ensures fresh(server)
    ensures At(server, map["J" := 0], map["W" := 0], [Session(NewGame, {1}, "J", "W")],
               map[1 := Hosting(0)], map[1 := [Hi]])
  {
    server := new Server();
    server.Handler(1, Hello(None, None), "J", "W");
    assert Inbox(map[], 1) + [Hi] == [Hi];
  }

  /** The creator plays column 3, and the engine puts the piece in row 0. */
  method HostPlays(server: Server)
    requires At(server, map["J" := 0], map["W" := 0], [Session(NewGame, {1}, "J", "W")],
                map[1 := Hosting(0)], map[1 := [Hi]])
    modifies server
    ensures At(server, map["J" := 0], map["W" := 0], [Session(Game([M1], false), {1}, "J", "W")],
               map[1 := Hosting(0)], map[1 := [Hi, P1]])
  {
    server.HandleMove(1, 3, Accepted(0, false));
    assert Apply(NewGame, Player1, 3, Accepted(0, false)) == Game([M1], false);
    FirstMoveDelivered();
  }

  /** The broadcast of the first move reaches the creator, the only member. */
  lemma FirstMoveDelivered()
    ensures Delivered(map[1 := [Hi]], {1}, P1) == map[1 := [Hi, P1]]
  {
    var r := Delivered(map[1 := [Hi]], {1}, P1);
    assert r.Keys == {1} && r[1] == [Hi, P1];
  }

  /** Connection 2 joins with "J" and is sent the one move so far. */
  method GuestJoins(server: Server)
    requires At(server, map["J" := 0], map["W" := 0], [Session(Game([M1], false), {1}, "J", "W")],
                map[1 := Hosting(0)], map[1 := [Hi, P1]])
    modifies server
    ensures At(server, map["J" := 0], map["W" := 0], [Session(Game([M1], false), {1, 2}, "J", "W")],
               map[1 := Hosting(0), 2 := Guest(0)], map[1 := [Hi, P1], 2 := [P1]])
  {
    server.Handler(2, Hello(Some("J"), None), "", "");
    assert ReplayEvents([M1]) == [P1];
    assert {1} + {2} == {1, 2};
    assert Inbox(map[1 := [Hi, P1]], 2) + [P1] == [P1];
  }

  /** The second player plays column 3, and the engine puts the piece in row 1. */
  method GuestPlays(server: Server)
    requires At(server, map["J" := 0], map["W" := 0], [Session(Game([M1], false), {1, 2}, "J", "W")],
                map[1 := Hosting(0), 2 := Guest(0)], map[1 := [Hi, P1], 2 := [P1]])
    modifies server
    ensures At(server, map["J" := 0], map["W" := 0], [Session(Game([M1, M2], false), {1, 2}, "J", "W")],
               map[1 := Hosting(0), 2 := Guest(0)], map[1 := [Hi, P1, P2], 2 := [P1, P2]])
  {
    server.HandleMove(2, 3, Accepted(1, false));
    assert Apply(Game([M1], false), Player2, 3, Accepted(1, false)) == Game([M1, M2], false);
    SecondMoveDelivered();
  }

  /** The broadcast of the second move reaches both players. */
  lemma SecondMoveDelivered()
    ensures Delivered(map[1 := [Hi, P1], 2 := [P1]], {1, 2}, P2) == map[1 := [Hi, P1, P2], 2 := [P1, P2]]
  {
    var box := map[1 := [Hi, P1], 2 := [P1]];
    var r := Delivered(box, {1, 2}, P2);
    assert Inbox(r, 1) == [Hi, P1, P2] by {
      assert Inbox(box, 1) + [P2] == [Hi, P1, P2];
    }
    assert Inbox(r, 2) == [P1, P2] by {
      assert Inbox(box, 2) + [P2] == [P1, P2];
    }
    assert r.Keys == {1, 2};
  }

  /** Connection 3 watches with "W" and is sent both moves, in order. */
  method SpectatorWatches(server: Server)
    requires At(server, map["J" := 0], map["W" := 0], [Session(Game([M1, M2], false), {1, 2}, "J", "W")],
                map[1 := Hosting(0), 2 := Guest(0)], map[1 := [Hi, P1, P2], 2 := [P1, P2]])
    modifies server
    ensures At(server, map["J" := 0], map["W" := 0], [Session(Game([M1, M2], false), {1, 2, 3}, "J", "W")],
               map[1 := Hosting(0), 2 := Guest(0), 3 := Watching(0)],
               map[1 := [Hi, P1, P2], 2 := [P1, P2], 3 := [P1, P2]])
  {
    server.Handler(3, Hello(None, Some("W")), "", "");
    assert ReplayEvents([M1, M2]) == [P1, P2];
    assert {1, 2} + {3} == {1, 2, 3};
    assert Inbox(map[1 := [Hi, P1, P2], 2 := [P1, P2]], 3) + [P1, P2] == [P1, P2];
  }

  /** A new connection `c` presents `token` as a join key, and `token` is not a
      join key: it is sent "game not found" and nothing else changes. */
  method TurnedAway(server: Server, c: ConnId, token: Token)
    requires server.Valid() && c !in server.phase && token !in server.join
    modifies server
    ensures server.Valid()
    ensures server.join == old(server.join) && server.watch == old(server.watch)
    ensures server.sessions == old(server.sessions)
    ensures server.phase == old(server.phase)[c := Finished]
    ensures server.outbox == old(server.outbox)[c := [Error(NotFound)]]
  {
    server.Handler(c, Hello(Some(token), None), "", "");
    assert c !in old(server.outbox);
    assert Inbox(old(server.outbox), c) + [Error(NotFound)] == [Error(NotFound)];
  }

  /** Connection 4 joins with an unknown token, and connection 5 joins with the
      watch token: neither is attached, both are sent "game not found". */
  method StrangersTurnedAway(server: Server)
    requires At(server, map["J" := 0], map["W" := 0], [Session(Game([M1, M2], false), {1, 2, 3}, "J", "W")],
                map[1 := Hosting(0), 2 := Guest(0), 3 := Watching(0)],
                map[1 := [Hi, P1, P2], 2 := [P1, P2], 3 := [P1, P2]])
    modifies server
    ensures At(server, map["J" := 0], map["W" := 0], [Session(Game([M1, M2], false), {1, 2, 3}, "J", "W")],
               map[1 := Hosting(0), 2 := Guest(0), 3 := Watching(0), 4 := Finished, 5 := Finished],
               map[1 := [Hi, P1, P2], 2 := [P1, P2], 3 := [P1, P2], 4 := [Error(NotFound)], 5 := [Error(NotFound)]])
    ensures Inbox(server.outbox, 1) == [Hi, P1, P2] && Inbox(server.outbox, 2) == [P1, P2]
    ensures Inbox(server.outbox, 3) == [P1, P2]
    ensures Inbox(server.outbox, 4) == [Error(NotFound)] && Inbox(server.outbox, 5) == [Error(NotFound)]
  {
    TurnedAway(server, 4, "garbage");
    TurnedAway(server, 5, "W");
  }

  /** A first player starts a game and plays column 3; a second player joins
      with the join token, is sent the one move so far, and plays column 3; a
      spectator watches with the watch token and is sent both moves in order.
      A join with an unknown token, and a join with the watch token, are both
      answered "game not found" and attach nobody. */
  method TwoPlayersAndASpectator()
    returns (host: seq<Event>, guest: seq<Event>, spectator: seq<Event>, stranger: seq<Event>, crossed: seq<Event>)
    ensures host == [Init("J", "W"), Play(Player1, 3, 0), Play(Player2, 3, 1)]
    ensures guest == [Play(Player1, 3, 0), Play(Player2, 3, 1)]
    ensures spectator == [Play(Player1, 3, 0), Play(Player2, 3, 1)]
    ensures stranger == [Error(NotFound)]
    ensures crossed == [Error(NotFound)]
  {
    var server := Opened();
    HostPlays(server);
    GuestJoins(server);
    GuestPlays(server);
    SpectatorWatches(server);
    StrangersTurnedAway(server);
    host, guest, spectator := Inbox(server.outbox, 1), Inbox(server.outbox, 2), Inbox(server.outbox, 3);
    stranger, crossed := Inbox(server.outbox, 4), Inbox(server.outbox, 5);
  }

  /** Connection 2 joins with "J" before any move: the replay it is sent is empty. */
  method EarlyGuestJoins(server: Server)
    requires At(server, map["J" := 0], map["W" := 0], [Session(NewGame, {1}, "J", "W")],
                map[1 := Hosting(0)], map[1 := [Hi]])
    modifies server
    ensures At(server, map["J" := 0], map["W" := 0], [Session(NewGame, {1, 2}, "J", "W")],
               map[1 := Hosting(0), 2 := Guest(0)], map[1 := [Hi]])
  {
    server.Handler(2, Hello(Some("J"), None), "", "");
    assert ReplayEvents([]) == [];
    assert {1} + {2} == {1, 2};
  }

  /** The engine rejects the creator's move with `reason`: only the creator hears
      of it. */
  method HostRejected(server: Server, reason: string)
    requires At(server, map["J" := 0], map["W" := 0], [Session(NewGame, {1, 2}, "J", "W")],
                map[1 := Hosting(0), 2 := Guest(0)], map[1 := [Hi]])
    modifies server
    ensures At(server, map["J" := 0], map["W" := 0], [Session(NewGame, {1, 2}, "J", "W")],
               map[1 := Hosting(0), 2 := Guest(0)], map[1 := [Hi, Error(reason)]])
  {
    server.HandleMove(1, 3, Rejected(reason));
    assert Inbox(map[1 := [Hi]], 1) + [Error(reason)] == [Hi, Error(reason)];
  }

  /** The creator's connection closes: both tokens are deleted while the second
      player stays attached. */
  method HostLeaves(server: Server, reason: string)
    requires At(server, map["J" := 0], map["W" := 0], [Session(NewGame, {1, 2}, "J", "W")],
                map[1 := Hosting(0), 2 := Guest(0)], map[1 := [Hi, Error(reason)]])
    modifies server
    ensures At(server, map[], map[], [Session(NewGame, {2}, "J", "W")],
               map[1 := Finished, 2 := Guest(0)], map[1 := [Hi, Error(reason)]])
  {
    server.Close(1);
    assert {1, 2} - {1} == {2};
    assert map["J" := 0] - {"J"} == map[];
    assert map["W" := 0] - {"W"} == map[];
  }

  /** After the creator left, connection 3 joins with "J" and connection 4
      watches with "W": both are sent "game not found". */
  method LateComersTurnedAway(server: Server, reason: string)
    requires At(server, map[], map[], [Session(NewGame, {2}, "J", "W")],
                map[1 := Finished, 2 := Guest(0)], map[1 := [Hi, Error(reason)]])
    modifies server
    ensures server.Valid()
    ensures Inbox(server.outbox, 1) == [Hi, Error(reason)] && Inbox(server.outbox, 2) == []
    ensures Inbox(server.outbox, 3) == [Error(NotFound)] && Inbox(server.outbox, 4) == [Error(NotFound)]
    ensures 2 in server.phase && server.phase[2] == Guest(0)
  {
    TurnedAway(server, 3, "J");
    ghost var box := server.outbox;
    server.Handler(4, Hello(None, Some("W")), "", "");
    assert Inbox(box, 4) + [Error(NotFound)] == [Error(NotFound)];
  }

  /** A rejected move is answered to its sender only. When the creator then
      leaves, both tokens stop resolving, although the second player is still
      attached and in its move loop: a later join and a later watch are
      answered "game not found". */
  method CreatorLeaves(reason: string)
    returns (host: seq<Event>, guest: seq<Event>, lateJoiner: seq<Event>, lateWatcher: seq<Event>, stillPlaying: bool)
    ensures host == [Init("J", "W"), Error(reason)]
    ensures guest == []
    ensures lateJoiner == [Error(NotFound)]
    ensures lateWatcher == [Error(NotFound)]
    ensures stillPlaying
  {
    var server := Opened();
    EarlyGuestJoins(server);
    HostRejected(server, reason);
    HostLeaves(server, reason);
    LateComersTurnedAway(server, reason);
    host, guest := Inbox(server.outbox, 1), Inbox(server.outbox, 2);
    lateJoiner, lateWatcher := Inbox(server.outbox, 3), Inbox(server.outbox, 4);
    stillPlaying := 2 in server.phase && server.phase[2].InMoveLoop();
  }
}
