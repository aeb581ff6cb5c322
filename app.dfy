/** The relay's session registry and connection handlers.

    One `Server` object stands for the process: the module-level `JOIN` and `WATCH`
    dictionaries, every session created so far (a game engine together with its
    `connected` set and the two tokens it was registered under), where each
    connection's handler currently is, and, in place of `websocket.send`, the
    sequence of events sent to each connection so far. Every handler step (the
    first message, one message of the move loop, the closing of a connection) is
    one method, run atomically. */
module App {
  import opened Connect4
  import opened Events

  type ConnId = nat
  type SessionId = nat

  /** The `(game, connected)` pair `start` creates, with the tokens it registered
      the pair under. */
  datatype Session = Session(game: Game, connected: set<ConnId>, joinKey: Token, watchKey: Token)

  /** Where a connection's handler is: the creator's move loop inside `start`, the
      second player's move loop inside `join`, a spectator waiting inside `watch`,
      or returned. */
  datatype Phase = Hosting(sid: SessionId) | Guest(sid: SessionId) | Watching(sid: SessionId) | Finished
  {
    /** The handler is attached to a session's `connected` set. */
    predicate Attached() { !Finished? }

    /** The handler is reading moves in `play`. */
    predicate InMoveLoop() { Hosting? || Guest? }

    /** The player `play` was called with. */
    function Role(): Player
      requires InMoveLoop()
    {
      if Hosting? then Player1 else Player2
    }
  }

  /** Everything sent to connection `c` so far. */
  function Inbox(box: map<ConnId, seq<Event>>, c: ConnId): seq<Event>
  {
    if c in box then box[c] else []
  }

  /** One `send` of event `e` to connection `c`: `c` receives `e` after what it
      already had, nobody else receives anything. */
  function Post(box: map<ConnId, seq<Event>>, c: ConnId, e: Event): (r: map<ConnId, seq<Event>>)
    ensures Inbox(r, c) == Inbox(box, c) + [e]
    ensures forall d {:trigger Inbox(r, d)} :: d != c ==> Inbox(r, d) == Inbox(box, d)
    ensures r.Keys == box.Keys + {c}
  {
    box[c := Inbox(box, c) + [e]]
  }

  /** Several sends of `es` to connection `c`, in order: `c` receives exactly `es`
      after what it already had, nobody else receives anything. */
  function SendAll(box: map<ConnId, seq<Event>>, c: ConnId, es: seq<Event>): (r: map<ConnId, seq<Event>>)
    ensures Inbox(r, c) == Inbox(box, c) + es
    ensures forall d {:trigger Inbox(r, d)} :: d != c ==> Inbox(r, d) == Inbox(box, d)
    ensures r.Keys <= box.Keys + {c}
  {
    if es == [] then box else box[c := Inbox(box, c) + es]
  }

  /** Sending the events one after the other is the same as sending them all. */
  lemma SendAllSnoc(box: map<ConnId, seq<Event>>, c: ConnId, es: seq<Event>, e: Event)
    ensures Post(SendAll(box, c, es), c, e) == SendAll(box, c, es + [e])
  {
    if es == [] {
      assert es + [e] == [e];
    } else {
      assert Inbox(box, c) + es + [e] == Inbox(box, c) + (es + [e]);
    }
  }

  /** `broadcast` of event `e` to the set `targets`: every member receives `e`
      exactly once, after what it already had, and every other connection
      receives nothing. */
  function Delivered(box: map<ConnId, seq<Event>>, targets: set<ConnId>, e: Event): (r: map<ConnId, seq<Event>>)
    ensures forall d {:trigger Inbox(r, d)} :: Inbox(r, d) == if d in targets then Inbox(box, d) + [e] else Inbox(box, d)
    ensures r.Keys == box.Keys + targets
  {
    map d | d in box.Keys + targets :: if d in targets then Inbox(box, d) + [e] else box[d]
  }

  /** Delivering to one more target, in any order, is one more `send`. */
  lemma DeliverOneMore(box: map<ConnId, seq<Event>>, done: set<ConnId>, c: ConnId, e: Event)
    requires c !in done
    ensures Post(Delivered(box, done, e), c, e) == Delivered(box, done + {c}, e)
  {
    var l, r := Post(Delivered(box, done, e), c, e), Delivered(box, done + {c}, e);
    assert l.Keys == r.Keys;
    forall d | d in l.Keys ensures l[d] == r[d] {
      assert Inbox(l, d) == Inbox(r, d);
    }
  }

  /** Session `sid` is reachable in `JOIN` under its join token. */
  ghost predicate JoinListed(join: map<Token, SessionId>, sessions: seq<Session>, sid: SessionId)
    requires sid < |sessions|
  {
    sessions[sid].joinKey in join && join[sessions[sid].joinKey] == sid
  }

  /** Session `sid` is reachable in `WATCH` under its watch token. */
  ghost predicate WatchListed(watch: map<Token, SessionId>, sessions: seq<Session>, sid: SessionId)
    requires sid < |sessions|
  {
    sessions[sid].watchKey in watch && watch[sessions[sid].watchKey] == sid
  }

  /** Every token leads to the session registered under it, and every session
      is reachable under both of its tokens or under neither. */
  ghost predicate RegistryValid(join: map<Token, SessionId>, watch: map<Token, SessionId>, sessions: seq<Session>)
  {
    (forall t :: t in join ==> join[t] < |sessions| && sessions[join[t]].joinKey == t) &&
    (forall t :: t in watch ==> watch[t] < |sessions| && sessions[watch[t]].watchKey == t) &&
    (forall sid :: 0 <= sid < |sessions| ==> (JoinListed(join, sessions, sid) <==> WatchListed(watch, sessions, sid)))
  }

  /** A connection is in a session's `connected` set exactly while its handler
      is attached to that session; a creator still in its move loop has its
      session registered, and each session has at most one creator; only
      connections that have been handled have been sent anything. */
  ghost predicate MembershipValid(join: map<Token, SessionId>, sessions: seq<Session>,
                                  phase: map<ConnId, Phase>, outbox: map<ConnId, seq<Event>>)
  {
    (forall c :: c in phase && phase[c].Attached() ==> phase[c].sid < |sessions|) &&
    (forall c :: Seated(join, sessions, phase, c)) &&
    (forall sid, c :: Enrolled(sessions, phase, sid, c)) &&
    (forall c, d :: SoleHost(phase, c, d)) &&
    outbox.Keys <= phase.Keys
  }

  /** Connection `c`, if attached, is in its session's `connected` set, and, if
      it created the session and is still in its move loop, the session is
      registered. */
  ghost predicate Seated(join: map<Token, SessionId>, sessions: seq<Session>, phase: map<ConnId, Phase>, c: ConnId)
  {
    c in phase && phase[c].Attached() && phase[c].sid < |sessions| ==>
      c in sessions[phase[c].sid].connected &&
      (phase[c].Hosting? ==> JoinListed(join, sessions, phase[c].sid))
  }

  /** A member of session `sid`'s `connected` set is attached to `sid`. */
  ghost predicate Enrolled(sessions: seq<Session>, phase: map<ConnId, Phase>, sid: SessionId, c: ConnId)
  {
    sid < |sessions| && c in sessions[sid].connected ==> c in phase && phase[c].Attached() && phase[c].sid == sid
  }

  /** Two creators in their move loops are not attached to the same session. */
  ghost predicate SoleHost(phase: map<ConnId, Phase>, c: ConnId, d: ConnId)
  {
    c in phase && d in phase && phase[c].Hosting? && phase[d].Hosting? && phase[c].sid == phase[d].sid ==> c == d
  }

  /** Every attached connection has been sent, among its other events, exactly
      one `play` event per move of its session's history, in history order:
      whether it saw the moves live or in a replay. */
  ghost predicate HistoryValid(sessions: seq<Session>, phase: map<ConnId, Phase>, outbox: map<ConnId, seq<Event>>)
  {
    forall c :: InSync(sessions, phase, outbox, c)
  }

  /** Connection `c`, if attached, has been sent its session's history. */
  ghost predicate InSync(sessions: seq<Session>, phase: map<ConnId, Phase>, outbox: map<ConnId, seq<Event>>, c: ConnId)
  {
    c in phase && phase[c].Attached() && phase[c].sid < |sessions| ==>
      Plays(Inbox(outbox, c)) == ReplayEvents(sessions[phase[c].sid].game.moves)
  }

  /** Replacing a session by one with the same tokens keeps the registry valid
      and changes no session's registration. */
  lemma RegistryAfterUpdate(join: map<Token, SessionId>, watch: map<Token, SessionId>, sessions: seq<Session>,
                            sid: SessionId, s: Session)
    requires RegistryValid(join, watch, sessions) && sid < |sessions|
    requires s.joinKey == sessions[sid].joinKey && s.watchKey == sessions[sid].watchKey
    ensures RegistryValid(join, watch, sessions[sid := s])
    ensures forall t :: 0 <= t < |sessions| ==>
              JoinListed(join, sessions[sid := s], t) == JoinListed(join, sessions, t)
  {
    var sessions' := sessions[sid := s];
    forall t | 0 <= t < |sessions|
      ensures sessions'[t].joinKey == sessions[t].joinKey && sessions'[t].watchKey == sessions[t].watchKey
      ensures JoinListed(join, sessions', t) == JoinListed(join, sessions, t)
      ensures WatchListed(watch, sessions', t) == WatchListed(watch, sessions, t)
    {
    }
  }

  /** Registering a new session under two new tokens keeps the registry valid,
      registers the new session, and changes no other session's registration. */
  lemma RegistryAfterStart(join: map<Token, SessionId>, watch: map<Token, SessionId>, sessions: seq<Session>, s: Session)
    requires RegistryValid(join, watch, sessions)
    requires s.joinKey !in join && s.watchKey !in watch
    ensures var sid := |sessions|;
            RegistryValid(join[s.joinKey := sid], watch[s.watchKey := sid], sessions + [s]) &&
            JoinListed(join[s.joinKey := sid], sessions + [s], sid)
    ensures forall t :: 0 <= t < |sessions| ==>
              JoinListed(join[s.joinKey := |sessions|], sessions + [s], t) == JoinListed(join, sessions, t)
  {
    var sid := |sessions|;
    var join', watch', sessions' := join[s.joinKey := sid], watch[s.watchKey := sid], sessions + [s];
    forall t | 0 <= t < sid
      ensures JoinListed(join', sessions', t) == JoinListed(join, sessions, t)
      ensures WatchListed(watch', sessions', t) == WatchListed(watch, sessions, t)
    {
      assert sessions'[t] == sessions[t];
    }
    assert JoinListed(join', sessions', sid) && WatchListed(watch', sessions', sid);
  }

  /** Deleting both tokens of a registered session keeps the registry valid,
      unregisters that session, and changes no other session's registration. */
  lemma RegistryAfterDelete(join: map<Token, SessionId>, watch: map<Token, SessionId>, sessions: seq<Session>, sid: SessionId)
    requires RegistryValid(join, watch, sessions) && sid < |sessions| && JoinListed(join, sessions, sid)
    ensures var s := sessions[sid];
            RegistryValid(join - {s.joinKey}, watch - {s.watchKey}, sessions) &&
            !JoinListed(join - {s.joinKey}, sessions, sid) &&
            forall t :: 0 <= t < |sessions| && t != sid ==>
              JoinListed(join - {s.joinKey}, sessions, t) == JoinListed(join, sessions, t)
  {
    var s := sessions[sid];
    var join', watch' := join - {s.joinKey}, watch - {s.watchKey};
    assert WatchListed(watch, sessions, sid);
    forall t | 0 <= t < |sessions| && t != sid
      ensures JoinListed(join', sessions, t) == JoinListed(join, sessions, t)
      ensures WatchListed(watch', sessions, t) == WatchListed(watch, sessions, t)
    {
    }
  }

  /** What one message of the move loop sends, to whom: a rejected move sends the
      engine's message to the sender `c` and nobody else; an accepted move sends
      every member of `connected` the `play` event with the engine's row, then,
      if and only if the move won, the `win` event, and sends nobody else
      anything. */
  function Announce(box: map<ConnId, seq<Event>>, c: ConnId, connected: set<ConnId>,
                    player: Player, column: int, v: Verdict): (r: map<ConnId, seq<Event>>)
    ensures r.Keys <= box.Keys + connected + {c}
    ensures forall d {:trigger Inbox(r, d)} :: Inbox(r, d) == Inbox(box, d) +
              match v
              case Rejected(message) => if d == c then [Error(message)] else []
              case Accepted(row, won) =>
                if d in connected then [Play(player, column, row)] + (if won then [Win(player)] else []) else []
  {
    match v
    case Rejected(message) => Post(box, c, Error(message))
    case Accepted(row, won) =>
      var played := Delivered(box, connected, Play(player, column, row));
      if won then Delivered(played, connected, Win(player)) else played
  }


  /** After a move, every attached connection still matches its session's
      history: the members of the session that played were sent exactly the one
      `play` event the engine appended, everybody else nothing that counts. */
  lemma HistoryAfterMove(join: map<Token, SessionId>, sessions: seq<Session>, phase: map<ConnId, Phase>,
                         outbox: map<ConnId, seq<Event>>, c: ConnId, column: int, v: Verdict)
    requires HistoryValid(sessions, phase, outbox) && MembershipValid(join, sessions, phase, outbox)
    requires c in phase && phase[c].InMoveLoop() && phase[c].sid < |sessions|
    ensures var sid := phase[c].sid;
            var s := sessions[sid];
            var player := phase[c].Role();
            HistoryValid(sessions[sid := s.(game := Apply(s.game, player, column, v))], phase,
                         Announce(outbox, c, s.connected, player, column, v))
  {
    var sid := phase[c].sid;
    var s := sessions[sid];
    var player := phase[c].Role();
    var sessions', outbox' := sessions[sid := s.(game := Apply(s.game, player, column, v))],
                              Announce(outbox, c, s.connected, player, column, v);
    forall d ensures InSync(sessions', phase, outbox', d) {
      assert InSync(sessions, phase, outbox, d) && Seated(join, sessions, phase, d) && Enrolled(sessions, phase, sid, d);
      InSyncAfterMove(join, sessions, phase, outbox, c, column, v, d);
    }
  }

  /** One connection `d` after a move: see `HistoryAfterMove`. */
  lemma InSyncAfterMove(join: map<Token, SessionId>, sessions: seq<Session>, phase: map<ConnId, Phase>,
                        outbox: map<ConnId, seq<Event>>, c: ConnId, column: int, v: Verdict, d: ConnId)
    requires c in phase && phase[c].InMoveLoop() && phase[c].sid < |sessions|
    requires InSync(sessions, phase, outbox, d) && Seated(join, sessions, phase, d)
    requires Enrolled(sessions, phase, phase[c].sid, d)
    ensures var sid := phase[c].sid;
            var s := sessions[sid];
            var player := phase[c].Role();
            InSync(sessions[sid := s.(game := Apply(s.game, player, column, v))], phase,
                   Announce(outbox, c, s.connected, player, column, v), d)
  {
    var sid := phase[c].sid;
    var s := sessions[sid];
    var player := phase[c].Role();
    var sessions', outbox' := sessions[sid := s.(game := Apply(s.game, player, column, v))],
                              Announce(outbox, c, s.connected, player, column, v);
    if d in phase && phase[d].Attached() && phase[d].sid < |sessions| {
      var t := phase[d].sid;
      var before := Inbox(outbox, d);
      assert Plays(before) == ReplayEvents(sessions[t].game.moves);
      match v {
        case Rejected(message) =>
          assert sessions'[t].game == sessions[t].game;
          if d == c {
            assert Inbox(outbox', d) == before + [Error(message)];
            PlaysAppend(before, [Error(message)]);
          } else {
            assert Inbox(outbox', d) == before;
          }
        case Accepted(row, won) =>
          if t == sid {
            var m := Move(player, column, row);
            assert Inbox(outbox', d) == before + ([PlayOf(m)] + (if won then [Win(player)] else []));
            assert sessions'[t].game.moves == s.game.moves + [m];
            PlaysAfterMove(before, s.game.moves, m, won);
          } else {
            assert Inbox(outbox', d) == before;
            assert sessions'[t] == sessions[t];
          }
      }
    }
  }

  /** Changing a session's engine, and sending only to handled connections,
      keeps every connection's membership right. */
  lemma MembershipAfterGameUpdate(join: map<Token, SessionId>, sessions: seq<Session>, phase: map<ConnId, Phase>,
                                  outbox: map<ConnId, seq<Event>>, outbox': map<ConnId, seq<Event>>,
                                  sid: SessionId, s: Session)
    requires MembershipValid(join, sessions, phase, outbox) && sid < |sessions|
    requires s.connected == sessions[sid].connected && s.joinKey == sessions[sid].joinKey
    requires outbox'.Keys <= phase.Keys
    ensures MembershipValid(join, sessions[sid := s], phase, outbox')
  {
    var sessions' := sessions[sid := s];
    forall d: ConnId ensures Seated(join, sessions', phase, d) {
      assert Seated(join, sessions, phase, d);
      if d in phase && phase[d].Attached() {
        var t := phase[d].sid;
        assert sessions'[t].connected == sessions[t].connected && sessions'[t].joinKey == sessions[t].joinKey;
      }
    }
    forall t: SessionId, d: ConnId ensures Enrolled(sessions', phase, t, d) {
      assert Enrolled(sessions, phase, t, d);
      if t < |sessions| {
        assert sessions'[t].connected == sessions[t].connected;
      }
    }
  }

  /** One message of the move loop keeps the invariant. */
  lemma MoveKeepsValid(join: map<Token, SessionId>, watch: map<Token, SessionId>, sessions: seq<Session>,
                       phase: map<ConnId, Phase>, outbox: map<ConnId, seq<Event>>,
                       c: ConnId, column: int, v: Verdict)
    requires StateValid(join, watch, sessions, phase, outbox)
    requires c in phase && phase[c].InMoveLoop()
    ensures var sid := phase[c].sid;
            var s := sessions[sid];
            var player := phase[c].Role();
            StateValid(join, watch, sessions[sid := s.(game := Apply(s.game, player, column, v))], phase,
                       Announce(outbox, c, s.connected, player, column, v))
  {
    var sid := phase[c].sid;
    var s := sessions[sid];
    var player := phase[c].Role();
    var s' := s.(game := Apply(s.game, player, column, v));
    var sessions', outbox' := sessions[sid := s'], Announce(outbox, c, s.connected, player, column, v);
    forall d | d in s.connected ensures d in phase {
      assert Enrolled(sessions, phase, sid, d);
    }
    assert MembershipValid(join, sessions', phase, outbox') by {
      MembershipAfterGameUpdate(join, sessions, phase, outbox, outbox', sid, s');
    }
    assert HistoryValid(sessions', phase, outbox') by {
      HistoryAfterMove(join, sessions, phase, outbox, c, column, v);
    }
    assert RegistryValid(join, watch, sessions') by {
      RegistryAfterUpdate(join, watch, sessions, sid, s');
    }
  }

  /** The invariant of the whole process state. */
  ghost predicate StateValid(join: map<Token, SessionId>, watch: map<Token, SessionId>, sessions: seq<Session>,
                             phase: map<ConnId, Phase>, outbox: map<ConnId, seq<Event>>)
  {
    RegistryValid(join, watch, sessions) &&
    MembershipValid(join, sessions, phase, outbox) &&
    HistoryValid(sessions, phase, outbox)
  }

  /** Closing an attached connection keeps every connection's membership right. */
  lemma MembershipAfterClose(join: map<Token, SessionId>, join': map<Token, SessionId>, sessions: seq<Session>,
                             phase: map<ConnId, Phase>, outbox: map<ConnId, seq<Event>>, c: ConnId)
    requires MembershipValid(join, sessions, phase, outbox)
    requires c in phase && phase[c].Attached()
    requires forall t :: 0 <= t < |sessions| && JoinListed(join, sessions, t) && !JoinListed(join', sessions, t) ==>
               phase[c].Hosting? && t == phase[c].sid
    ensures var s := sessions[phase[c].sid];
            MembershipValid(join', sessions[phase[c].sid := s.(connected := s.connected - {c})],
                            phase[c := Finished], outbox)
  {
    var sid := phase[c].sid;
    var s := sessions[sid];
    var sessions', phase' := sessions[sid := s.(connected := s.connected - {c})], phase[c := Finished];
    forall d: ConnId ensures Seated(join', sessions', phase', d) {
      assert Seated(join, sessions, phase, d);
      if d in phase' && phase'[d].Attached() {
        var t := phase[d].sid;
        assert d != c && phase'[d] == phase[d];
        assert sessions'[t].joinKey == sessions[t].joinKey;
        assert d in sessions[t].connected;
        if phase[d].Hosting? {
          assert SoleHost(phase, c, d);
        }
      }
    }
    forall t: SessionId, d: ConnId ensures Enrolled(sessions', phase', t, d) {
      assert Enrolled(sessions, phase, t, d);
      if t < |sessions'| && d in sessions'[t].connected {
        assert d in sessions[t].connected;
      }
    }
    forall d: ConnId, e: ConnId ensures SoleHost(phase', d, e) {
      assert SoleHost(phase, d, e);
    }
  }

  /** Registering a new session for a new connection `c`, which becomes its
      creator, keeps every connection's membership right. */
  lemma MembershipAfterStart(join: map<Token, SessionId>, sessions: seq<Session>, phase: map<ConnId, Phase>,
                             outbox: map<ConnId, seq<Event>>, c: ConnId, joinKey: Token, watchKey: Token)
    requires MembershipValid(join, sessions, phase, outbox) && c !in phase && joinKey !in join
    ensures var sid := |sessions|;
            MembershipValid(join[joinKey := sid], sessions + [Session(NewGame, {c}, joinKey, watchKey)],
                            phase[c := Hosting(sid)], Post(outbox, c, Init(joinKey, watchKey)))
  {
    var sid := |sessions|;
    var join', sessions', phase' := join[joinKey := sid], sessions + [Session(NewGame, {c}, joinKey, watchKey)],
                                    phase[c := Hosting(sid)];
    assert forall t :: 0 <= t < sid ==> sessions'[t] == sessions[t];
    assert JoinListed(join', sessions', sid);
    forall d: ConnId ensures Seated(join', sessions', phase', d) {
      if d != c && d in phase && phase[d].Attached() {
        assert Seated(join, sessions, phase, d);
        var t := phase[d].sid;
        if phase[d].Hosting? {
          assert sessions'[t].joinKey == sessions[t].joinKey != joinKey;
        }
      }
    }
    forall t: SessionId, d: ConnId ensures Enrolled(sessions', phase', t, d) {
      if t < sid {
        assert Enrolled(sessions, phase, t, d);
      }
    }
    forall d: ConnId, e: ConnId ensures SoleHost(phase', d, e) {
      if d != c && e != c {
        assert SoleHost(phase, d, e);
      } else if d == c {
        assert Seated(join, sessions, phase, e);
      } else {
        assert Seated(join, sessions, phase, d);
      }
    }
  }

  /** A new creator `c` that has been sent only its `init` event is in step with
      its empty history, and every other connection stays in step. */
  lemma HistoryAfterStart(sessions: seq<Session>, phase: map<ConnId, Phase>, outbox: map<ConnId, seq<Event>>,
                          c: ConnId, joinKey: Token, watchKey: Token)
    requires HistoryValid(sessions, phase, outbox) && c !in phase && c !in outbox
    requires forall d :: d in phase && phase[d].Attached() ==> phase[d].sid < |sessions|
    ensures var sid := |sessions|;
            HistoryValid(sessions + [Session(NewGame, {c}, joinKey, watchKey)], phase[c := Hosting(sid)],
                         Post(outbox, c, Init(joinKey, watchKey)))
  {
    var sid := |sessions|;
    var sessions', phase', outbox' := sessions + [Session(NewGame, {c}, joinKey, watchKey)],
                                      phase[c := Hosting(sid)], Post(outbox, c, Init(joinKey, watchKey));
    assert Inbox(outbox, c) == [];
    assert Plays(Inbox(outbox', c)) == [] by {
      assert Inbox(outbox', c) == [Init(joinKey, watchKey)];
    }
    forall d ensures InSync(sessions', phase', outbox', d) {
      if d != c && d in phase && phase[d].Attached() {
        assert InSync(sessions, phase, outbox, d);
        assert sessions'[phase[d].sid] == sessions[phase[d].sid];
        assert Inbox(outbox', d) == Inbox(outbox, d);
      }
    }
  }

  /** `start` for a new connection `c` under two new tokens keeps the invariant. */
  lemma StartKeepsValid(join: map<Token, SessionId>, watch: map<Token, SessionId>, sessions: seq<Session>,
                        phase: map<ConnId, Phase>, outbox: map<ConnId, seq<Event>>,
                        c: ConnId, joinKey: Token, watchKey: Token)
    requires StateValid(join, watch, sessions, phase, outbox) && c !in phase
    requires joinKey !in join && watchKey !in watch
    ensures var sid := |sessions|;
            StateValid(join[joinKey := sid], watch[watchKey := sid], sessions + [Session(NewGame, {c}, joinKey, watchKey)],
                       phase[c := Hosting(sid)], Post(outbox, c, Init(joinKey, watchKey)))
  {
    RegistryAfterStart(join, watch, sessions, Session(NewGame, {c}, joinKey, watchKey));
    MembershipAfterStart(join, sessions, phase, outbox, c, joinKey, watchKey);
    HistoryAfterStart(sessions, phase, outbox, c, joinKey, watchKey);
  }

  /** Attaching a new connection `c` to session `p.sid` as a second player or a
      spectator keeps every connection's membership right. */
  lemma MembershipAfterAttach(join: map<Token, SessionId>, sessions: seq<Session>, phase: map<ConnId, Phase>,
                              outbox: map<ConnId, seq<Event>>, c: ConnId, p: Phase)
    requires MembershipValid(join, sessions, phase, outbox) && c !in phase
    requires p.Attached() && !p.Hosting? && p.sid < |sessions|
    ensures var s := sessions[p.sid];
            MembershipValid(join, sessions[p.sid := s.(connected := s.connected + {c})], phase[c := p],
                            SendAll(outbox, c, ReplayEvents(s.game.moves)))
  {
    var s := sessions[p.sid];
    var sessions', phase' := sessions[p.sid := s.(connected := s.connected + {c})], phase[c := p];
    forall d: ConnId ensures Seated(join, sessions', phase', d) {
      if d != c {
        assert Seated(join, sessions, phase, d);
        if d in phase' && phase'[d].Attached() && phase'[d].sid < |sessions'| {
          var t := phase[d].sid;
          assert sessions'[t].joinKey == sessions[t].joinKey;
          assert sessions[t].connected <= sessions'[t].connected;
        }
      }
    }
    forall t: SessionId, d: ConnId ensures Enrolled(sessions', phase', t, d) {
      assert Enrolled(sessions, phase, t, d);
      if t < |sessions'| && d in sessions'[t].connected && d != c {
        assert d in sessions[t].connected;
      }
    }
    forall d: ConnId, e: ConnId ensures SoleHost(phase', d, e) {
      assert SoleHost(phase, d, e);
    }
  }

  /** Replaying its session's moves to a connection `c` that attaches and has
      been sent nothing yet puts `c` in step with the history, and leaves any
      other connection `d` as much in step as it was. */
  lemma InSyncAfterAttach(sessions: seq<Session>, phase: map<ConnId, Phase>, outbox: map<ConnId, seq<Event>>,
                          c: ConnId, p: Phase, d: ConnId)
    requires InSync(sessions, phase, outbox, d) && c !in phase && c !in outbox
    requires p.Attached() && p.sid < |sessions|
    ensures var s := sessions[p.sid];
            InSync(sessions[p.sid := s.(connected := s.connected + {c})], phase[c := p],
                   SendAll(outbox, c, ReplayEvents(s.game.moves)), d)
  {
    var s := sessions[p.sid];
    var sessions', phase', outbox' := sessions[p.sid := s.(connected := s.connected + {c})], phase[c := p],
                                      SendAll(outbox, c, ReplayEvents(s.game.moves));
    if d == c {
      assert Inbox(outbox, c) == [];
      assert [] + ReplayEvents(s.game.moves) == ReplayEvents(s.game.moves);
      PlaysOfReplay(s.game.moves);
      assert sessions'[p.sid].game == s.game;
    } else if d in phase && phase[d].Attached() && phase[d].sid < |sessions| {
      assert Inbox(outbox', d) == Inbox(outbox, d);
      assert sessions'[phase[d].sid].game == sessions[phase[d].sid].game;
    }
  }

  /** Replaying its session's moves to a connection `c` that attaches and has
      been sent nothing yet keeps every attached connection in step. */
  lemma HistoryAfterAttach(sessions: seq<Session>, phase: map<ConnId, Phase>, outbox: map<ConnId, seq<Event>>,
                           c: ConnId, p: Phase)
    requires HistoryValid(sessions, phase, outbox) && c !in phase && c !in outbox
    requires p.Attached() && p.sid < |sessions|
    ensures var s := sessions[p.sid];
            HistoryValid(sessions[p.sid := s.(connected := s.connected + {c})], phase[c := p],
                         SendAll(outbox, c, ReplayEvents(s.game.moves)))
  {
    var s := sessions[p.sid];
    var sessions', phase', outbox' := sessions[p.sid := s.(connected := s.connected + {c})], phase[c := p],
                                      SendAll(outbox, c, ReplayEvents(s.game.moves));
    forall d ensures InSync(sessions', phase', outbox', d) {
      assert InSync(sessions, phase, outbox, d);
      InSyncAfterAttach(sessions, phase, outbox, c, p, d);
    }
  }

  /** Attaching a new connection `c` to session `p.sid` as a second player or a
      spectator, and replaying the session's moves to it, keeps the invariant. */
  lemma AttachKeepsValid(join: map<Token, SessionId>, watch: map<Token, SessionId>, sessions: seq<Session>,
                         phase: map<ConnId, Phase>, outbox: map<ConnId, seq<Event>>, c: ConnId, p: Phase)
    requires StateValid(join, watch, sessions, phase, outbox) && c !in phase
    requires p.Attached() && !p.Hosting? && p.sid < |sessions|
    ensures var s := sessions[p.sid];
            StateValid(join, watch, sessions[p.sid := s.(connected := s.connected + {c})], phase[c := p],
                       SendAll(outbox, c, ReplayEvents(s.game.moves)))
  {
    var s := sessions[p.sid];
    RegistryAfterUpdate(join, watch, sessions, p.sid, s.(connected := s.connected + {c}));
    MembershipAfterAttach(join, sessions, phase, outbox, c, p);
    HistoryAfterAttach(sessions, phase, outbox, c, p);
  }

  /** A connection that attaches to a session and then leaves it restores the
      session's `connected` set: `add` followed by `remove` of a connection that
      was not a member. */
  lemma LeavingUndoesJoining(join: map<Token, SessionId>, watch: map<Token, SessionId>, sessions: seq<Session>,
                             phase: map<ConnId, Phase>, outbox: map<ConnId, seq<Event>>, c: ConnId, sid: SessionId)
    requires StateValid(join, watch, sessions, phase, outbox) && c !in phase && sid < |sessions|
    ensures var s := sessions[sid];
            var s' := s.(connected := s.connected + {c});
            sessions[sid := s'][sid := s'.(connected := s'.connected - {c})] == sessions
  {
    var s := sessions[sid];
    assert Enrolled(sessions, phase, sid, c);
    assert s.connected + {c} - {c} == s.connected;
  }

  /** The registry, sessions and handlers after `start` for a new connection
      `c`, followed at once by the `finally` block of that same creator: the two
      tokens deleted are the two registered, so `JOIN` and `WATCH` are as they
      were, and the new session is left with nobody connected. */
  lemma StartedThenClosed(join: map<Token, SessionId>, watch: map<Token, SessionId>, sessions: seq<Session>,
                          phase: map<ConnId, Phase>, join': map<Token, SessionId>, watch': map<Token, SessionId>,
                          sessions': seq<Session>, phase': map<ConnId, Phase>, c: ConnId, joinKey: Token, watchKey: Token)
    requires joinKey !in join && watchKey !in watch
    requires var sid := |sessions|;
             var mid := sessions + [Session(NewGame, {c}, joinKey, watchKey)];
             var p := phase[c := Hosting(sid)];
             var s := mid[p[c].sid];
             sessions' == mid[p[c].sid := s.(connected := s.connected - {c})] &&
             phase' == p[c := Finished] &&
             join' == join[joinKey := sid] - {s.joinKey} && watch' == watch[watchKey := sid] - {s.watchKey}
    ensures join' == join && watch' == watch
    ensures sessions' == sessions + [Session(NewGame, {}, joinKey, watchKey)]
    ensures phase' == phase[c := Finished]
  {
    assert {c} - {c} == {};
  }

  /** Answering a new connection `c` with "game not found" and finishing its
      handler keeps the invariant. */
  lemma NotFoundKeepsValid(join: map<Token, SessionId>, watch: map<Token, SessionId>, sessions: seq<Session>,
                           phase: map<ConnId, Phase>, outbox: map<ConnId, seq<Event>>, c: ConnId)
    requires StateValid(join, watch, sessions, phase, outbox) && c !in phase
    ensures StateValid(join, watch, sessions, phase[c := Finished], Post(outbox, c, Error(NotFound)))
  {
    var phase', outbox' := phase[c := Finished], Post(outbox, c, Error(NotFound));
    forall d ensures InSync(sessions, phase', outbox', d) && Seated(join, sessions, phase', d) {
      assert InSync(sessions, phase, outbox, d) && Seated(join, sessions, phase, d);
    }
    forall t: SessionId, d: ConnId ensures Enrolled(sessions, phase', t, d) {
      assert Enrolled(sessions, phase, t, d);
    }
    forall d: ConnId, e: ConnId ensures SoleHost(phase', d, e) {
      assert SoleHost(phase, d, e);
    }
  }

  /** Closing a connection sends nothing, so every attached connection still
      matches its session's history. */
  lemma HistoryAfterClose(sessions: seq<Session>, phase: map<ConnId, Phase>, outbox: map<ConnId, seq<Event>>, c: ConnId)
    requires HistoryValid(sessions, phase, outbox)
    requires c in phase && phase[c].Attached() && phase[c].sid < |sessions|
    ensures var s := sessions[phase[c].sid];
            HistoryValid(sessions[phase[c].sid := s.(connected := s.connected - {c})], phase[c := Finished], outbox)
  {
    var s := sessions[phase[c].sid];
    var sessions' := sessions[phase[c].sid := s.(connected := s.connected - {c})];
    var phase' := phase[c := Finished];
    forall d ensures InSync(sessions', phase', outbox, d) {
      assert InSync(sessions, phase, outbox, d);
    }
  }

  /** Closing connection `c`: the `finally` blocks keep the invariant. */
  lemma CloseKeepsValid(join: map<Token, SessionId>, watch: map<Token, SessionId>, sessions: seq<Session>,
                        phase: map<ConnId, Phase>, outbox: map<ConnId, seq<Event>>, c: ConnId)
    requires StateValid(join, watch, sessions, phase, outbox)
    requires c in phase && phase[c].Attached()
    ensures phase[c].Hosting? ==>
              sessions[phase[c].sid].joinKey in join && sessions[phase[c].sid].watchKey in watch
    ensures var p := phase[c];
            var s := sessions[p.sid];
            var sessions' := sessions[p.sid := s.(connected := s.connected - {c})];
            if p.Hosting? then StateValid(join - {s.joinKey}, watch - {s.watchKey}, sessions', phase[c := Finished], outbox)
            else StateValid(join, watch, sessions', phase[c := Finished], outbox)
  {
    var p := phase[c];
    var s := sessions[p.sid];
    var s' := s.(connected := s.connected - {c});
    var sessions' := sessions[p.sid := s'];
    assert Seated(join, sessions, phase, c);
    RegistryAfterUpdate(join, watch, sessions, p.sid, s');
    HistoryAfterClose(sessions, phase, outbox, c);
    if p.Hosting? {
      RegistryAfterDelete(join, watch, sessions, p.sid);
      RegistryAfterUpdate(join - {s.joinKey}, watch - {s.watchKey}, sessions, p.sid, s');
      assert WatchListed(watch, sessions, p.sid);
      forall t | 0 <= t < |sessions| && JoinListed(join, sessions, t) && !JoinListed(join - {s.joinKey}, sessions, t)
        ensures p.Hosting? && t == p.sid
      {
      }
      MembershipAfterClose(join, join - {s.joinKey}, sessions, phase, outbox, c);
    } else {
      MembershipAfterClose(join, join, sessions, phase, outbox, c);
    }
  }

  /** `broadcast(connected, event)`: each member of `connected` is sent `event`
      once, one `send` per iteration. */
  method Broadcast(box: map<ConnId, seq<Event>>, connected: set<ConnId>, event: Event)
    returns (r: map<ConnId, seq<Event>>)
    ensures r == Delivered(box, connected, event)
  {
    r := box;
    var pending := connected;
    while pending != {}
      invariant pending <= connected
      invariant r == Delivered(box, connected - pending, event)
      decreases pending
    {
      var c :| c in pending;
      DeliverOneMore(box, connected - pending, c, event);
      r := Post(r, c, event);
      assert connected - pending + {c} == connected - (pending - {c});
      pending := pending - {c};
    }
    assert connected - pending == connected;
  }

  /** `replay(websocket, game)`: connection `c` is sent one `play` event per
      recorded move, in history order; nobody else is sent anything. */
  method Replay(box: map<ConnId, seq<Event>>, c: ConnId, game: Game) returns (r: map<ConnId, seq<Event>>)
    ensures r == SendAll(box, c, ReplayEvents(game.moves))
  {
    r := box;
    var i := 0;
    while i < |game.moves|
      invariant 0 <= i <= |game.moves|
      invariant r == SendAll(box, c, ReplayEvents(game.moves[..i]))
    {
      var m := game.moves[i];
      ghost var sent := ReplayEvents(game.moves[..i]);
      r := Post(r, c, PlayOf(m));
      SendAllSnoc(box, c, sent, PlayOf(m));
      assert game.moves[..i + 1] == game.moves[..i] + [m];
      ReplayEventsSnoc(game.moves[..i], m);
      i := i + 1;
    }
    assert game.moves[..i] == game.moves;
  }

  class Server {
    /** `JOIN`: join token to session. */
    var join: map<Token, SessionId>
    /** `WATCH`: watch token to session. */
    var watch: map<Token, SessionId>
    /** Every session ever created, indexed by its id. A session stays here after
        its tokens are deleted: the handlers still attached to it keep using it. */
    var sessions: seq<Session>
    /** The handler of every connection seen so far. */
    var phase: map<ConnId, Phase>
    /** The events sent to each connection so far. */
    var outbox: map<ConnId, seq<Event>>

    ghost predicate Valid()
      reads this
    {
      StateValid(join, watch, sessions, phase, outbox)
    }

    /** The process starts with empty `JOIN` and `WATCH` and no connections. */
    constructor ()
      ensures Valid()
      ensures join == map[] && watch == map[] && sessions == [] && phase == map[] && outbox == map[]
    {
      join, watch, sessions, phase, outbox := map[], map[], [], map[], map[];
    }

    /** A session is reachable under both of its tokens or under neither, and
        under no other token. */
    lemma BothOrNeither(sid: SessionId)
      requires RegistryValid(join, watch, sessions) && sid < |sessions|
      ensures (exists t :: t in join && join[t] == sid) <==> (exists t :: t in watch && watch[t] == sid)
      ensures forall t :: t in join && join[t] == sid ==> t == sessions[sid].joinKey
      ensures forall t :: t in watch && watch[t] == sid ==> t == sessions[sid].watchKey
    {
      if t :| t in join && join[t] == sid {
        assert JoinListed(join, sessions, sid);
        assert sessions[sid].watchKey in watch && watch[sessions[sid].watchKey] == sid;
      }
      if t :| t in watch && watch[t] == sid {
        assert WatchListed(watch, sessions, sid);
        assert sessions[sid].joinKey in join && join[sessions[sid].joinKey] == sid;
      }
    }

    /** Two connections attached to the same session have been sent the same
        moves in the same order, however late one of them arrived. */
    lemma SameObservedHistory(c: ConnId, d: ConnId)
      requires Valid()
      requires c in phase && d in phase && phase[c].Attached() && phase[d].Attached()
      requires phase[c].sid == phase[d].sid
      ensures Plays(Inbox(outbox, c)) == Plays(Inbox(outbox, d))
    {
      assert InSync(sessions, phase, outbox, c) && InSync(sessions, phase, outbox, d);
    }

    /** The state after `start(c)` with tokens `joinKey` and `watchKey`: a new
        session whose `connected` set is exactly `{c}` and whose engine is fresh,
        registered under `joinKey` in `JOIN` and `watchKey` in `WATCH`; `c` was
        sent one `init` event carrying both tokens and is in its move loop as
        PLAYER1. */
    twostate predicate Started(c: ConnId, joinKey: Token, watchKey: Token)
      reads this
    {
      var sid := |old(sessions)|;
      sessions == old(sessions) + [Session(NewGame, {c}, joinKey, watchKey)] &&
      join == old(join)[joinKey := sid] &&
      watch == old(watch)[watchKey := sid] &&
      phase == old(phase)[c := Hosting(sid)] &&
      outbox == Post(old(outbox), c, Init(joinKey, watchKey))
    }

    /** The state after an unknown token: `c` was sent exactly one
        `error{"game not found"}` and its handler returned; the registry and
        every session are as they were. */
    twostate predicate NotFoundSent(c: ConnId)
      reads this
    {
      join == old(join) && watch == old(watch) && sessions == old(sessions) &&
      phase == old(phase)[c := Finished] &&
      outbox == Post(old(outbox), c, Error(NotFound))
    }

    /** The state after `c` attached to session `sid` with handler `p`: `c` was
        added to the session's `connected` set and sent the session's replay;
        the registry and the other sessions are as they were. */
    twostate predicate AttachedTo(c: ConnId, sid: SessionId, p: Phase)
      reads this
    {
      sid < |old(sessions)| &&
      var s := old(sessions)[sid];
      join == old(join) && watch == old(watch) &&
      sessions == old(sessions)[sid := s.(connected := s.connected + {c})] &&
      phase == old(phase)[c := p] &&
      outbox == SendAll(old(outbox), c, ReplayEvents(s.game.moves))
    }

    /** The state after `join(c, token)`, which consults `JOIN` only. */
    twostate predicate Joined(c: ConnId, token: Token)
      reads this
    {
      if token in old(join) then AttachedTo(c, old(join)[token], Guest(old(join)[token]))
      else NotFoundSent(c)
    }

    /** The state after `watch(c, token)`, which consults `WATCH` only. */
    twostate predicate Watched(c: ConnId, token: Token)
      reads this
    {
      if token in old(watch) then AttachedTo(c, old(watch)[token], Watching(old(watch)[token]))
      else NotFoundSent(c)
    }

    /** `start`, up to entering the move loop. `joinKey` and `watchKey` are what
        `secrets.token_urlsafe` returned; the source relies on them being new. */
    method Start(c: ConnId, joinKey: Token, watchKey: Token)
      requires Valid() && c !in phase
      requires joinKey !in join && watchKey !in watch
      modifies this
      ensures Valid()
      ensures Started(c, joinKey, watchKey)
    {
      var sid := |sessions|;
      StartKeepsValid(join, watch, sessions, phase, outbox, c, joinKey, watchKey);
      sessions := sessions + [Session(NewGame, {c}, joinKey, watchKey)];
      join := join[joinKey := sid];
      watch := watch[watchKey := sid];
      outbox := Post(outbox, c, Init(joinKey, watchKey));
      phase := phase[c := Hosting(sid)];
    }

    /** Adds `c` to session `sid`'s `connected` set and replays the session's
        moves to it: the common part of `join` and `watch`. */
    method Attach(c: ConnId, sid: SessionId, p: Phase)
      requires Valid() && c !in phase
      requires sid < |sessions| && p.Attached() && !p.Hosting? && p.sid == sid
      modifies this
      ensures Valid()
      ensures AttachedTo(c, sid, p)
    {
      var s := sessions[sid];
      AttachKeepsValid(join, watch, sessions, phase, outbox, c, p);
      sessions := sessions[sid := s.(connected := s.connected + {c})];
      phase := phase[c := p];
      outbox := Replay(outbox, c, s.game);
    }

    /** `join(c, token)` up to entering the move loop as PLAYER2. */
    method Join(c: ConnId, token: Token)
      requires Valid() && c !in phase
      modifies this
      ensures Valid()
      ensures Joined(c, token)
    {
      if token !in join {
        NotFoundKeepsValid(join, watch, sessions, phase, outbox, c);
        outbox := Post(outbox, c, Error(NotFound));
        phase := phase[c := Finished];
        return;
      }
      var sid := join[token];
      Attach(c, sid, Guest(sid));
    }

    /** `watch(c, token)` up to waiting for the connection to close. */
    method Watch(c: ConnId, token: Token)
      requires Valid() && c !in phase
      modifies this
      ensures Valid()
      ensures Watched(c, token)
    {
      if token !in watch {
        NotFoundKeepsValid(join, watch, sessions, phase, outbox, c);
        outbox := Post(outbox, c, Error(NotFound));
        phase := phase[c := Finished];
        return;
      }
      var sid := watch[token];
      Attach(c, sid, Watching(sid));
    }

    /** `handler(c)`: the first message `hello` selects the flow. `joinKey` and
        `watchKey` are the tokens `start` would generate; they must be new when
        a game is started. */
    method Handler(c: ConnId, hello: Hello, joinKey: Token, watchKey: Token)
      requires Valid() && c !in phase
      requires Dispatch(hello).StartGame? ==> joinKey !in join && watchKey !in watch
      modifies this
      ensures Valid()
      ensures match Dispatch(hello)
                case JoinGame(token) => Joined(c, token)
                case WatchGame(token) => Watched(c, token)
                case StartGame => Started(c, joinKey, watchKey)
    {
      match Dispatch(hello)
      case JoinGame(token) => Join(c, token);
      case WatchGame(token) => Watch(c, token);
      case StartGame => Start(c, joinKey, watchKey);
    }

    /** One message of the move loop `play`: connection `c` asks to play in
        `column`, and the engine answers `verdict`. A rejected move sends the
        engine's message to `c` only and changes nothing else. An accepted move
        is recorded in the engine, then `play` with the row the engine returned
        is broadcast to every member of `connected`, followed, if and only if
        the move won, by `win`. The loop goes on in both cases. */
    method HandleMove(c: ConnId, column: int, verdict: Verdict)
      requires Valid() && c in phase && phase[c].InMoveLoop()
      modifies this`sessions, this`outbox
      ensures Valid()
      ensures var sid := old(phase)[c].sid;
              var s := old(sessions)[sid];
              var player := old(phase)[c].Role();
              sessions == old(sessions)[sid := s.(game := Apply(s.game, player, column, verdict))] &&
              outbox == Announce(old(outbox), c, s.connected, player, column, verdict)
    {
      var sid := phase[c].sid;
      var s := sessions[sid];
      var player := phase[c].Role();
      MoveKeepsValid(join, watch, sessions, phase, outbox, c, column, verdict);
      ghost var sessions' := sessions[sid := s.(game := Apply(s.game, player, column, verdict))];
      ghost var outbox' := Announce(outbox, c, s.connected, player, column, verdict);
      var box := outbox;
      match verdict {
        case Rejected(message) =>
          box := Post(box, c, Error(message));
          assert box == outbox';
        case Accepted(row, won) =>
          var game := Apply(s.game, player, column, verdict);
          sessions := sessions[sid := s.(game := game)];
          box := Broadcast(box, s.connected, Play(player, column, row));
          assert game.lastPlayerWon == won;
          if game.lastPlayerWon {
            box := Broadcast(box, s.connected, Win(player));
          }
          assert box == outbox';
      }
      assert box == outbox' && sessions == sessions';
      outbox := box;
      assert StateValid(join, watch, sessions, phase, outbox);
    }

    /** The `finally` blocks: connection `c`'s handler exits, for whatever
        reason. `c` is removed from its session's `connected` set and nobody is
        sent anything. When `c` created the session, both of its tokens are
        then deleted from `JOIN` and `WATCH`, whoever else is still attached;
        otherwise the registry is left as it was. */
    method Close(c: ConnId)
      requires Valid() && c in phase && phase[c].Attached()
      modifies this
      ensures Valid()
      ensures var sid := old(phase)[c].sid;
              var s := old(sessions)[sid];
              sessions == old(sessions)[sid := s.(connected := s.connected - {c})] &&
              phase == old(phase)[c := Finished] &&
              outbox == old(outbox) &&
              if old(phase)[c].Hosting? then
                join == old(join) - {s.joinKey} && watch == old(watch) - {s.watchKey}
              else
                join == old(join) && watch == old(watch)
    {
      var p := phase[c];
      var s := sessions[p.sid];
      CloseKeepsValid(join, watch, sessions, phase, outbox, c);
      sessions := sessions[p.sid := s.(connected := s.connected - {c})];
      if p.Hosting? {
        join := join - {s.joinKey};
        watch := watch - {s.watchKey};
      }
      phase := phase[c := Finished];
    }

    /** A creator that leaves before anybody joins: the tokens its `finally`
        block deletes are exactly the ones `start` registered, so `JOIN` and
        `WATCH` are back to what they were, its session is left with nobody
        connected, and all it was ever sent is its `init` event. */
    method StartThenLeave(c: ConnId, joinKey: Token, watchKey: Token)
      requires Valid() && c !in phase
      requires joinKey !in join && watchKey !in watch
      modifies this
      ensures Valid()
      ensures join == old(join) && watch == old(watch)
      ensures sessions == old(sessions) + [Session(NewGame, {}, joinKey, watchKey)]
      ensures phase == old(phase)[c := Finished]
      ensures outbox == Post(old(outbox), c, Init(joinKey, watchKey))
      ensures Inbox(outbox, c) == [Init(joinKey, watchKey)]
    {
      assert c !in outbox;
      Start(c, joinKey, watchKey);
      Close(c);
      StartedThenClosed(old(join), old(watch), old(sessions), old(phase), join, watch, sessions, phase,
                        c, joinKey, watchKey);
    }
  }
}
