/** The events exchanged between the relay and its clients, and the pure parts of
    the protocol: the events a replay sends, and how the first message of a
    connection selects its flow. */
module Events {
  import opened Connect4

  /** A capability token (the output of `secrets.token_urlsafe`). */
  type Token = string

  datatype Option<T> = None | Some(value: T)

  /** The four kinds of event the relay sends, one constructor per `type` tag. */
  datatype Event =
    | Init(join: Token, watch: Token)
    | Play(player: Player, column: int, row: int)
    | Win(player: Player)
    | Error(message: string)

  /** The message sent for an unknown join or watch token. */
  const NotFound: string := "game not found"

  /** The `play` event announcing a recorded move. */
  function PlayOf(m: Move): Event
  {
    Play(m.player, m.column, m.row)
  }

  /** The events `replay` sends: one `play` event per recorded move, in history
      order, each carrying exactly the recorded (player, column, row). */
  function ReplayEvents(moves: seq<Move>): (r: seq<Event>)
    ensures |r| == |moves|
    ensures forall i :: 0 <= i < |moves| ==>
              r[i] == Play(moves[i].player, moves[i].column, moves[i].row)
  {
    if moves == [] then [] else [PlayOf(moves[0])] + ReplayEvents(moves[1..])
  }

  /** Replaying one more move sends one more `play` event, at the end. */
  lemma ReplayEventsSnoc(moves: seq<Move>, m: Move)
    ensures ReplayEvents(moves + [m]) == ReplayEvents(moves) + [PlayOf(m)]
  {
    var l, r := ReplayEvents(moves + [m]), ReplayEvents(moves) + [PlayOf(m)];
    assert |l| == |r|;
    forall i | 0 <= i < |l| ensures l[i] == r[i] {
      if i < |moves| {
        assert (moves + [m])[i] == moves[i];
      } else {
        assert (moves + [m])[i] == m;
      }
    }
  }

  /** The `play` events of a stream of events, in order: what a client needs to
      rebuild the board. `init`, `win` and `error` events are dropped. */
  function Plays(events: seq<Event>): (r: seq<Event>)
    ensures |r| <= |events|
    ensures forall i :: 0 <= i < |r| ==> r[i].Play?
  {
    if events == [] then []
    else if events[0].Play? then [events[0]] + Plays(events[1..])
    else Plays(events[1..])
  }

  /** An event is among the `play` events of a stream if and only if it is a
      `play` event sent in that stream: the filter keeps every `play` event
      and nothing else. */
  lemma {:induction false} PlaysMembers(events: seq<Event>, e: Event)
    ensures e in Plays(events) <==> e in events && e.Play?
  {
    if events != [] {
      PlaysMembers(events[1..], e);
      assert events == [events[0]] + events[1..];
    }
  }

  /** Taking the `play` events distributes over concatenation of streams. */
  lemma {:induction false} PlaysAppend(a: seq<Event>, b: seq<Event>)
    ensures Plays(a + b) == Plays(a) + Plays(b)
  {
    if a == [] {
      assert a + b == b;
    } else {
      assert (a + b)[1..] == a[1..] + b;
      PlaysAppend(a[1..], b);
    }
  }

  /** A replay consists of `play` events only, so a client that receives a replay
      and keeps the `play` events keeps all of it. */
  lemma {:induction false} PlaysOfReplay(moves: seq<Move>)
    ensures Plays(ReplayEvents(moves)) == ReplayEvents(moves)
  {
    if moves != [] {
      PlaysOfReplay(moves[1..]);
    }
  }

  /** A client whose `play` events matched the history still matches it after
      being sent the `play` event of one more move and possibly a `win`. */
  lemma PlaysAfterMove(before: seq<Event>, moves: seq<Move>, m: Move, won: bool)
    requires Plays(before) == ReplayEvents(moves)
    ensures Plays(before + ([PlayOf(m)] + (if won then [Win(m.player)] else []))) == ReplayEvents(moves + [m])
  {
    var news := [PlayOf(m)] + (if won then [Win(m.player)] else []);
    PlaysAppend(before, news);
    assert Plays(news) == [PlayOf(m)];
    ReplayEventsSnoc(moves, m);
  }

  /** The first message of a connection. It always has type `init`; it may carry a
      `join` key and may carry a `watch` key. */
  datatype Hello = Hello(join: Option<Token>, watch: Option<Token>)

  /** The flow a connection enters. */
  datatype Route = JoinGame(token: Token) | WatchGame(token: Token) | StartGame

  /** The dispatch in `handler`: a `join` key selects the join flow, even when a
      `watch` key is present too; otherwise a `watch` key selects the watch
      flow; a message with neither starts a new game. */
  function Dispatch(h: Hello): (r: Route)
    ensures r.JoinGame? <==> h.join.Some?
    ensures r.WatchGame? <==> h.join.None? && h.watch.Some?
    ensures r.StartGame? <==> h.join.None? && h.watch.None?
    ensures r.JoinGame? ==> r.token == h.join.value
    ensures r.WatchGame? ==> r.token == h.watch.value
  {
    if h.join.Some? then JoinGame(h.join.value)
    else if h.watch.Some? then WatchGame(h.watch.value)
    else StartGame
  }
}
