/** The message rate of a connection and the handlers that run for its messages. */
module MessageRate {
  import opened Room
  import opened RoomInvariant
  import opened Actor
  import opened ActorRuns
  import opened RateLimit
  import LeaveEffects

  /** A message with the time it is taken, and what its handlers do. */
  datatype Timed = Timed(at: int, calls: seq<Call>)

  function Times(msgs: seq<Timed>): (r: seq<int>)
    ensures |r| == |msgs| && forall k :: 0 <= k < |r| ==> r[k] == msgs[k].at
  {
    seq(|msgs|, k requires 0 <= k < |msgs| => msgs[k].at)
  }

  /** The messages of one connection as events, each checked against the window the ones before it left. */
  function DataEvents(conn: Id, r: Rate, msgs: seq<Timed>, max: nat): seq<Event>
    decreases |msgs|
  {
    if msgs == [] then []
    else
      [EvMessage(conn, Data(RateLimit.Accepts(r, msgs[0].at, max), msgs[0].calls))]
      + DataEvents(conn, Counted(r, msgs[0].at), msgs[1..], max)
  }

  /** The messages that the windows let pass. */
  function Handled(r: Rate, msgs: seq<Timed>, max: nat): seq<Timed>
    decreases |msgs|
  {
    if msgs == [] then []
    else (if Counted(r, msgs[0].at).count <= max then [msgs[0]] else []) + Handled(Counted(r, msgs[0].at), msgs[1..], max)
  }

  /** The handlers of these messages, one after the other. */
  function RunHandlers(c: RoomContext, msgs: seq<Timed>): RoomContext
    decreases |msgs|
  {
    if msgs == [] then c else RunHandlers(DoCalls(c, msgs[0].calls), msgs[1..])
  }

  /** No handler on the way unlists the client or ends its being joined. */
  ghost predicate StaysJoined(c: RoomContext, conn: Id, handled: seq<Timed>)
    decreases |handled|
  {
    && ClientsOk(c) && conn in c.clients && c.conns[conn].IsJoined()
    && (handled != [] ==> StaysJoined(DoCalls(c, handled[0].calls), conn, handled[1..]))
  }

  /** Exactly the handlers of the messages within the rate run, in order, and nothing else happens. */
  lemma {:induction false} MessagesOutcome(c: RoomContext, conn: Id, r: Rate, msgs: seq<Timed>, max: nat)
    requires StaysJoined(c, conn, Handled(r, msgs, max))
    ensures Run(c, DataEvents(conn, r, msgs, max)) == RunHandlers(c, Handled(r, msgs, max))
    decreases |msgs|
  {
    if msgs != [] {
      var rest, events := Handled(Counted(r, msgs[0].at), msgs[1..], max), DataEvents(conn, r, msgs, max);
      var next := Handle(c, events[0]);
      LeaveEffects.DataOutcome(c, conn, RateLimit.Accepts(r, msgs[0].at, max), msgs[0].calls);
      assert events[1..] == DataEvents(conn, Counted(r, msgs[0].at), msgs[1..], max);
      if Counted(r, msgs[0].at).count <= max { assert Handled(r, msgs, max)[1..] == rest; } else { assert Handled(r, msgs, max) == rest; }
      MessagesOutcome(next, conn, Counted(r, msgs[0].at), msgs[1..], max);
    }
  }

  /** How many of these messages are taken in the half-open second from `t` on. */
  function TakenIn(msgs: seq<Timed>, t: int): nat {
    if msgs == [] then 0 else (if t <= msgs[0].at < t + SECOND then 1 else 0) + TakenIn(msgs[1..], t)
  }

  lemma {:induction false} HandledAreAccepted(r: Rate, msgs: seq<Timed>, max: nat, t: int)
    ensures TakenIn(Handled(r, msgs, max), t) == AcceptedIn(r, Times(msgs), max, t)
    decreases |msgs|
  {
    if msgs != [] {
      var next := Counted(r, msgs[0].at);
      HandledAreAccepted(next, msgs[1..], max, t);
      assert Times(msgs)[1..] == Times(msgs[1..]);
      var rest := Handled(next, msgs[1..], max);
      if next.count <= max { assert Handled(r, msgs, max)[1..] == rest; } else { assert Handled(r, msgs, max) == rest; }
    }
  }

  /** So at most twice the limit of handlers run in any second, and what wraps of the counter let pass besides. */
  lemma HandlersAreBounded(created: int, msgs: seq<Timed>, max: nat, t: int)
    requires InOrder(created, Times(msgs))
    ensures TakenIn(Handled(Rate(created, 0), msgs, max), t) <= 2 * max + Allowance(Rate(created, 0), Times(msgs), max)
    ensures NeverWraps(Rate(created, 0), Times(msgs)) ==> TakenIn(Handled(Rate(created, 0), msgs, max), t) <= 2 * max
  {
    HandledAreAccepted(Rate(created, 0), msgs, max, t);
    AtMostTwiceTheLimit(created, Times(msgs), max, t);
  }
}
