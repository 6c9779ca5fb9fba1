/**
 * The session relay `wshandler` of src/plotter/plotter.go, as an event-driven
 * state machine. The websocket upgrade, the announce write, the reader
 * goroutine's `conndead` signal, `json.Marshal` and each data write are
 * given as inputs; the relay decides which of them end the session.
 */
module Relay {
  import opened Wrappers
  import opened Registry

  newtype byte = b: int | 0 <= b < 256

  /** What `json.Marshal` made of one received payload. */
  datatype Marshal = Encoded(json: seq<byte>) | EncodeError

  /**
   * One outcome of the `select`: `conndead` was closed by the reader, or a
   * payload arrived on the channel, with its encoding and whether the write succeeded.
   */
  datatype Event = ConnDead | Received(data: Data, marshal: Marshal, writeOk: bool)

  /** Why a session ended. */
  datatype Exit = AnnounceFailed | Disconnected | WriteFailed

  /** A message written to the peer: the workspace announcement or one encoded payload. */
  datatype Message = Announce(workspace: int32) | Plot(json: seq<byte>)

  /** Messages written so far, payloads dropped for failing to encode, and the exit, once there is one. */
  datatype State = State(sent: seq<Message>, dropped: nat, exit: Option<Exit>)

  /** The state after the announcement write for `workspace` succeeded or failed. */
  function Opening(workspace: int32, announced: bool): State
  {
    if announced then State([Announce(workspace)], 0, None)
    else State([], 0, Some(AnnounceFailed))
  }

  /** One pass of the forwarding loop. */
  function Step(s: State, e: Event): State
    requires s.exit.None?
  {
    match e
    case ConnDead => s.(exit := Some(Disconnected))
    case Received(_, EncodeError, _) => s.(dropped := s.dropped + 1)
    case Received(_, Encoded(json), writeOk) =>
      if writeOk then s.(sent := s.sent + [Plot(json)]) else s.(exit := Some(WriteFailed))
  }

  /** The loop run over `events`, stopping at the first exit. */
  function Run(s: State, events: seq<Event>): (t: State)
    ensures s.sent <= t.sent && s.dropped <= t.dropped
    ensures s.exit.Some? ==> t == s
    ensures s.exit.None? && t.exit.Some? ==> t.exit.value != AnnounceFailed
    decreases |events|
  {
    if s.exit.Some? || events == [] then s
    else Run(Step(s, events[0]), events[1..])
  }

  // An independent description of a run, event by event.

  /** The events that end a session: the peer went away, or a data write failed. */
  predicate Ends(e: Event)
  {
    e.ConnDead? || (e.marshal.Encoded? && !e.writeOk)
  }

  function ExitOf(e: Event): Exit
    requires Ends(e)
  {
    if e.ConnDead? then Disconnected else WriteFailed
  }

  /** The index of the first event that ends the session, or `|events|` when none does. */
  function FirstEnd(events: seq<Event>): (n: nat)
    ensures n <= |events|
    ensures forall i :: 0 <= i < n ==> !Ends(events[i])
    ensures n < |events| ==> Ends(events[n])
  {
    if events == [] then 0
    else if Ends(events[0]) then 0
    else 1 + FirstEnd(events[1..])
  }

  /** The payloads that were encoded and written, in order. */
  function Forwarded(events: seq<Event>): seq<Message>
  {
    if events == [] then []
    else
      var e := events[0];
      (if e.Received? && e.marshal.Encoded? && e.writeOk then [Plot(e.marshal.json)] else [])
      + Forwarded(events[1..])
  }

  /** The number of payloads that failed to encode. */
  function EncodeFailures(events: seq<Event>): nat
  {
    if events == [] then 0
    else (if events[0].Received? && events[0].marshal.EncodeError? then 1 else 0) + EncodeFailures(events[1..])
  }

  /**
   * A live run processes events up to the first one that ends the session:
   * it writes every payload that encoded, drops every one that did not, and
   * ends for the reason that event gives, or stays live if no event ends it.
   */
  lemma {:induction false} RunCharacterized(s: State, events: seq<Event>)
    requires s.exit.None?
    ensures var n := FirstEnd(events);
            Run(s, events) == State(s.sent + Forwarded(events[..n]),
                                    s.dropped + EncodeFailures(events[..n]),
                                    if n < |events| then Some(ExitOf(events[n])) else None)
    decreases |events|
  {
    if events == [] {
      assert events[..0] == [];
    } else if Ends(events[0]) {
      assert events[..0] == [];
    } else {
      var n := FirstEnd(events);
      var tail := events[1..];
      assert n == 1 + FirstEnd(tail);
      RunCharacterized(Step(s, events[0]), tail);
      assert events[..n][0] == events[0];
      assert events[..n][1..] == tail[..n - 1];
      if n < |events| {
        assert events[n] == tail[n - 1];
      }
    }
  }

  /** A session that announced itself ends exactly when some event ends it, and for that event's reason. */
  lemma SessionEndsIff(workspace: int32, events: seq<Event>)
    ensures Run(Opening(workspace, true), events).exit.Some? <==>
              exists i :: 0 <= i < |events| && Ends(events[i])
    ensures Run(Opening(workspace, true), events).exit == Some(Disconnected) <==>
              FirstEnd(events) < |events| && events[FirstEnd(events)].ConnDead?
    ensures Run(Opening(workspace, true), events).exit == Some(WriteFailed) <==>
              FirstEnd(events) < |events| && events[FirstEnd(events)].Received?
  {
    RunCharacterized(Opening(workspace, true), events);
  }

  /** A failed announcement ends the session before any event is looked at. */
  lemma AnnounceFailureEnds(workspace: int32, events: seq<Event>)
    ensures Run(Opening(workspace, false), events) == State([], 0, Some(AnnounceFailed))
  {
  }

  /** A payload that fails to encode is dropped and the loop goes on with the next event. */
  lemma EncodeFailureContinues(s: State, data: Data, writeOk: bool, rest: seq<Event>)
    requires s.exit.None?
    ensures Run(s, [Received(data, EncodeError, writeOk)] + rest) == Run(s.(dropped := s.dropped + 1), rest)
  {
    var events := [Received(data, EncodeError, writeOk)] + rest;
    assert events[0] == Received(data, EncodeError, writeOk);
    assert events[1..] == rest;
    assert Step(s, events[0]) == s.(dropped := s.dropped + 1);
  }

  /** Once a session has ended, later events change nothing. */
  lemma {:induction false} EventsAfterExitIgnored(s: State, events: seq<Event>, later: seq<Event>)
    requires Run(s, events).exit.Some?
    ensures Run(s, events + later) == Run(s, events)
    decreases |events|
  {
    if s.exit.None? {
      if events == [] {
      } else {
        assert (events + later)[0] == events[0];
        assert (events + later)[1..] == events[1..] + later;
        EventsAfterExitIgnored(Step(s, events[0]), events[1..], later);
      }
    }
  }

  /** The outcome of one `wshandler` call. */
  datatype Session =
    | Refused                                                  // the websocket upgrade failed
    | Session(workspace: int32, relay: State, closes: nat)     // closes: calls of the deferred Close

  /**
   * `wshandler`: register, announce, relay until an exit, and on every exit
   * run the deferred `Close(workspace)` once. When the events run out with no
   * exit the session is still live and its id still registered.
   */
  method WsHandler(pc: PublishCtx, upgraded: bool, announced: bool, events: seq<Event>)
    returns (s: Session, pubchan: Chan?)
    requires pc.Valid()
    modifies pc
    ensures pc.Valid()
    ensures !upgraded ==> s == Refused && pc.c == old(pc.c)
    ensures upgraded ==> s.Session? && pubchan != null && fresh(pubchan)
    ensures upgraded ==> s.workspace == NextId(old(pc.c).Keys)
    ensures upgraded ==> s.relay == Run(Opening(s.workspace, announced), events)
    ensures upgraded && s.relay.exit.Some? ==>
              s.closes == 1 && pubchan.closed && pc.c == old(pc.c) - {s.workspace}
    ensures upgraded && s.relay.exit.Some? && MaxKey(old(pc.c).Keys) as int < Int32Max ==>
              pc.c == old(pc.c)
    ensures upgraded && s.relay.exit.None? ==>
              s.closes == 0 && !pubchan.closed && pc.c == old(pc.c)[s.workspace := pubchan]
  {
    if !upgraded {
      return Refused, null;
    }
    var workspace, ch := pc.Register();
    pubchan := ch;
    var sent: seq<Message> := [];
    var dropped: nat := 0;
    var exit: Option<Exit> := None;
    if !announced {
      exit := Some(AnnounceFailed);
    } else {
      sent := [Announce(workspace)];
      var i := 0;
      while i < |events| && exit.None?
        invariant 0 <= i <= |events|
        invariant Run(State(sent, dropped, exit), events[i..]) == Run(Opening(workspace, true), events)
        decreases |events| - i
      {
        match events[i] {
          case ConnDead =>
            exit := Some(Disconnected);
          case Received(_, marshal, writeOk) =>
            if marshal.EncodeError? {
              dropped := dropped + 1;       // logged; `continue`
            } else if !writeOk {
              exit := Some(WriteFailed);
            } else {
              sent := sent + [Plot(marshal.json)];
            }
        }
        i := i + 1;
      }
    }
    var closes := 0;
    if exit.Some? {
      // the deferred `PC.Close(workspace)`; `closes` only counts the call, while its
      // effect shows in the contract as `pubchan.closed` and the id gone from `pc.c`
      pc.Close(workspace);
      closes := closes + 1;
    }
    s := Session(workspace, State(sent, dropped, exit), closes);
  }
}
