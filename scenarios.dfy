/** Clients of the registry, the ingest handler and the relay, as the server wires them together. */
module Scenarios {
  import opened Wrappers
  import opened Registry
  import opened Ingest
  import opened Relay

  /** The first two sessions get ids 1 and 2; posts reach the matching channel only. */
  method TwoSessions()
  {
    var pc := new PublishCtx();
    var id1, ch1 := pc.Register();
    assert id1 == 1;
    var reply, bodyRead := Plotter(pc, Some(Number(1)), Rows([["a", "1"], ["b", "2"]]));
    assert reply == Send(ch1, Data([["a", "1"], ["b", "2"]]));

    assert pc.c.Keys == {1};
    assert MaxKey(pc.c.Keys) == 1;
    var id2, ch2 := pc.Register();
    assert id2 == 2 && ch2 != ch1;
    reply, bodyRead := Plotter(pc, Some(Number(2)), Rows([["c"]]));
    assert reply.Send? && reply.pubchan == ch2;
  }

  /** Unknown or unparsable workspaces are not found, and then the body is never read. */
  method Rejections(pc: PublishCtx)
    requires pc.Valid() && 99 !in pc.c
  {
    var reply, bodyRead := Plotter(pc, Some(Number(99)), ParseError);
    assert reply == NotFound && !bodyRead;
    reply, bodyRead := Plotter(pc, Some(Malformed), Rows([]));
    assert reply == NotFound && !bodyRead;
    reply, bodyRead := Plotter(pc, None, Rows([]));
    assert reply == NotFound;
  }

  /** Closing twice is closing once; the id is then unknown, and the released maximum comes back. */
  method CloseTwiceThenReuse(pc: PublishCtx, ch1: Chan, ch2: Chan)
    requires pc.Valid() && pc.c == map[1 := ch1, 2 := ch2]
    modifies pc, ch2
  {
    pc.Close(2);
    assert ch2.closed && pc.c == map[1 := ch1];
    pc.Close(2);
    assert pc.c == map[1 := ch1];
    var gone := pc.Get(2);
    assert gone == null;

    assert pc.c.Keys == {1};
    assert MaxKey(pc.c.Keys) == 1;
    var id3, ch3 := pc.Register();
    assert id3 == 2 && ch3 != ch2;
  }

  /** A session whose peer goes away after one payload has released its id. */
  method SessionReleases(pc: PublishCtx)
    requires pc.Valid() && pc.c == map[]
    modifies pc
  {
    var s, pubchan := WsHandler(pc, true, true,
                                [Received(Data([["x"]]), Encoded([123, 125]), true), ConnDead]);
    assert s.workspace == 1;
    SessionEndsIff(1, [Received(Data([["x"]]), Encoded([123, 125]), true), ConnDead]);
    assert pc.c == map[] && pubchan.closed;
  }
}
