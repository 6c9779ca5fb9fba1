/**
 * The ingest handler `plotter` of src/plotter/plotter.go: it resolves the
 * Workspace header to a registered channel and hands it the parsed body.
 * Header conversion and CSV parsing are library calls, given here as their
 * results; the blocking send itself is returned as a `Send` reply.
 */
module Ingest {
  import opened Wrappers
  import opened Registry

  /** What `strconv.Atoi` returned for the first Workspace header value. */
  datatype Atoi = Number(n: int) | Malformed

  /** What `csv.NewReader(body).ReadAll()` returned. */
  datatype Csv = Rows(cells: seq<seq<string>>) | ParseError

  /** The handler's outcome: a 404, a 400, or exactly one send of the cells on a channel. */
  datatype Reply = NotFound | BadRequest | Send(pubchan: Chan, data: Data)

  /**
   * The id looked up: the Atoi error is ignored, so a malformed header gives
   * Atoi's value 0, and `int32(...)` keeps the low 32 bits.
   */
  function WorkspaceOf(a: Atoi): (id: int32)
    ensures a.Malformed? ==> id == 0
    ensures a.Number? && Int32Min <= a.n <= Int32Max ==> id as int == a.n
    ensures a.Number? ==> (id as int - a.n) % 0x1_0000_0000 == 0
  {
    match a
    case Number(n) => Wrap32(n)
    case Malformed => Wrap32(0)
  }

  /**
   * `plotter`: header present, then id registered, then body parsed, then send.
   * `header` is None when the request has no Workspace header; `bodyRead`
   * says whether the body was parsed at all.
   */
  method Plotter(pc: PublishCtx, header: Option<Atoi>, body: Csv) returns (reply: Reply, bodyRead: bool)
    ensures header.None? ==> reply == NotFound && !bodyRead
    ensures header.Some? && WorkspaceOf(header.value) !in pc.c ==> reply == NotFound && !bodyRead
    ensures header.Some? && WorkspaceOf(header.value) in pc.c ==> bodyRead
    ensures header.Some? && WorkspaceOf(header.value) in pc.c && body.ParseError? ==> reply == BadRequest
    ensures header.Some? && WorkspaceOf(header.value) in pc.c && body.Rows? ==>
              reply == Send(pc.c[WorkspaceOf(header.value)], Data(body.cells))
    ensures 0 !in pc.c && header == Some(Malformed) ==> reply == NotFound && !bodyRead
    ensures pc.Valid() && reply.Send? ==> !reply.pubchan.closed
  {
    if header.None? {
      return NotFound, false;
    }
    var workspace := WorkspaceOf(header.value);
    var pubchan := pc.Get(workspace);
    if pubchan == null {
      return NotFound, false;
    }
    bodyRead := true;
    match body
    case ParseError =>
      reply := BadRequest;
    case Rows(cells) =>
      reply := Send(pubchan, Data(cells));
  }
}
