/**
  internal/event/request_handler.go for one request from start to end: the checks in their
  order, and what the filters see. Gate has the same counter under any interleaving.
 */
module Requests {
  import G = Gate
  import opened Int32
  import opened Messages
  import opened Options
  import opened Routing

  datatype Format = Msgpack | Json

  /** A request as far as the handler looks at it; a body that cannot be read is None. */
  datatype Request = Request(contentTypes: seq<string>, body: Option<string>)

  /** The decoder, the UTF-8 test and the type number of a simple event are the library's. */
  datatype Library = Library(decode: (Format, string) -> Option<(Message, int)>, utf8: Message -> bool)

  const MIME_JSON: string := "application/json"
  const SIMPLE_EVENT: int := 4

  function FormatOf(request: Request): (format: Option<Format>)
    ensures format == Some(Msgpack) <==> request.contentTypes == ["application/msgpack"]
    ensures format == Some(Json) <==> request.contentTypes == ["application/json"]
  {
    if |request.contentTypes| != 1 then None
    else if request.contentTypes[0] == "application/msgpack" then Some(Msgpack)
    else if request.contentTypes[0] == "application/json" then Some(Json)
    else None
  }

  /** fixWrp, with the UUID that it would make up. */
  function FixWrp(msg: Message, uuid: string): (fixed: Message)
    ensures fixed.source == msg.source && fixed.destination == msg.destination
    ensures fixed.sessionID == msg.sessionID && fixed.payload == msg.payload
    ensures fixed.contentType == if msg.contentType == "" then "application/json" else msg.contentType
    ensures fixed.transactionUUID == if msg.transactionUUID == "" then uuid else msg.transactionUUID
  {
    msg.(contentType := if msg.contentType == "" then MIME_JSON else msg.contentType,
         transactionUUID := if msg.transactionUUID == "" then uuid else msg.transactionUUID)
  }

  class RequestHandler {
    const manager: BaseFilterManager
    const library: Library
    const maxOutstanding: int
    var incomingQueueDepth: int

    constructor (manager: BaseFilterManager, library: Library)
      ensures this.manager == manager && this.library == library
      ensures maxOutstanding == 10000 && incomingQueueDepth == 0
    {
      this.manager := manager;
      this.library := library;
      maxOutstanding := G.MAX_OUTSTANDING_DEFAULT;
      incomingQueueDepth := 0;
    }

    /** The body, read as a format, is a simple event in UTF-8. */
    ghost predicate IsEvent(format: Format, request: Request)
    {
      && request.body.Some? && request.body.value != ""
      && library.decode(format, request.body.value).Some?
      && library.decode(format, request.body.value).value.1 == 4
      && library.utf8(library.decode(format, request.body.value).value.0)
    }

    /**
      415 for any other header than the one of JSON or the one of msgpack; then 503 if there
      is a limit and the request's ticket is above it; then 202 if the body, read by the
      decoder of the header, is a simple event in UTF-8, and 400 if it is not. On a 202 each
      filter that accepts the fixed message is offered it once; otherwise no filter sees
      anything. The counter is back where it was.
     */
    method ServeHTTP(request: Request, uuid: string) returns (status: int)
      requires manager.Distinct() && -TWO_31 <= incomingQueueDepth < TWO_31
      modifies this`incomingQueueDepth, manager.filters.Values`offered
      ensures incomingQueueDepth == old(incomingQueueDepth)
      ensures status == 415 || status == 503 || status == 400 || status == 202
      ensures status == 415 <==>
        request.contentTypes != ["application/msgpack"] && request.contentTypes != ["application/json"]
      ensures status == 503 <==> status != 415 && 0 < maxOutstanding < ToInt32(old(incomingQueueDepth) + 1)
      ensures request.contentTypes == ["application/msgpack"] && status != 503 ==>
        status == if IsEvent(Msgpack, request) then 202 else 400
      ensures request.contentTypes == ["application/json"] && status != 503 ==>
        status == if IsEvent(Json, request) then 202 else 400
      ensures status != 202 ==> Seen() == old(Seen())
      ensures status == 202 && request.contentTypes == ["application/msgpack"] ==>
        ShownToAll(old(Seen()), FixWrp(library.decode(Msgpack, request.body.value).value.0, uuid))
      ensures status == 202 && request.contentTypes == ["application/json"] ==>
        ShownToAll(old(Seen()), FixWrp(library.decode(Json, request.body.value).value.0, uuid))
    {
      var format := FormatOf(request);
      if format.None? {
        return 415;
      }
      incomingQueueDepth := ToInt32(incomingQueueDepth + 1);
      var outstanding := incomingQueueDepth;
      status := Handle(request, format.value, outstanding, uuid);
      // The deferred add of -1.
      incomingQueueDepth := ToInt32(incomingQueueDepth - 1);
      ToInt32Add(old(incomingQueueDepth) + 1, -1);
    }

    /** What each filter has been offered. */
    ghost function Seen(): map<string, seq<Message>>
      reads manager, manager.filters.Values
    {
      map name | name in manager.filters :: manager.filters[name].offered
    }

    /** Since `before`, each filter that accepts the message has been offered it once, and no other has been offered anything. */
    ghost predicate ShownToAll(before: map<string, seq<Message>>, msg: Message)
      reads manager, manager.filters.Values
    {
      forall name :: name in manager.filters ==> name in before && var f := manager.filters[name];
        f.offered == before[name] + if Accepts(f.engine, f.eventMatchers, f.metadataMatchers, msg) then [msg] else []
    }

    /** What comes between the two adds. */
    method Handle(request: Request, format: Format, outstanding: int, uuid: string) returns (status: int)
      requires manager.Distinct() && FormatOf(request) == Some(format)
      modifies manager.filters.Values`offered
      ensures status == 503 <==> 0 < maxOutstanding < outstanding
      ensures status != 503 ==> status == if IsEvent(format, request) then 202 else 400
      ensures status != 202 ==> Seen() == old(Seen())
      ensures status == 202 ==> ShownToAll(old(Seen()), FixWrp(library.decode(format, request.body.value).value.0, uuid))
    {
      if 0 < maxOutstanding && maxOutstanding < outstanding {
        return 503;
      }
      if request.body.None? {
        return 400;
      }
      var payload := request.body.value;
      if |payload| == 0 {
        return 400;
      }
      var decoded := library.decode(format, payload);
      if decoded.None? || decoded.value.1 != SIMPLE_EVENT {
        return 400;
      }
      var msg := decoded.value.0;
      if !library.utf8(msg) {
        return 400;
      }
      manager.Queue(Some(FixWrp(msg, uuid)));
      status := 202;
    }
  }
}
