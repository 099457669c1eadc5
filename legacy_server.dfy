/**
 * The oldest websocket server (`src/server.py`): it checks the password
 * before anything else, insists on a `Client-ID`, only complains about a
 * missing `User-Agent`, and files every accepted connection under a fresh
 * random id. Nothing ever removes an entry.
 *
 * The socket is a handle; `uuid.uuid4()` is the `id` argument.
 */
module LegacyServer {
  import opened Results
  import Gateway

  /** What the server keeps per accepted connection: `{'websocket': ws, 'headers': request.headers}`. */
  datatype Entry = Entry(socket: nat, headers: Gateway.Headers)

  /** The handshake's outcome: an HTTP refusal, or acceptance (with whether a warning was logged). */
  datatype Upgrade = Refused(status: int) | Accepted(warned: bool)

  /**
   * The checks in order: a wrong or missing `Authorization` is 401, then a
   * missing or empty `Client-ID` is 400; a missing or empty `User-Agent`
   * is accepted with a warning.
   */
  function Verdict(h: Gateway.Headers, password: string): (u: Upgrade)
    ensures u == Refused(401) <==> Gateway.Header(h, "Authorization") != Some(password)
    ensures u == Refused(400) <==>
      Gateway.Header(h, "Authorization") == Some(password) && !Gateway.Present(Gateway.Header(h, "Client-ID"))
    ensures u.Accepted? <==>
      Gateway.Header(h, "Authorization") == Some(password) && Gateway.Present(Gateway.Header(h, "Client-ID"))
    ensures u.Accepted? ==> (u.warned <==> !Gateway.Present(Gateway.Header(h, "User-Agent")))
  {
    if Gateway.Header(h, "Authorization") != Some(password) then Refused(401)
    else if !Gateway.Present(Gateway.Header(h, "Client-ID")) then Refused(400)
    else Accepted(!Gateway.Present(Gateway.Header(h, "User-Agent")))
  }

  class Server {
    var websockets: map<nat, Entry>

    /** `Server()`: no connections yet. */
    constructor()
      ensures websockets == map[]
    {
      websockets := map[];
    }

    /**
     * `websocket_handler` up to its message loop: refuse, or file the socket
     * and the request's headers under `id`. A refusal leaves the table alone.
     */
    method Handshake(h: Gateway.Headers, password: string, socket: nat, id: nat) returns (u: Upgrade)
      modifies this
      ensures u == Verdict(h, password)
      ensures u.Refused? ==> websockets == old(websockets)
      ensures u.Accepted? ==> websockets == old(websockets)[id := Entry(socket, h)]
    {
      u := Verdict(h, password);
      if u.Refused? {
        return;
      }
      websockets := websockets[id := Entry(socket, h)];
    }
  }

  /**
   * Accepting a connection under an id not yet in use adds exactly one
   * entry and keeps every earlier one.
   */
  lemma AcceptGrows(websockets: map<nat, Entry>, id: nat, e: Entry)
    requires id !in websockets
    ensures |websockets[id := e]| == |websockets| + 1
    ensures forall k :: k in websockets ==> k in websockets[id := e] && websockets[id := e][k] == websockets[k]
  {
    assert websockets[id := e].Keys == websockets.Keys + {id};
  }
}
