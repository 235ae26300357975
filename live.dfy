/** The `LiveAnalytics` durable object: the set of open server-side sockets, registration on
    a WebSocket upgrade, removal on close, and the broadcast of one click summary to every
    open socket. */
module Live {
  import opened Wrappers
  import opened Classifier

  /** The object `broadcast` serialises: `{ slug, ip, clickType, timestamp }`. */
  datatype Summary = Summary(slug: string, ip: Option<string>, clickType: ClickType, timestamp: int)

  /** One end of a `WebSocketPair`; `sent` is everything `send` has been called with. */
  class Socket {
    var accepted: bool
    var sent: seq<Summary>

    constructor ()
      ensures !accepted && sent == []
    {
      accepted := false;
      sent := [];
    }

    method Accept()
      modifies this
      ensures accepted && sent == old(sent)
    {
      accepted := true;
    }

    method Send(msg: Summary)
      modifies this
      ensures sent == old(sent) + [msg] && accepted == old(accepted)
    {
      sent := sent + [msg];
    }
  }

  datatype Reply =
    | Upgraded(client: Socket)            // 101, handing the client end to the caller
    | Rejected(status: nat, body: string)

  class LiveAnalytics {
    var clients: set<Socket>

    constructor ()
      ensures clients == {}
    {
      clients := {};
    }

    /** `fetch(request)`: anything but an `Upgrade: websocket` request is refused with 426
        and changes nothing; an upgrade creates a fresh pair, accepts and registers the
        server end (returned as `server`), and hands out the client end. */
    method Fetch(upgrade: Option<string>) returns (reply: Reply, server: Socket?)
      modifies this
      ensures upgrade != Some("websocket") ==>
        reply == Rejected(426, "Expected WebSocket") && server == null && clients == old(clients)
      ensures upgrade == Some("websocket") ==>
        && reply.Upgraded? && server != null
        && fresh(reply.client) && fresh(server) && reply.client != server
        && server.accepted && server.sent == []
        && clients == old(clients) + {server}
    {
      if upgrade != Some("websocket") {
        return Rejected(426, "Expected WebSocket"), null;
      }
      var clientWs := new Socket();
      var serverWs := new Socket();
      serverWs.Accept();
      clients := clients + {serverWs};
      return Upgraded(clientWs), serverWs;
    }

    /** The `close` listener registered for `ws`: it removes that socket and no other. */
    method OnClose(ws: Socket)
      modifies this
      ensures clients == old(clients) - {ws}
    {
      clients := clients - {ws};
    }

    /** `broadcast(data)`: every registered socket is sent the message exactly once, in some
        order; the set itself and every other socket are left alone. */
    method Broadcast(data: Summary)
      modifies clients
      ensures clients == old(clients)
      ensures forall c :: c in clients ==> c.sent == old(c.sent) + [data] && c.accepted == old(c.accepted)
    {
      var pending := clients;
      while pending != {}
        invariant pending <= clients
        invariant forall c :: c in clients && c !in pending ==> c.sent == old(c.sent) + [data]
        invariant forall c :: c in pending ==> c.sent == old(c.sent)
        invariant forall c :: c in clients ==> c.accepted == old(c.accepted)
        decreases pending
      {
        var c :| c in pending;
        c.Send(data);
        pending := pending - {c};
      }
    }
  }
}
