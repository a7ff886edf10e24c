/**
 * The media controller (pkg/controller/media/media.go): the client side of the media node's RPC
 * service, which keeps one connection per media host.
 */
module MediaController {
  import opened Wrappers
  import opened Layouts
  import opened Nodes
  import opened Words

  /** The calls it makes: dialling a host, the two RPCs over a connection, and closing one. */
  datatype Call =
    | Dial(host: string)
    | StartReceiveRpc(conn: nat, port: string, device: string, channels: uint32, rate: uint32)
    | StopReceiveRpc(conn: nat, port: string)
    | CloseConn(conn: nat)

  class Controller {
    /** The `hostLayout` and `port` fields: where the media service of a host listens. */
    const hostLayout: Layout
    const port: string
    /** The `connection` field: the open connection to each media host. */
    var connection: map<string, nat>
    ghost var log: seq<Event<Call>>
    var step: nat
    const network: (nat, Call) -> Reply

    /** NewMediaController (media.go:78-84): no connection is open. */
    constructor (hostLayout: Layout, port: string, network: (nat, Call) -> Reply)
      ensures this.hostLayout == hostLayout && this.port == port && this.network == network
      ensures connection == map[] && log == [] && step == 0
    {
      this.hostLayout := hostLayout;
      this.port := port;
      this.network := network;
      connection := map[];
      log := [];
      step := 0;
    }

    /** `fmt.Sprintf(c.hostLayout, ip, c.port)`: the media host of an IP, whatever audio port is asked for. */
    function Host(ip: string): string
    {
      Sprintf(hostLayout, ip, port)
    }

    method Ask(c: Call) returns (r: Reply)
      modifies this
      ensures r == network(old(step), c)
      ensures log == old(log) + [Called(c, r)] && step == old(step) + 1
      ensures connection == old(connection)
    {
      r := network(step, c);
      log := log + [Called(c, r)];
      step := step + 1;
    }

    /**
     * StartReceive (media.go:21-48): the host is dialled and asked to start receiving; either
     * error is returned, leaving the table alone (a dialled connection is then not closed). On
     * success the new connection is stored under the host, replacing any connection it had.
     */
    method StartReceive(ip: string, p: string, device: string, channels: uint32, rate: uint32) returns (err: Option<string>)
      modifies this
      ensures var host := Host(ip);
        var r1 := network(old(step), Dial(host));
        var r2 := network(old(step) + 1, StartReceiveRpc(r1.conn, p, device, channels, rate));
        if r1.err.Some? then
          err == r1.err && connection == old(connection)
          && log == old(log) + [Called(Dial(host), r1)] && step == old(step) + 1
        else
          && err == r2.err && step == old(step) + 2
          && log == old(log) + [Called(Dial(host), r1), Called(StartReceiveRpc(r1.conn, p, device, channels, rate), r2)]
          && connection == (if err.None? then old(connection)[host := r1.conn] else old(connection))
    {
      var host := Host(ip);
      var dial := Ask(Dial(host));
      if dial.err.Some? {
        return dial.err;
      }
      var r := Ask(StartReceiveRpc(dial.conn, p, device, channels, rate));
      if r.err.Some? {
        return r.err;
      }
      connection := connection[host := dial.conn];
      return None;
    }

    /**
     * StopReceive (media.go:51-75): an IP without a connection gives "client <ip> not exist".
     * Otherwise the stop RPC goes over the stored connection; its error is returned and the
     * connection kept, and on success the connection is closed and forgotten.
     */
    method StopReceive(ip: string, p: string) returns (err: Option<string>)
      modifies this
      ensures var host := Host(ip);
        if host !in old(connection) then
          err == Some("client " + ip + " not exist")
          && connection == old(connection) && log == old(log) && step == old(step)
        else
          var conn := old(connection)[host];
          var r := network(old(step), StopReceiveRpc(conn, p));
          && err == r.err
          && (err.Some? ==> connection == old(connection) && log == old(log) + [Called(StopReceiveRpc(conn, p), r)] && step == old(step) + 1)
          && (err.None? ==>
                connection == old(connection) - {host} && step == old(step) + 2
                && log == old(log) + [Called(StopReceiveRpc(conn, p), r), Called(CloseConn(conn), network(old(step) + 1, CloseConn(conn)))])
    {
      var host := Host(ip);
      if host !in connection {
        return Some("client " + ip + " not exist");
      }
      var conn := connection[host];
      var r := Ask(StopReceiveRpc(conn, p));
      if r.err.Some? {
        return r.err;
      }
      var _ := Ask(CloseConn(conn));
      connection := connection - {host};
      return None;
    }
  }

  /** A network that accepts every call and numbers connections by the step that opened them. */
  function NumberedConnections(step: nat, c: Call): (r: Reply)
    ensures r.err.None? && r.conn == step
  {
    Reply(None, step)
  }

  /**
   * The connection table is keyed by the host alone: receives of one IP on two audio ports share
   * an entry, so the second start replaces the first connection without closing it, and the
   * first stop closes the only one, after which stopping the other port finds no client.
   */
  method TwoPortsShareOneConnection(layout: Layout, mediaPort: string, ip: string, p1: string, p2: string)
    returns (afterStarts: map<string, nat>, firstStop: Option<string>, secondStop: Option<string>)
    ensures afterStarts == map[Sprintf(layout, ip, mediaPort) := 2]
    ensures firstStop == None
    ensures secondStop == Some("client " + ip + " not exist")
  {
    var c := new Controller(layout, mediaPort, NumberedConnections);
    var e1 := c.StartReceive(ip, p1, "default", 2, 44100);
    var e2 := c.StartReceive(ip, p2, "default", 2, 44100);
    afterStarts := c.connection;
    firstStop := c.StopReceive(ip, p1);
    secondStop := c.StopReceive(ip, p2);
  }
}
