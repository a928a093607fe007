/** queue/stomp.go: a STOMP client that connects over TLS, and publishes a
    message with a content type guessed from its first character and a
    frame marked persistent, reconnecting once when the send reports that
    the connection is already closed. The network (TLS dial, the STOMP
    handshake, the send and the frame the library builds) is given as
    functions; `Publish` also returns what it attempted, in order. */
module Stomp {
  import opened Wrappers

  const JsonContentType: string := "application/json;charset=utf-8"
  const XmlContentType: string := "application/xml;charset=utf-8"
  const ContentLength: string := "content-length"

  /** The heart-beat both ways, in milliseconds. */
  const HeartBeatMs: nat := 3000

  /** A frame's headers in order; a name may repeat. */
  type HeaderList = seq<(string, string)>

  /** The content type of a message: XML when its first byte is `<`,
      JSON otherwise, the empty message included. */
  function ContentTypeFor(msg: string): (ct: string)
    ensures ct == XmlContentType <==> |msg| > 0 && msg[0] == '<'
    ensures ct == JsonContentType <==> !(|msg| > 0 && msg[0] == '<')
  {
    if |msg| > 0 && msg[0] == '<' then XmlContentType else JsonContentType
  }

  /** `Header.Del`: every entry with that name removed, the rest in order. */
  function Without(h: HeaderList, name: string): (r: HeaderList)
    ensures forall i :: 0 <= i < |r| ==> r[i].0 != name
    ensures |r| <= |h|
    ensures forall e :: e in h && e.0 != name ==> e in r
    ensures forall e :: e in r ==> e in h
  {
    if h == [] then []
    else if h[0].0 == name then Without(h[1..], name)
    else [h[0]] + Without(h[1..], name)
  }

  /** `Without` leaves a list that has no such name as it was. */
  lemma {:induction false} WithoutAbsent(h: HeaderList, name: string)
    requires forall i :: 0 <= i < |h| ==> h[i].0 != name
    ensures Without(h, name) == h
  {
    if h != [] {
      WithoutAbsent(h[1..], name);
    }
  }

  /** A frame: its command, its headers and its body. */
  class Frame {
    var command: string
    var headers: HeaderList
    var body: string

    constructor (command: string, headers: HeaderList, body: string)
      ensures this.command == command && this.headers == headers && this.body == body
    {
      this.command := command;
      this.headers := headers;
      this.body := body;
    }

    /** The frame option `send` passes: `content-length` deleted, then
        `persistent: true` and `Destination` added at the end. */
    method Persist(destination: string)
      modifies this
      ensures headers == Persisted(old(headers), destination)
      ensures command == old(command) && body == old(body)
    {
      headers := Without(headers, ContentLength);
      headers := headers + [("persistent", "true")];
      headers := headers + [("Destination", destination)];
    }
  }

  /** The headers after the frame option. */
  function Persisted(h: HeaderList, destination: string): (r: HeaderList)
    ensures |r| >= 2 && r[|r| - 2] == ("persistent", "true") && r[|r| - 1] == ("Destination", destination)
    ensures forall i :: 0 <= i < |r| - 2 ==> r[i].0 != ContentLength
    ensures forall e :: e in h && e.0 != ContentLength ==> e in r
  {
    Without(h, ContentLength) + [("persistent", "true"), ("Destination", destination)]
  }

  /** Applying the frame option twice deletes nothing more: the second
      time only adds the two headers again. */
  lemma PersistedTwice(h: HeaderList, destination: string)
    ensures Persisted(Persisted(h, destination), destination) ==
      Persisted(h, destination) + [("persistent", "true"), ("Destination", destination)]
  {
    var once := Persisted(h, destination);
    assert forall i :: 0 <= i < |once| ==> once[i].0 != ContentLength;
    WithoutAbsent(once, ContentLength);
  }

  /** What is sent: the destination, the content type, the body and the
      headers of the frame after the option. */
  datatype Message = Message(destination: string, contentType: string, body: string, headers: HeaderList)

  /** An established STOMP session. */
  datatype Connection = Connection(id: nat)

  /** The TLS side: the certificate is verified unless `insecureSkipVerify`. */
  datatype TlsConfig = TlsConfig(insecureSkipVerify: bool)

  datatype ConnectOptions = ConnectOptions(login: string, passcode: string,
                                           heartBeatSendMs: nat, heartBeatReceiveMs: nat, useStomp: bool)

  /** A send error; `alreadyClosed` is whether `errors.As` matches it
      against `stomp.ErrAlreadyClosed`, which goes by the error's type. */
  datatype SendError = SendError(message: string, alreadyClosed: bool)

  /** The network: `dial` answers with a TLS connection's number, `frame`
      gives the headers the library builds for a send. */
  datatype Network = Network(
    dial: (string, TlsConfig) -> Result<nat, string>,
    handshake: (nat, ConnectOptions) -> Result<Connection, string>,
    frame: (string, string, string) -> HeaderList,
    send: (Connection, Message) -> Option<SendError>)

  /** The message `send` hands to the connection. */
  function MessageFor(net: Network, destination: string, msg: string): (m: Message)
    ensures m.destination == destination && m.body == msg && m.contentType == ContentTypeFor(msg)
    ensures m.headers == Persisted(net.frame(destination, ContentTypeFor(msg), msg), destination)
  {
    var contentType := ContentTypeFor(msg);
    Message(destination, contentType, msg, Persisted(net.frame(destination, contentType, msg), destination))
  }

  /** What `Connect` makes of the network: a TLS dial that verifies the
      certificate, then the STOMP handshake with the login and the
      heart-beats; either error stops it. */
  function Session(net: Network, broker: string, username: string, password: string): (r: Result<Connection, string>)
    ensures net.dial(broker, TlsConfig(false)).Failure? ==> r == Failure(net.dial(broker, TlsConfig(false)).error)
    ensures r.Success? ==>
      net.dial(broker, TlsConfig(false)).Success? &&
      net.handshake(net.dial(broker, TlsConfig(false)).value, ConnectOptions(username, password, HeartBeatMs, HeartBeatMs, true)) == r
  {
    var tls := net.dial(broker, TlsConfig(false));
    if tls.Failure? then Failure(tls.error)
    else net.handshake(tls.value, ConnectOptions(username, password, HeartBeatMs, HeartBeatMs, true))
  }

  /** What `Publish` tried: a send on a connection, or a reconnect. */
  datatype Attempt = SendAttempt(conn: Connection, message: Message) | ConnectAttempt

  datatype PublishError = SendFailed(sendError: SendError) | ReconnectFailed(connectError: string)

  /** The outcome of `Publish`: the error, the connection held afterwards
      and the attempts. */
  datatype Publication = Publication(err: Option<PublishError>, conn: Connection, attempts: seq<Attempt>)

  /** `Publish` from connection `conn`: one send; when it fails with an
      already-closed error, one reconnect and, when that works, one more
      send on the new connection; any other error returned as it is. */
  function Publishing(net: Network, conn: Connection, broker: string, username: string, password: string,
                      destination: string, msg: string): (p: Publication)
    ensures 1 <= |p.attempts| <= 3
    ensures p.attempts[0] == SendAttempt(conn, MessageFor(net, destination, msg))
    ensures net.send(conn, MessageFor(net, destination, msg)).None? ==> p == Publication(None, conn, p.attempts[..1])
    ensures var first := net.send(conn, MessageFor(net, destination, msg));
      first.Some? && !first.value.alreadyClosed ==> p == Publication(Some(SendFailed(first.value)), conn, p.attempts[..1])
    ensures |p.attempts| > 1 ==>
      p.attempts[1] == ConnectAttempt && net.send(conn, MessageFor(net, destination, msg)).Some? &&
      net.send(conn, MessageFor(net, destination, msg)).value.alreadyClosed
    ensures |p.attempts| == 2 <==> Session(net, broker, username, password).Failure? && |p.attempts| > 1
    ensures |p.attempts| == 2 ==>
      p.err == Some(ReconnectFailed(Session(net, broker, username, password).error)) && p.conn == conn
    ensures |p.attempts| == 3 ==>
      var again := Session(net, broker, username, password);
      again.Success? && p.conn == again.value &&
      p.attempts[2] == SendAttempt(again.value, MessageFor(net, destination, msg)) &&
      p.err == (var second := net.send(again.value, MessageFor(net, destination, msg));
                if second.Some? then Some(SendFailed(second.value)) else None)
  {
    var message := MessageFor(net, destination, msg);
    var first := SendAttempt(conn, message);
    var sent := net.send(conn, message);
    if sent.None? then Publication(None, conn, [first])
    else if !sent.value.alreadyClosed then Publication(Some(SendFailed(sent.value)), conn, [first])
    else
      var again := Session(net, broker, username, password);
      if again.Failure? then Publication(Some(ReconnectFailed(again.error)), conn, [first, ConnectAttempt])
      else
        var resent := net.send(again.value, message);
        Publication(if resent.Some? then Some(SendFailed(resent.value)) else None, again.value,
                    [first, ConnectAttempt, SendAttempt(again.value, message)])
  }

  /** A publication sends at most twice, and a second send always follows
      a reconnect that worked. */
  lemma {:induction false} AtMostTwoSends(net: Network, conn: Connection, broker: string, username: string, password: string,
                                          destination: string, msg: string)
    ensures var p := Publishing(net, conn, broker, username, password, destination, msg);
      forall k :: 1 <= k < |p.attempts| && p.attempts[k].SendAttempt? ==>
        k == 2 && Session(net, broker, username, password) == Success(p.attempts[k].conn)
  {
    var p := Publishing(net, conn, broker, username, password, destination, msg);
    if |p.attempts| == 2 {
      assert p.attempts[1] == ConnectAttempt;
    }
  }

  class StompClient {
    var conn: Option<Connection>
    var broker: string
    var username: string
    var password: string

    /** `NewStompClient`: not connected yet. */
    constructor (broker: string, username: string, password: string)
      ensures this.broker == broker && this.username == username && this.password == password
      ensures conn.None?
    {
      this.broker := broker;
      this.username := username;
      this.password := password;
      conn := None;
    }

    /** `Connect`: the connection is stored only when the dial and the
        handshake both succeed; otherwise the error is returned and the
        old connection, if any, is kept. */
    method Connect(net: Network) returns (err: Option<string>)
      modifies this
      ensures broker == old(broker) && username == old(username) && password == old(password)
      ensures var s := Session(net, broker, username, password);
        (s.Success? ==> err.None? && conn == Some(s.value)) &&
        (s.Failure? ==> err == Some(s.error) && conn == old(conn))
    {
      var options := ConnectOptions(username, password, HeartBeatMs, HeartBeatMs, true);
      var tlsConfig := TlsConfig(false);
      var tlsConnection := net.dial(broker, tlsConfig);
      if tlsConnection.Failure? {
        return Some(tlsConnection.error);
      }
      var c := net.handshake(tlsConnection.value, options);
      if c.Failure? {
        return Some(c.error);
      }
      conn := Some(c.value);
      err := None;
    }

    /** `send` on the connection held: the content type from the first
        byte and the frame option applied to the library's frame. */
    method Send(net: Network, destination: string, msg: string) returns (err: Option<SendError>, attempt: Attempt)
      requires conn.Some?
      ensures attempt == SendAttempt(conn.value, MessageFor(net, destination, msg))
      ensures err == net.send(conn.value, MessageFor(net, destination, msg))
    {
      var contentType := JsonContentType;
      if |msg| > 0 && msg[0] == '<' {
        contentType := XmlContentType;
      }
      var f := new Frame("SEND", net.frame(destination, contentType, msg), msg);
      f.Persist(destination);
      var message := Message(destination, contentType, msg, f.headers);
      attempt := SendAttempt(conn.value, message);
      err := net.send(conn.value, message);
    }

    /** `Publish`; a client that never connected has no connection to send
        on. */
    method Publish(net: Network, destination: string, msg: string) returns (err: Option<PublishError>, attempts: seq<Attempt>)
      requires conn.Some?
      modifies this
      ensures broker == old(broker) && username == old(username) && password == old(password)
      ensures conn.Some? &&
        Publication(err, conn.value, attempts) ==
        Publishing(net, old(conn.value), broker, username, password, destination, msg)
    {
      var sendErr, first := Send(net, destination, msg);
      attempts := [first];
      if sendErr.None? {
        return None, attempts;
      }
      if !sendErr.value.alreadyClosed {
        return Some(SendFailed(sendErr.value)), attempts;
      }
      attempts := attempts + [ConnectAttempt];
      var connErr := Connect(net);
      if connErr.Some? {
        return Some(ReconnectFailed(connErr.value)), attempts;
      }
      var resendErr, second := Send(net, destination, msg);
      attempts := attempts + [second];
      err := if resendErr.Some? then Some(SendFailed(resendErr.value)) else None;
    }
  }
}
