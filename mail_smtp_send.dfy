/**
 * The `wait.mail.smtp.send` slot: resolve the connection settings from the
 * invocation node itself, assemble one outgoing message from its [message],
 * [subject], [from], [from-name], [to] and [to-name] children, then connect,
 * authenticate when a username is set, send and disconnect, all inside a
 * `using` block that disposes of the client on every exit.
 */
module SmtpSend {
  import opened Wrappers
  import opened Errors
  import opened Nodes
  import opened ConnectionSettings

  /** `new MailboxAddress(name, address)`: the display name may be null. */
  datatype MailboxAddress = MailboxAddress(name: Option<string>, address: string)

  /** The assembled message as handed to `Send`: the MIME body entity (or null), subject, senders, recipients. */
  datatype OutMessage = OutMessage(
    body: Option<nat>,
    subject: Option<string>,
    from: seq<MailboxAddress>,
    to: seq<MailboxAddress>)

  /** The `MimeMessage` the slot fills in field by field. */
  class MimeMessageDraft {
    var body: Option<nat>
    var subject: Option<string>
    var from: seq<MailboxAddress>
    var to: seq<MailboxAddress>

    /** `new MimeMessage()`: no body, no subject, empty address lists. */
    constructor ()
      ensures body.None? && subject.None? && from == [] && to == []
    {
      body := None;
      subject := None;
      from := [];
      to := [];
    }

    function Snapshot(): (m: OutMessage)
      reads this
      ensures m.from == from && m.to == to && m.body == body && m.subject == subject
    {
      OutMessage(body, subject, from, to)
    }
  }

  /** What the slot asks of the SMTP client, in order. */
  datatype SmtpEvent =
    | Connect(host: string, port: int, useSsl: bool)
    | Authenticate(username: string, password: Option<string>)
    | Send(message: OutMessage)
    | Disconnect(quit: bool)
    | Dispose

  /** Which client calls throw. */
  datatype SmtpBehaviour = SmtpBehaviour(
    connectFails: bool,
    authenticateFails: bool,
    sendFails: bool,
    disconnectFails: bool)

  /** The SMTP client the slot creates, recording every call made on it. */
  class SmtpSession {
    var trace: seq<SmtpEvent>
    const behaviour: SmtpBehaviour

    constructor (behaviour: SmtpBehaviour)
      ensures this.behaviour == behaviour && trace == []
    {
      this.behaviour := behaviour;
      trace := [];
    }

    method Connect(host: string, port: int, useSsl: bool) returns (ok: bool)
      modifies this
      ensures trace == old(trace) + [SmtpEvent.Connect(host, port, useSsl)]
      ensures ok == !behaviour.connectFails
    {
      trace := trace + [SmtpEvent.Connect(host, port, useSsl)];
      ok := !behaviour.connectFails;
    }

    method Authenticate(username: string, password: Option<string>) returns (ok: bool)
      modifies this
      ensures trace == old(trace) + [SmtpEvent.Authenticate(username, password)]
      ensures ok == !behaviour.authenticateFails
    {
      trace := trace + [SmtpEvent.Authenticate(username, password)];
      ok := !behaviour.authenticateFails;
    }

    method Send(message: OutMessage) returns (ok: bool)
      modifies this
      ensures trace == old(trace) + [SmtpEvent.Send(message)]
      ensures ok == !behaviour.sendFails
    {
      trace := trace + [SmtpEvent.Send(message)];
      ok := !behaviour.sendFails;
    }

    method Disconnect(quit: bool) returns (ok: bool)
      modifies this
      ensures trace == old(trace) + [SmtpEvent.Disconnect(quit)]
      ensures ok == !behaviour.disconnectFails
    {
      trace := trace + [SmtpEvent.Disconnect(quit)];
      ok := !behaviour.disconnectFails;
    }

    method Dispose()
      modifies this
      ensures trace == old(trace) + [SmtpEvent.Dispose]
    {
      trace := trace + [SmtpEvent.Dispose];
    }
  }

  /**
   * `node.Children.FirstOrDefault(x => x.Name == name)?.GetEx<string>()`: null
   * when the child is absent or holds null; the first such child wins.
   */
  function OptionalText(node: Node, name: string): Result<Option<string>, Error>
  {
    match FirstOrDefault(node.children, name)
    case None => Success(None)
    case Some(child) => AsText(child.value)
  }

  /** The same, where null is an error: `?? throw …`. */
  function RequiredText(node: Node, name: string, missing: Error): (r: Result<string, Error>)
    ensures OptionalText(node, name).Success? && OptionalText(node, name).value.None? ==> r == Failure(missing)
    ensures OptionalText(node, name).Success? && OptionalText(node, name).value.Some? ==>
              r == Success(OptionalText(node, name).value.value)
    ensures OptionalText(node, name).Failure? ==> r == Failure(OptionalText(node, name).error)
  {
    var text :- OptionalText(node, name);
    if text.Some? then Success(text.value) else Failure(missing)
  }

  /**
   * The `.mime.create` slot, which replaces the [message] node's value with the
   * entity it builds: the value it leaves for each node it accepts; it throws
   * for any other node.
   */
  type MimeCreator = map<Node, Value>

  /** `messageNode.Value as MimeEntity`: the entity, or null when the value is anything else. */
  function AsEntity(v: Value): Option<nat>
  {
    if v.VEntity? then Some(v.id) else None
  }

  /**
   * The message assembly after the settings: [message] and its entity, then
   * subject, from, from-name, to and to-name, in that order, all read from the
   * invocation node.
   */
  function Compose(input: Node, mime: MimeCreator): Result<OutMessage, Error>
  {
    var messageNode :- match FirstOrDefault(input.children, "message")
                       case Some(node) => Success(node)
                       case None => Failure(MissingMessage);
    var created :- if messageNode in mime then Success(mime[messageNode]) else Failure(MimeCreateFailed);
    var subject :- OptionalText(input, "subject");
    var from :- RequiredText(input, "from", MissingFrom);
    var fromName :- OptionalText(input, "from-name");
    var to :- RequiredText(input, "to", MissingTo);
    var toName :- OptionalText(input, "to-name");
    Success(OutMessage(AsEntity(created), subject, [MailboxAddress(fromName, from)], [MailboxAddress(toName, to)]))
  }

  /** The calls one invocation makes, and how it ends. */
  datatype Run = Run(events: seq<SmtpEvent>, outcome: Outcome<Error>)

  /**
   * The body of the `using` block and its disposal: connect, authenticate when
   * the username is not null (even when it is empty), send, disconnect. The
   * first call that throws ends the block; `Dispose` follows on every path.
   */
  function Transmission(settings: Settings, message: OutMessage, b: SmtpBehaviour): Run
  {
    var connect := Connect(settings.server, settings.port, settings.secure);
    var auth := if settings.username.Some? then [Authenticate(settings.username.value, settings.password)] else [];
    if b.connectFails then Run([connect, Dispose], Fail(TransportFailed(ConnectCall)))
    else if settings.username.Some? && b.authenticateFails then
      Run([connect] + auth + [Dispose], Fail(TransportFailed(AuthenticateCall)))
    else if b.sendFails then
      Run([connect] + auth + [Send(message), Dispose], Fail(TransportFailed(SendCall)))
    else if b.disconnectFails then
      Run([connect] + auth + [Send(message), Disconnect(true), Dispose], Fail(TransportFailed(DisconnectCall)))
    else
      Run([connect] + auth + [Send(message), Disconnect(true), Dispose], Pass)
  }

  /** One invocation: settings, then the message, and no client at all when either fails. */
  function SendMail(configuration: Configuration, input: Node, mime: MimeCreator, b: SmtpBehaviour): Run
  {
    match New(configuration, Some(input), "smtp")
    case Failure(e) => Run([], Fail(e))
    case Success(settings) =>
      match Compose(input, mime)
      case Failure(e) => Run([], Fail(e))
      case Success(message) => Transmission(settings, message, b)
  }

  /** The slot object, with its configuration, the `.mime.create` slot and the server it reaches. */
  class MailSmtpSend {
    const configuration: Configuration
    const mime: MimeCreator
    const server: SmtpBehaviour

    constructor (configuration: Configuration, mime: MimeCreator, server: SmtpBehaviour)
      ensures this.configuration == configuration && this.mime == mime && this.server == server
    {
      this.configuration := configuration;
      this.mime := mime;
      this.server := server;
    }

    /** `SignalAsync`: the calls made on the client it creates, and how the invocation ends. */
    method SignalAsync(input: Node) returns (outcome: Outcome<Error>, calls: seq<SmtpEvent>)
      ensures calls == SendMail(configuration, input, mime, server).events
      ensures outcome == SendMail(configuration, input, mime, server).outcome
    {
      calls := [];
      var settings := New(configuration, Some(input), "smtp");
      if settings.Failure? {
        return Fail(settings.error), calls;
      }
      var message := Assemble(input);
      if message.Failure? {
        return Fail(message.error), calls;
      }
      var client := new SmtpSession(server);
      outcome := Transmit(client, settings.value, message.value);
      calls := client.trace;
    }

    /** Lines 43-65: the message, filled in step by step; the first exception ends the assembly. */
    method Assemble(input: Node) returns (result: Result<OutMessage, Error>)
      ensures result == Compose(input, mime)
    {
      var messageNode := FirstOrDefault(input.children, "message");
      if messageNode.None? {
        return Failure(MissingMessage);
      }

      var message := new MimeMessageDraft();
      if messageNode.value !in mime {
        return Failure(MimeCreateFailed);
      }
      message.body := AsEntity(mime[messageNode.value]);

      var subject := OptionalText(input, "subject");
      if subject.Failure? {
        return Failure(subject.error);
      }
      message.subject := subject.value;

      var from := RequiredText(input, "from", MissingFrom);
      if from.Failure? {
        return Failure(from.error);
      }
      var fromName := OptionalText(input, "from-name");
      if fromName.Failure? {
        return Failure(fromName.error);
      }
      message.from := message.from + [MailboxAddress(fromName.value, from.value)];

      var to := RequiredText(input, "to", MissingTo);
      if to.Failure? {
        return Failure(to.error);
      }
      var toName := OptionalText(input, "to-name");
      if toName.Failure? {
        return Failure(toName.error);
      }
      message.to := message.to + [MailboxAddress(toName.value, to.value)];
      assert message.Snapshot() == OutMessage(AsEntity(mime[messageNode.value]), subject.value,
        [MailboxAddress(fromName.value, from.value)], [MailboxAddress(toName.value, to.value)]);
      result := Success(message.Snapshot());
    }

    /** The `using` block: the client calls, then `Dispose` whatever happened. */
    method Transmit(client: SmtpSession, settings: Settings, message: OutMessage) returns (outcome: Outcome<Error>)
      modifies client
      ensures client.trace == old(client.trace) + Transmission(settings, message, client.behaviour).events
      ensures outcome == Transmission(settings, message, client.behaviour).outcome
    {
      outcome := Pass;
      var ok := client.Connect(settings.server, settings.port, settings.secure);
      if !ok {
        outcome := Fail(TransportFailed(ConnectCall));
      }
      if outcome.Pass? && settings.username.Some? {
        ok := client.Authenticate(settings.username.value, settings.password);
        if !ok {
          outcome := Fail(TransportFailed(AuthenticateCall));
        }
      }
      if outcome.Pass? {
        ok := client.Send(message);
        if !ok {
          outcome := Fail(TransportFailed(SendCall));
        }
      }
      if outcome.Pass? {
        ok := client.Disconnect(true);
        if !ok {
          outcome := Fail(TransportFailed(DisconnectCall));
        }
      }
      client.Dispose();
    }
  }
}
