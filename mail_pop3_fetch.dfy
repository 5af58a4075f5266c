/**
 * The `mail.pop3.fetch` slot: resolve the settings, connect, authenticate when
 * there are credentials, count the messages, and for each index the bound
 * admits fetch the message, put it first in a fresh copy of the [.lambda]
 * callback and evaluate that copy; disconnect on every exit once connected.
 */
module Pop3Fetch {
  import opened Wrappers
  import opened Numbers
  import opened Errors
  import opened Nodes
  import opened ConnectionSettings

  /** An entry of a header address list: a mailbox, or another kind of address (a group). */
  datatype Address = Mailbox(name: string, address: string) | OtherAddress

  /**
   * A retrieved message: its headers, its full text (`ToString()`), and the
   * node the `.mime.parse` slot produces for its body.
   */
  datatype MimeMessage = MimeMessage(
    subject: Option<string>,
    from: seq<Address>,
    to: seq<Address>,
    cc: seq<Address>,
    bcc: seq<Address>,
    text: string,
    body: Node)

  datatype Pop3Settings = Pop3Settings(connection: Settings, max: Int32, raw: bool, lambda: Node)

  /**
   * The `Pop3Settings` constructor: the connection from the first [server]
   * child, then [max] (default 50), [raw] (default false) and the first
   * [.lambda] child, which is mandatory.
   */
  function NewPop3Settings(configuration: Configuration, input: Node): Result<Pop3Settings, Error>
  {
    var connection :- New(configuration, FirstOrDefault(input.children, "server"), "pop3");
    var maxChild :- SingleOrDefault(input.children, "max");
    var max :- if maxChild.Some? then AsInt(maxChild.value.value) else Success(50);
    var rawChild :- SingleOrDefault(input.children, "raw");
    var raw :- if rawChild.Some? then AsBool(rawChild.value.value) else Success(false);
    var lambda :- match FirstOrDefault(input.children, ".lambda")
                  case Some(lambda) => Success(lambda)
                  case None => Failure(MissingLambda);
    Success(Pop3Settings(connection, max, raw, lambda))
  }

  /** The loop condition, `Done` in the source although the loop runs while it holds. */
  function Done(idx: int, count: int, max: int): bool
  {
    idx < count && (max == -1 || idx < max)
  }

  /** How many indices the loop visits: all of them when max is -1, none when max is below -1. */
  function VisitCount(count: nat, max: int): (n: nat)
    ensures n <= count
    ensures max >= 0 ==> n <= max
    ensures forall idx :: 0 <= idx ==> (Done(idx, count, max) <==> idx < n)
  {
    if max == -1 then count
    else if max < 0 then 0
    else if max < count then max
    else count
  }

  function MailboxNode(a: Address): Node
    requires a.Mailbox?
  {
    Node(a.name, VText(a.address), [])
  }

  /** The mailboxes of an address list, in order; other kinds of address are dropped. */
  function Mailboxes(items: seq<Address>): (r: seq<Address>)
    ensures |r| <= |items|
    ensures forall k :: 0 <= k < |r| ==> r[k].Mailbox?
  {
    if items == [] then []
    else Mailboxes(items[..|items| - 1]) + (if items[|items| - 1].Mailbox? then [items[|items| - 1]] else [])
  }

  /** One name→address child per mailbox of the list. */
  function MailboxNodes(items: seq<Address>): seq<Node>
  {
    if items == [] then []
    else
      var last := items[|items| - 1];
      MailboxNodes(items[..|items| - 1]) + (if last.Mailbox? then [MailboxNode(last)] else [])
  }

  /** The group node `AddRecipient` adds for a list: none for an empty list. */
  function RecipientGroup(items: seq<Address>, name: string): seq<Node>
  {
    if items == [] then [] else [Node(name, VNone, MailboxNodes(items))]
  }

  function SubjectNode(message: MimeMessage): Node
  {
    Node("subject", if message.subject.Some? then VText(message.subject.value) else VNone, [])
  }

  function EntityNode(message: MimeMessage): Node
  {
    Node("entity", message.body.value, message.body.children)
  }

  /** The [.message] node `HandleMessage` builds for one message. */
  function MessageNode(message: MimeMessage, raw: bool): Node
  {
    if raw then Node(".message", VText(message.text), [])
    else Node(".message", VNone,
      [SubjectNode(message)]
      + RecipientGroup(message.from, "from")
      + RecipientGroup(message.to, "to")
      + RecipientGroup(message.cc, "cc")
      + RecipientGroup(message.bcc, "bcc")
      + [EntityNode(message)])
  }

  /** A copy of the callback with the [.message] node inserted as its first child. */
  function WithMessage(lambda: Node, message: MimeMessage, raw: bool): Node
  {
    lambda.(children := [MessageNode(message, raw)] + lambda.children)
  }

  /**
   * `AddRecipient`: nothing for an empty list; otherwise one group node,
   * holding a child per mailbox in list order, appended to `node`.
   */
  method AddRecipient(items: seq<Address>, node: Node, nodeName: string) returns (result: Node)
    ensures result == node.(children := node.children + RecipientGroup(items, nodeName))
  {
    if items == [] {
      return node;
    }
    var collection: seq<Node> := [];
    for i := 0 to |items|
      invariant collection == MailboxNodes(items[..i])
    {
      assert items[..i + 1][..i] == items[..i];
      var item := items[i];
      if item.Mailbox? {
        collection := collection + [Node(item.name, VText(item.address), [])];
      }
    }
    assert items[..|items|] == items;
    result := node.(children := node.children + [Node(nodeName, VNone, collection)]);
  }

  /**
   * `HandleMessage`: the callback copy with the message inserted first, as its
   * full text in raw mode and as subject, recipient groups and parsed entity
   * otherwise.
   */
  method HandleMessage(message: MimeMessage, lambda: Node, raw: bool) returns (result: Node)
    ensures result == WithMessage(lambda, message, raw)
  {
    var messageNode := Node(".message", VNone, []);
    if raw {
      messageNode := messageNode.(value := VText(message.text));
    } else {
      var subject := if message.subject.Some? then VText(message.subject.value) else VNone;
      messageNode := messageNode.(children := messageNode.children + [Node("subject", subject, [])]);
      messageNode := AddRecipient(message.from, messageNode, "from");
      messageNode := AddRecipient(message.to, messageNode, "to");
      messageNode := AddRecipient(message.cc, messageNode, "cc");
      messageNode := AddRecipient(message.bcc, messageNode, "bcc");
      var entity := Node("entity", message.body.value, []);
      entity := entity.(children := entity.children + message.body.children);
      assert [] + message.body.children == message.body.children;
      messageNode := messageNode.(children := messageNode.children + [entity]);
      assert messageNode == MessageNode(message, false);
    }
    result := lambda.(children := [messageNode] + lambda.children);
  }

  /** What the slot asks of the POP3 client and of the signaler's `eval`, in order. */
  datatype Pop3Event =
    | Connect(host: string, port: Int32, useSsl: bool)
    | Authenticate(username: string, password: Option<string>)
    | GetMessageCount
    | GetMessage(index: nat)
    | Eval(lambda: Node)
    | Disconnect(quit: bool)

  /**
   * How the server and the callbacks behave: the mailbox, and which calls
   * throw. Retrieval throws at the listed indices, `eval` throws for the listed
   * callback copies.
   */
  datatype Pop3Behaviour = Pop3Behaviour(
    mailbox: seq<MimeMessage>,
    connectFails: bool,
    authenticateFails: bool,
    countFails: bool,
    failingIndices: set<nat>,
    failingLambdas: set<Node>,
    disconnectFails: bool)

  /** The POP3 client together with the signaler, recording every call made on them. */
  class Pop3Session {
    var trace: seq<Pop3Event>
    const behaviour: Pop3Behaviour

    constructor (behaviour: Pop3Behaviour)
      ensures this.behaviour == behaviour && trace == []
    {
      this.behaviour := behaviour;
      trace := [];
    }

    method Connect(host: string, port: Int32, useSsl: bool) returns (ok: bool)
      modifies this
      ensures trace == old(trace) + [Pop3Event.Connect(host, port, useSsl)]
      ensures ok == !behaviour.connectFails
    {
      trace := trace + [Pop3Event.Connect(host, port, useSsl)];
      ok := !behaviour.connectFails;
    }

    method Authenticate(username: string, password: Option<string>) returns (ok: bool)
      modifies this
      ensures trace == old(trace) + [Pop3Event.Authenticate(username, password)]
      ensures ok == !behaviour.authenticateFails
    {
      trace := trace + [Pop3Event.Authenticate(username, password)];
      ok := !behaviour.authenticateFails;
    }

    method GetMessageCount() returns (count: Option<nat>)
      modifies this
      ensures trace == old(trace) + [Pop3Event.GetMessageCount]
      ensures count == if behaviour.countFails then None else Some(|behaviour.mailbox|)
    {
      trace := trace + [Pop3Event.GetMessageCount];
      count := if behaviour.countFails then None else Some(|behaviour.mailbox|);
    }

    method GetMessage(index: nat) returns (message: Option<MimeMessage>)
      modifies this
      ensures trace == old(trace) + [Pop3Event.GetMessage(index)]
      ensures message == if index in behaviour.failingIndices || index >= |behaviour.mailbox| then None
                         else Some(behaviour.mailbox[index])
    {
      trace := trace + [Pop3Event.GetMessage(index)];
      message := if index in behaviour.failingIndices || index >= |behaviour.mailbox| then None
                 else Some(behaviour.mailbox[index]);
    }

    /** `signaler.Signal("eval", lambda)`. */
    method Eval(lambda: Node) returns (ok: bool)
      modifies this
      ensures trace == old(trace) + [Pop3Event.Eval(lambda)]
      ensures ok == (lambda !in behaviour.failingLambdas)
    {
      trace := trace + [Pop3Event.Eval(lambda)];
      ok := lambda !in behaviour.failingLambdas;
    }

    method Disconnect(quit: bool) returns (ok: bool)
      modifies this
      ensures trace == old(trace) + [Pop3Event.Disconnect(quit)]
      ensures ok == !behaviour.disconnectFails
    {
      trace := trace + [Pop3Event.Disconnect(quit)];
      ok := !behaviour.disconnectFails;
    }
  }

  /** The calls one invocation makes, and how it ends. */
  datatype Run = Run(events: seq<Pop3Event>, outcome: Outcome<Error>)

  /** The loop from index `idx` on: fetch, insert, evaluate, until the bound or the first exception. */
  function Iterations(s: Pop3Settings, b: Pop3Behaviour, idx: nat): Run
    decreases |b.mailbox| - idx
  {
    if !Done(idx, |b.mailbox|, s.max) then Run([], Pass)
    else if idx in b.failingIndices then
      Run([GetMessage(idx)], Fail(TransportFailed(GetMessageCall(idx))))
    else
      var lambda := WithMessage(s.lambda, b.mailbox[idx], s.raw);
      if lambda in b.failingLambdas then Run([GetMessage(idx), Eval(lambda)], Fail(EvalFailed))
      else
        var rest := Iterations(s, b, idx + 1);
        Run([GetMessage(idx), Eval(lambda)] + rest.events, rest.outcome)
  }

  /** The three ways one pass of the loop can go: the retrieval throws, the callback throws, or both succeed. */
  lemma IterationCases(s: Pop3Settings, b: Pop3Behaviour, idx: nat)
    requires Done(idx, |b.mailbox|, s.max)
    ensures idx < |b.mailbox|
    ensures idx in b.failingIndices ==>
              Iterations(s, b, idx) == Run([GetMessage(idx)], Fail(TransportFailed(GetMessageCall(idx))))
    ensures idx !in b.failingIndices && WithMessage(s.lambda, b.mailbox[idx], s.raw) in b.failingLambdas ==>
              Iterations(s, b, idx) == Run([GetMessage(idx), Eval(WithMessage(s.lambda, b.mailbox[idx], s.raw))], Fail(EvalFailed))
    ensures idx !in b.failingIndices && WithMessage(s.lambda, b.mailbox[idx], s.raw) !in b.failingLambdas ==>
              && Iterations(s, b, idx).events ==
                   [GetMessage(idx), Eval(WithMessage(s.lambda, b.mailbox[idx], s.raw))] + Iterations(s, b, idx + 1).events
              && Iterations(s, b, idx).outcome == Iterations(s, b, idx + 1).outcome
  {
  }

  /** Counting the messages, then the loop: what follows authentication. */
  function Listing(s: Pop3Settings, b: Pop3Behaviour): Run
  {
    if b.countFails then Run([GetMessageCount], Fail(TransportFailed(GetMessageCountCall)))
    else
      var loop := Iterations(s, b, 0);
      Run([GetMessageCount] + loop.events, loop.outcome)
  }

  /** The `try` block: authenticate when there are credentials, count, then the loop. */
  function Session(s: Pop3Settings, b: Pop3Behaviour): Run
  {
    var c := s.connection;
    var auth := if HasCredentials(c) then [Authenticate(c.username.value, c.password)] else [];
    if HasCredentials(c) && b.authenticateFails then Run(auth, Fail(TransportFailed(AuthenticateCall)))
    else if b.countFails then Run(auth + [GetMessageCount], Fail(TransportFailed(GetMessageCountCall)))
    else
      var loop := Iterations(s, b, 0);
      Run(auth + [GetMessageCount] + loop.events, loop.outcome)
  }

  /**
   * One invocation of the slot: settings first, and no call at all when they
   * fail; then the connection.
   */
  function Fetch(configuration: Configuration, input: Node, b: Pop3Behaviour): Run
  {
    match NewPop3Settings(configuration, input)
    case Failure(e) => Run([], Fail(e))
    case Success(s) => Connected(s, b)
  }

  /**
   * Connect; once connected, the session runs and `Disconnect(true)` follows
   * it on every path. A throwing `Disconnect` replaces the session's outcome,
   * as an exception from a `finally` block does.
   */
  function Connected(s: Pop3Settings, b: Pop3Behaviour): Run
  {
    var connect := Connect(s.connection.server, s.connection.port, s.connection.secure);
    if b.connectFails then Run([connect], Fail(TransportFailed(ConnectCall)))
    else
      var body := Session(s, b);
      Run([connect] + body.events + [Disconnect(true)],
          if b.disconnectFails then Fail(TransportFailed(DisconnectCall)) else body.outcome)
  }

  /** The slot object, with its injected configuration and client. */
  class MailPop3Fetch {
    const configuration: Configuration
    const client: Pop3Session

    constructor (configuration: Configuration, client: Pop3Session)
      ensures this.configuration == configuration && this.client == client
    {
      this.configuration := configuration;
      this.client := client;
    }

    /** `Signal`: the synchronous entry point. */
    method Signal(input: Node) returns (outcome: Outcome<Error>)
      modifies client
      ensures client.trace == old(client.trace) + Fetch(configuration, input, client.behaviour).events
      ensures outcome == Fetch(configuration, input, client.behaviour).outcome
    {
      var settingsOrError := NewPop3Settings(configuration, input);
      if settingsOrError.Failure? {
        return Fail(settingsOrError.error);
      }
      outcome := RunConnected(settingsOrError.value);
    }

    /** Connect, then the `try` block and its `finally`. */
    method RunConnected(settings: Pop3Settings) returns (outcome: Outcome<Error>)
      modifies client
      ensures client.trace == old(client.trace) + Connected(settings, client.behaviour).events
      ensures outcome == Connected(settings, client.behaviour).outcome
    {
      ghost var start := client.trace;
      ghost var body := Session(settings, client.behaviour);
      var connection := settings.connection;
      var ok := client.Connect(connection.server, connection.port, connection.secure);
      if !ok {
        return Fail(TransportFailed(ConnectCall));
      }
      ghost var connect := Connect(connection.server, connection.port, connection.secure);
      // try
      outcome := RunSession(settings);
      // finally
      ok := client.Disconnect(true);
      if !ok {
        outcome := Fail(TransportFailed(DisconnectCall));
      }
      assert client.trace == start + ([connect] + body.events + [Disconnect(true)]);
    }

    /** The body of the `try` block. */
    method RunSession(settings: Pop3Settings) returns (outcome: Outcome<Error>)
      modifies client
      ensures client.trace == old(client.trace) + Session(settings, client.behaviour).events
      ensures outcome == Session(settings, client.behaviour).outcome
    {
      ghost var start := client.trace;
      var connection := settings.connection;
      ghost var auth := if HasCredentials(connection) then [Authenticate(connection.username.value, connection.password)] else [];
      if HasCredentials(connection) {
        var ok := client.Authenticate(connection.username.value, connection.password);
        if !ok {
          return Fail(TransportFailed(AuthenticateCall));
        }
      }
      outcome := RunListing(settings);
      ghost var listing := Listing(settings, client.behaviour);
      assert Session(settings, client.behaviour) == Run(auth + listing.events, listing.outcome);
      assert client.trace == start + (auth + listing.events);
    }

    /** Count the messages; on success, run the loop over them. */
    method RunListing(settings: Pop3Settings) returns (outcome: Outcome<Error>)
      modifies client
      ensures client.trace == old(client.trace) + Listing(settings, client.behaviour).events
      ensures outcome == Listing(settings, client.behaviour).outcome
    {
      var count := client.GetMessageCount();
      if count.None? {
        return Fail(TransportFailed(GetMessageCountCall));
      }
      outcome := RunLoop(settings, count.value);
    }

    /** The `for` loop over message indices, each pass on its own copy of the callback. */
    method RunLoop(settings: Pop3Settings, count: nat) returns (outcome: Outcome<Error>)
      requires count == |client.behaviour.mailbox|
      modifies client
      ensures client.trace == old(client.trace) + Iterations(settings, client.behaviour, 0).events
      ensures outcome == Iterations(settings, client.behaviour, 0).outcome
    {
      ghost var start := client.trace;
      ghost var whole := Iterations(settings, client.behaviour, 0);
      var idx: nat := 0;
      outcome := Pass;
      while outcome.Pass? && Done(idx, count, settings.max)
        invariant outcome.Pass? ==>
          client.trace + Iterations(settings, client.behaviour, idx).events == start + whole.events &&
          Iterations(settings, client.behaviour, idx).outcome == whole.outcome
        invariant outcome.Fail? ==> client.trace == start + whole.events && outcome == whole.outcome
        decreases count - idx, if outcome.Pass? then 1 else 0
      {
        outcome := RetrieveAndEvaluate(settings, idx);
        if outcome.Pass? {
          idx := idx + 1;
        }
      }
    }

    /**
     * One pass of the loop: retrieve message `idx`, insert it into a fresh
     * copy of the callback and evaluate that copy; the first call that throws
     * ends the pass.
     */
    method RetrieveAndEvaluate(settings: Pop3Settings, idx: nat) returns (outcome: Outcome<Error>)
      requires Done(idx, |client.behaviour.mailbox|, settings.max)
      modifies client
      ensures outcome.Pass? ==>
                client.trace + Iterations(settings, client.behaviour, idx + 1).events ==
                  old(client.trace) + Iterations(settings, client.behaviour, idx).events &&
                Iterations(settings, client.behaviour, idx + 1).outcome == Iterations(settings, client.behaviour, idx).outcome
      ensures outcome.Fail? ==>
                client.trace == old(client.trace) + Iterations(settings, client.behaviour, idx).events &&
                outcome == Iterations(settings, client.behaviour, idx).outcome
    {
      IterationCases(settings, client.behaviour, idx);
      var lambda := settings.lambda;
      var message := client.GetMessage(idx);
      if message.None? {
        return Fail(TransportFailed(GetMessageCall(idx)));
      }
      lambda := HandleMessage(message.value, lambda, settings.raw);
      var ok := client.Eval(lambda);
      outcome := if ok then Pass else Fail(EvalFailed);
      assert client.trace + Iterations(settings, client.behaviour, idx + 1).events ==
             old(client.trace) + ([GetMessage(idx), Eval(lambda)] + Iterations(settings, client.behaviour, idx + 1).events);
    }
  }
}
