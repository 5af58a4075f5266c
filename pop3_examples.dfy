/**
 * The POP3 unit-test scenarios as statements about the model: the mocked
 * configuration gives host foo2.com, port "321", secure "false" and the
 * credentials xxx2 / yyy2; node values written in Hyperlambda are text.
 */
module Pop3Examples {
  import opened Wrappers
  import opened Numbers
  import opened Errors
  import opened Nodes
  import opened ConnectionSettings
  import opened Pop3Fetch

  const TestConfiguration: Configuration := map[
    Key("pop3", "host") := "foo2.com",
    Key("pop3", "port") := "321",
    Key("pop3", "secure") := "false",
    Key("pop3", "username") := "xxx2",
    Key("pop3", "password") := "yyy2"]

  function Leaf(name: string, text: string): Node
  {
    Node(name, VText(text), [])
  }

  /** A server that holds `mailbox` and throws nowhere. */
  function Quiet(mailbox: seq<MimeMessage>): Pop3Behaviour
  {
    Pop3Behaviour(mailbox, false, false, false, {}, {}, false)
  }

  function Invocation(children: seq<Node>): Node
  {
    Node("mail.pop3.fetch", VNone, children)
  }

  /** An invocation holding an optional [server] and a [.lambda] uses the defaults for [max] and [raw]. */
  lemma SettingsWithDefaults(configuration: Configuration, server: Option<Node>, lambda: Node, c: Settings)
    requires server.Some? ==> server.value.name == "server"
    requires lambda.name == ".lambda"
    requires New(configuration, server, "pop3") == Success(c)
    ensures var children := (if server.Some? then [server.value] else []) + [lambda];
            NewPop3Settings(configuration, Invocation(children)) == Success(Pop3Settings(c, 50, false, lambda))
  {
    var children := (if server.Some? then [server.value] else []) + [lambda];
    assert forall k :: 0 <= k < |children| ==> children[k].name in {"server", ".lambda"};
    NoneNamed(children, "max");
    NoneNamed(children, "raw");
    if server.Some? {
      assert children == [server.value, lambda];
      assert FirstIndex(children, "server") == 0;
      assert FirstIndex(children, ".lambda") == 1;
    } else {
      assert children == [lambda];
      assert FirstIndex(children, "server") == 1;
      assert FirstIndex(children, ".lambda") == 0;
    }
    assert FirstOrDefault(children, "server") == server;
    assert FirstOrDefault(children, ".lambda") == Some(lambda);
    assert SingleOrDefault(children, "max") == Success(None);
    assert SingleOrDefault(children, "raw") == Success(None);
  }

  /** With an empty mailbox and nothing throwing: connect, authenticate with credentials, count, disconnect. */
  lemma EmptyMailbox(s: Pop3Settings)
    ensures var c := s.connection;
            Connected(s, Quiet([])) == Run(
              [Connect(c.server, c.port, c.secure)]
              + (if HasCredentials(c) then [Authenticate(c.username.value, c.password)] else [])
              + [GetMessageCount, Disconnect(true)],
              Pass)
  {
    assert Iterations(s, Quiet([]), 0) == Run([], Pass);
  }

  /** Once the settings resolve, the fetch is the connected session. */
  lemma FetchWithSettings(configuration: Configuration, input: Node, b: Pop3Behaviour, s: Pop3Settings)
    requires NewPop3Settings(configuration, input) == Success(s)
    ensures Fetch(configuration, input, b) == Connected(s, b)
  {
  }

  /** With credentials, an empty mailbox and nothing throwing: connect, authenticate, count, disconnect. */
  lemma CredentialedEmptyMailbox(s: Pop3Settings)
    requires HasCredentials(s.connection)
    ensures var c := s.connection;
            Connected(s, Quiet([])) == Run(
              [Connect(c.server, c.port, c.secure), Authenticate(c.username.value, c.password),
               GetMessageCount, Disconnect(true)],
              Pass)
  {
    var c := s.connection;
    EmptyMailbox(s);
    assert [Connect(c.server, c.port, c.secure)] + [Authenticate(c.username.value, c.password)]
             + [GetMessageCount, Disconnect(true)]
           == [Connect(c.server, c.port, c.secure), Authenticate(c.username.value, c.password),
               GetMessageCount, Disconnect(true)];
  }

  /** An invocation with an optional [server], credentials and an empty [.lambda], against an empty mailbox. */
  lemma QuietFetch(configuration: Configuration, server: Option<Node>, c: Settings, input: Node)
    requires server.Some? ==> server.value.name == "server"
    requires New(configuration, server, "pop3") == Success(c)
    requires input == Invocation((if server.Some? then [server.value] else []) + [Node(".lambda", VNone, [])])
    requires HasCredentials(c)
    ensures Fetch(configuration, input, Quiet([])) == Run(
              [Connect(c.server, c.port, c.secure), Authenticate(c.username.value, c.password),
               GetMessageCount, Disconnect(true)],
              Pass)
  {
    var s := Pop3Settings(c, 50, false, Node(".lambda", VNone, []));
    SettingsWithDefaults(configuration, server, Node(".lambda", VNone, []), c);
    FetchWithSettings(configuration, input, Quiet([]), s);
    CredentialedEmptyMailbox(s);
  }

  lemma TestConfigurationLookups()
    ensures Lookup(TestConfiguration, Key("pop3", "host")) == Some("foo2.com")
    ensures Lookup(TestConfiguration, Key("pop3", "port")) == Some("321")
    ensures Lookup(TestConfiguration, Key("pop3", "secure")) == Some("false")
    ensures Lookup(TestConfiguration, Key("pop3", "username")) == Some("xxx2")
    ensures Lookup(TestConfiguration, Key("pop3", "password")) == Some("yyy2")
  {
    forall f, g {
      KeyInjective("pop3", f, g);
    }
  }

  /** The settings are the fields each resolved on its own. */
  lemma FromFields(configuration: Configuration, input: Option<Node>, c: Settings)
    requires Host(configuration, input, "pop3") == Success(c.server)
    requires Port(configuration, input, "pop3") == Success(c.port)
    requires Secure(configuration, input, "pop3") == Success(c.secure)
    requires TextField(configuration, input, "pop3", "username") == Success(c.username)
    requires TextField(configuration, input, "pop3", "password") == Success(c.password)
    ensures New(configuration, input, "pop3") == Success(c)
  {
  }

  /** A field given once under [server] as text. */
  lemma GivenText(configuration: Configuration, input: Option<Node>, field: string, text: string)
    requires Explicit(input, field) == Success(Some(Leaf(field, text)))
    ensures TextField(configuration, input, "pop3", field) == Success(Some(text))
  {
  }

  lemma GivenPort(configuration: Configuration, input: Option<Node>, text: string, port: Int32)
    requires Explicit(input, "port") == Success(Some(Leaf("port", text))) && ParseInt(text) == Some(port)
    ensures Port(configuration, input, "pop3") == Success(port)
  {
  }

  lemma GivenSecure(configuration: Configuration, input: Option<Node>, text: string, secure: bool)
    requires Explicit(input, "secure") == Success(Some(Leaf("secure", text))) && ParseBool(text) == Some(secure)
    ensures Secure(configuration, input, "pop3") == Success(secure)
  {
  }

  /** A field absent under [server] and present in the configuration. */
  lemma ConfiguredText(configuration: Configuration, input: Option<Node>, field: string, text: string)
    requires Explicit(input, field) == Success(None) && Lookup(configuration, Key("pop3", field)) == Some(text)
    ensures TextField(configuration, input, "pop3", field) == Success(Some(text))
  {
  }

  lemma ConfiguredPort(configuration: Configuration, input: Option<Node>, text: string, port: Int32)
    requires Explicit(input, "port") == Success(None) && Lookup(configuration, Key("pop3", "port")) == Some(text)
    requires ParseInt(text) == Some(port)
    ensures Port(configuration, input, "pop3") == Success(port)
  {
  }

  lemma ConfiguredSecure(configuration: Configuration, input: Option<Node>, text: string, secure: bool)
    requires Explicit(input, "secure") == Success(None) && Lookup(configuration, Key("pop3", "secure")) == Some(text)
    requires ParseBool(text) == Some(secure)
    ensures Secure(configuration, input, "pop3") == Success(secure)
  {
  }

  lemma FullServerLookups(server: seq<Node>)
    requires server == [Leaf("host", "foo.com"), Leaf("port", "123"), Leaf("secure", "true"),
                        Leaf("username", "xxx"), Leaf("password", "yyy")]
    ensures var input := Some(Node("server", VNone, server));
            && Explicit(input, "host") == Success(Some(Leaf("host", "foo.com")))
            && Explicit(input, "port") == Success(Some(Leaf("port", "123")))
            && Explicit(input, "secure") == Success(Some(Leaf("secure", "true")))
            && Explicit(input, "username") == Success(Some(Leaf("username", "xxx")))
            && Explicit(input, "password") == Success(Some(Leaf("password", "yyy")))
  {
    assert forall i, j :: 0 <= i < j < |server| ==> server[i].name != server[j].name;
    DistinctNamesFindOne(server, 0);
    DistinctNamesFindOne(server, 1);
    DistinctNamesFindOne(server, 2);
    DistinctNamesFindOne(server, 3);
    DistinctNamesFindOne(server, 4);
  }

  /** The [server] fields resolve to themselves. */
  lemma FullServerSettings(configuration: Configuration, server: seq<Node>)
    requires server == [Leaf("host", "foo.com"), Leaf("port", "123"), Leaf("secure", "true"),
                        Leaf("username", "xxx"), Leaf("password", "yyy")]
    ensures New(configuration, Some(Node("server", VNone, server)), "pop3") == Success(Settings("foo.com", 123, true, Some("xxx"), Some("yyy")))
  {
    var node := Some(Node("server", VNone, server));
    ParsesSampleTexts();
    FullServerLookups(server);
    GivenText(configuration, node, "host", "foo.com");
    GivenPort(configuration, node, "123", 123);
    GivenSecure(configuration, node, "true", true);
    GivenText(configuration, node, "username", "xxx");
    GivenText(configuration, node, "password", "yyy");
    FromFields(configuration, node, Settings("foo.com", 123, true, Some("xxx"), Some("yyy")));
  }

  /** Every field given under [server]: the configuration plays no part. */
  lemma ConnectWithServer(configuration: Configuration, server: seq<Node>, input: Node)
    requires server == [Leaf("host", "foo.com"), Leaf("port", "123"), Leaf("secure", "true"),
                        Leaf("username", "xxx"), Leaf("password", "yyy")]
    requires input == Invocation([Node("server", VNone, server), Node(".lambda", VNone, [])])
    ensures Fetch(configuration, input, Quiet([])) == Run(
              [Connect("foo.com", 123, true), Authenticate("xxx", Some("yyy")), GetMessageCount, Disconnect(true)],
              Pass)
  {
    FullServerSettings(configuration, server);
    QuietFetch(configuration, Some(Node("server", VNone, server)), Settings("foo.com", 123, true, Some("xxx"), Some("yyy")), input);
  }

  lemma NoHostLookups(server: seq<Node>)
    requires server == [Leaf("port", "123"), Leaf("secure", "true"), Leaf("username", "xxx"), Leaf("password", "yyy")]
    ensures var input := Some(Node("server", VNone, server));
            && Explicit(input, "host") == Success(None)
            && Explicit(input, "port") == Success(Some(Leaf("port", "123")))
            && Explicit(input, "secure") == Success(Some(Leaf("secure", "true")))
            && Explicit(input, "username") == Success(Some(Leaf("username", "xxx")))
            && Explicit(input, "password") == Success(Some(Leaf("password", "yyy")))
  {
    assert forall i, j :: 0 <= i < j < |server| ==> server[i].name != server[j].name;
    NoneNamed(server, "host");
    DistinctNamesFindOne(server, 0);
    DistinctNamesFindOne(server, 1);
    DistinctNamesFindOne(server, 2);
    DistinctNamesFindOne(server, 3);
  }

  /** The host comes from the configuration, the rest from [server]. */
  lemma NoHostSettings(server: seq<Node>)
    requires server == [Leaf("port", "123"), Leaf("secure", "true"), Leaf("username", "xxx"), Leaf("password", "yyy")]
    ensures New(TestConfiguration, Some(Node("server", VNone, server)), "pop3") == Success(Settings("foo2.com", 123, true, Some("xxx"), Some("yyy")))
  {
    var node := Some(Node("server", VNone, server));
    TestConfigurationLookups();
    ParsesSampleTexts();
    NoHostLookups(server);
    ConfiguredText(TestConfiguration, node, "host", "foo2.com");
    GivenPort(TestConfiguration, node, "123", 123);
    GivenSecure(TestConfiguration, node, "true", true);
    GivenText(TestConfiguration, node, "username", "xxx");
    GivenText(TestConfiguration, node, "password", "yyy");
    FromFields(TestConfiguration, node, Settings("foo2.com", 123, true, Some("xxx"), Some("yyy")));
  }

  /** Only the host is missing under [server]: it comes from the configuration. */
  lemma ConnectWithConfig01(server: seq<Node>, input: Node)
    requires server == [Leaf("port", "123"), Leaf("secure", "true"), Leaf("username", "xxx"), Leaf("password", "yyy")]
    requires input == Invocation([Node("server", VNone, server), Node(".lambda", VNone, [])])
    ensures Fetch(TestConfiguration, input, Quiet([])) == Run(
              [Connect("foo2.com", 123, true), Authenticate("xxx", Some("yyy")), GetMessageCount, Disconnect(true)],
              Pass)
  {
    NoHostSettings(server);
    QuietFetch(TestConfiguration, Some(Node("server", VNone, server)), Settings("foo2.com", 123, true, Some("xxx"), Some("yyy")), input);
  }

  lemma CredentialsLookups(server: seq<Node>)
    requires server == [Leaf("username", "xxx"), Leaf("password", "yyy")]
    ensures var input := Some(Node("server", VNone, server));
            && Explicit(input, "host") == Success(None)
            && Explicit(input, "port") == Success(None)
            && Explicit(input, "secure") == Success(None)
            && Explicit(input, "username") == Success(Some(Leaf("username", "xxx")))
            && Explicit(input, "password") == Success(Some(Leaf("password", "yyy")))
  {
    NoneNamed(server, "host");
    NoneNamed(server, "port");
    NoneNamed(server, "secure");
    DistinctNamesFindOne(server, 0);
    DistinctNamesFindOne(server, 1);
  }

  /** Host, port and secure come from the configuration, the credentials from [server]. */
  lemma CredentialsSettings(server: seq<Node>)
    requires server == [Leaf("username", "xxx"), Leaf("password", "yyy")]
    ensures New(TestConfiguration, Some(Node("server", VNone, server)), "pop3") == Success(Settings("foo2.com", 321, false, Some("xxx"), Some("yyy")))
  {
    var node := Some(Node("server", VNone, server));
    TestConfigurationLookups();
    ParsesSampleTexts();
    CredentialsLookups(server);
    ConfiguredText(TestConfiguration, node, "host", "foo2.com");
    ConfiguredPort(TestConfiguration, node, "321", 321);
    ConfiguredSecure(TestConfiguration, node, "false", false);
    GivenText(TestConfiguration, node, "username", "xxx");
    GivenText(TestConfiguration, node, "password", "yyy");
    FromFields(TestConfiguration, node, Settings("foo2.com", 321, false, Some("xxx"), Some("yyy")));
  }

  /** Only credentials under [server]: host, port and secure come from the configuration. */
  lemma ConnectWithConfig02(server: seq<Node>, input: Node)
    requires server == [Leaf("username", "xxx"), Leaf("password", "yyy")]
    requires input == Invocation([Node("server", VNone, server), Node(".lambda", VNone, [])])
    ensures Fetch(TestConfiguration, input, Quiet([])) == Run(
              [Connect("foo2.com", 321, false), Authenticate("xxx", Some("yyy")), GetMessageCount, Disconnect(true)],
              Pass)
  {
    CredentialsSettings(server);
    QuietFetch(TestConfiguration, Some(Node("server", VNone, server)), Settings("foo2.com", 321, false, Some("xxx"), Some("yyy")), input);
  }

  /** What the mocked configuration alone resolves to. */
  lemma ConfiguredSettings(server: Option<Node>)
    requires server.Some? ==> server.value.children == []
    ensures New(TestConfiguration, server, "pop3") == Success(Settings("foo2.com", 321, false, Some("xxx2"), Some("yyy2")))
  {
    TestConfigurationLookups();
    ParsesSampleTexts();
    ConfiguredText(TestConfiguration, server, "host", "foo2.com");
    ConfiguredPort(TestConfiguration, server, "321", 321);
    ConfiguredSecure(TestConfiguration, server, "false", false);
    ConfiguredText(TestConfiguration, server, "username", "xxx2");
    ConfiguredText(TestConfiguration, server, "password", "yyy2");
    FromFields(TestConfiguration, server, Settings("foo2.com", 321, false, Some("xxx2"), Some("yyy2")));
  }

  /** An empty [server]: everything, credentials included, comes from the configuration. */
  lemma ConnectWithConfig03(input: Node)
    requires input == Invocation([Node("server", VNone, []), Node(".lambda", VNone, [])])
    ensures Fetch(TestConfiguration, input, Quiet([])) == Run(
              [Connect("foo2.com", 321, false), Authenticate("xxx2", Some("yyy2")), GetMessageCount, Disconnect(true)],
              Pass)
  {
    var server := Some(Node("server", VNone, []));
    ConfiguredSettings(server);
    QuietFetch(TestConfiguration, server, Settings("foo2.com", 321, false, Some("xxx2"), Some("yyy2")), input);
  }

  /** No [server] at all: every field comes from the configuration. */
  lemma ConnectWithConfig04(input: Node)
    requires input == Invocation([Node(".lambda", VNone, [])])
    ensures Fetch(TestConfiguration, input, Quiet([])) == Run(
              [Connect("foo2.com", 321, false), Authenticate("xxx2", Some("yyy2")), GetMessageCount, Disconnect(true)],
              Pass)
  {
    ConfiguredSettings(None);
    assert [] + [Node(".lambda", VNone, [])] == [Node(".lambda", VNone, [])];
    QuietFetch(TestConfiguration, None, Settings("foo2.com", 321, false, Some("xxx2"), Some("yyy2")), input);
  }

  /** The message the test's server returns at index 0, with the node `.mime.parse` makes of its body. */
  function JoeysMessage(text: string): MimeMessage
  {
    MimeMessage(
      Some("How you doin?"),
      [Mailbox("Joey", "joey@friends.com")],
      [Mailbox("Alice", "alice@wonderland.com")],
      [], [],
      text,
      Node("entity", VText("text/plain"), [Leaf("content", "Body of message")]))
  }

  /** The [.message] node made of that message: subject, one sender, one recipient, the plain-text entity. */
  lemma JoeysMessageNode(text: string, m: MimeMessage)
    requires m == JoeysMessage(text)
    ensures MessageNode(m, false) == Node(".message", VNone, [
              Node("subject", VText("How you doin?"), []),
              Node("from", VNone, [Leaf("Joey", "joey@friends.com")]),
              Node("to", VNone, [Leaf("Alice", "alice@wonderland.com")]),
              Node("entity", VText("text/plain"), [Leaf("content", "Body of message")])])
  {
    assert m.from[..0] == [] && m.to[..0] == [];
    assert MailboxNodes(m.from) == [Leaf("Joey", "joey@friends.com")];
    assert MailboxNodes(m.to) == [Leaf("Alice", "alice@wonderland.com")];
  }

  /** One message, nothing throwing, credentials: the callback is evaluated once, on the copy holding it. */
  lemma SingleMessage(s: Pop3Settings, m: MimeMessage)
    requires HasCredentials(s.connection) && s.max >= 1
    ensures var c := s.connection;
            Connected(s, Quiet([m])) == Run(
              [Connect(c.server, c.port, c.secure), Authenticate(c.username.value, c.password), GetMessageCount,
               GetMessage(0), Eval(WithMessage(s.lambda, m, s.raw)), Disconnect(true)],
              Pass)
  {
    var c := s.connection;
    var b := Quiet([m]);
    IterationCases(s, b, 0);
    assert Iterations(s, b, 1) == Run([], Pass);
    var loop := [GetMessage(0), Eval(WithMessage(s.lambda, m, s.raw))];
    assert Iterations(s, b, 0) == Run(loop, Pass);
    assert Session(s, b) == Run([Authenticate(c.username.value, c.password)] + [GetMessageCount] + loop, Pass);
  }

  /**
   * One message on the server: it is retrieved once, at index 0, and the
   * callback is evaluated once, on a copy whose first child is that message.
   */
  lemma RetrieveOneMessage(text: string, callback: seq<Node>, input: Node)
    requires input == Invocation([Node(".lambda", VNone, callback)])
    ensures Fetch(TestConfiguration, input, Quiet([JoeysMessage(text)])) == Run(
              [Connect("foo2.com", 321, false), Authenticate("xxx2", Some("yyy2")), GetMessageCount,
               GetMessage(0), Eval(Node(".lambda", VNone, [MessageNode(JoeysMessage(text), false)] + callback)),
               Disconnect(true)],
              Pass)
  {
    var lambda := Node(".lambda", VNone, callback);
    var c := Settings("foo2.com", 321, false, Some("xxx2"), Some("yyy2"));
    var s := Pop3Settings(c, 50, false, lambda);
    ConfiguredSettings(None);
    SettingsWithDefaults(TestConfiguration, None, lambda, c);
    assert [] + [lambda] == [lambda];
    FetchWithSettings(TestConfiguration, input, Quiet([JoeysMessage(text)]), s);
    SingleMessage(s, JoeysMessage(text));
  }
}
