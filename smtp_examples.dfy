/**
 * A send against the mocked SMTP configuration (host foo2.com, port "321",
 * secure "false", credentials xxx2 / yyy2), with every connection field left
 * to the configuration.
 */
module SmtpExamples {
  import opened Wrappers
  import opened Numbers
  import opened Errors
  import opened Nodes
  import opened ConnectionSettings
  import opened SmtpSend
  import opened SmtpProperties

  const SmtpConfiguration: Configuration := map[
    Key("smtp", "host") := "foo2.com",
    Key("smtp", "port") := "321",
    Key("smtp", "secure") := "false",
    Key("smtp", "username") := "xxx2",
    Key("smtp", "password") := "yyy2"]

  lemma SmtpConfigurationLookups()
    ensures Lookup(SmtpConfiguration, Key("smtp", "host")) == Some("foo2.com")
    ensures Lookup(SmtpConfiguration, Key("smtp", "port")) == Some("321")
    ensures Lookup(SmtpConfiguration, Key("smtp", "secure")) == Some("false")
    ensures Lookup(SmtpConfiguration, Key("smtp", "username")) == Some("xxx2")
    ensures Lookup(SmtpConfiguration, Key("smtp", "password")) == Some("yyy2")
  {
    forall f, g {
      KeyInjective("smtp", f, g);
    }
  }

  /** An invocation without connection children takes every field from the configuration. */
  lemma ConfiguredSmtpSettings(input: Node)
    requires forall k :: 0 <= k < |input.children| ==>
               input.children[k].name !in {"host", "port", "secure", "username", "password"}
    ensures New(SmtpConfiguration, Some(input), "smtp") ==
              Success(Settings("foo2.com", 321, false, Some("xxx2"), Some("yyy2")))
  {
    SmtpConfigurationLookups();
    ParsesSampleTexts();
    NoneNamed(input.children, "host");
    NoneNamed(input.children, "port");
    NoneNamed(input.children, "secure");
    NoneNamed(input.children, "username");
    NoneNamed(input.children, "password");
    var node := Some(input);
    assert Explicit(node, "host") == Success(None) && Explicit(node, "port") == Success(None);
    assert Explicit(node, "secure") == Success(None);
    assert Explicit(node, "username") == Success(None) && Explicit(node, "password") == Success(None);
    assert TextField(SmtpConfiguration, node, "smtp", "host") == Success(Some("foo2.com"));
    assert Port(SmtpConfiguration, node, "smtp") == Success(321);
    assert Secure(SmtpConfiguration, node, "smtp") == Success(false);
    assert TextField(SmtpConfiguration, node, "smtp", "username") == Success(Some("xxx2"));
    assert TextField(SmtpConfiguration, node, "smtp", "password") == Success(Some("yyy2"));
  }

  /** The first of three children carrying `name`, if any. */
  lemma FirstOfThree(children: seq<Node>, name: string)
    requires |children| == 3
    ensures FirstOrDefault(children, name) ==
              if children[0].name == name then Some(children[0])
              else if children[1].name == name then Some(children[1])
              else if children[2].name == name then Some(children[2])
              else None
  {
    var k := FirstIndex(children, name);
    assert k < 3 ==> children[k].name == name;
  }

  /** [message], [from] and [to] only: no subject, no display names. */
  lemma MessageLookups(input: Node, message: Node)
    requires message.name == "message"
    requires input.children == [message, Node("from", VText("jane@doe.com"), []), Node("to", VText("john@doe.com"), [])]
    ensures FirstOrDefault(input.children, "message") == Some(message)
    ensures OptionalText(input, "subject") == Success(None)
    ensures OptionalText(input, "from") == Success(Some("jane@doe.com"))
    ensures OptionalText(input, "from-name") == Success(None)
    ensures OptionalText(input, "to") == Success(Some("john@doe.com"))
    ensures OptionalText(input, "to-name") == Success(None)
  {
    FirstOfThree(input.children, "message");
    FirstOfThree(input.children, "subject");
    FirstOfThree(input.children, "from");
    FirstOfThree(input.children, "from-name");
    FirstOfThree(input.children, "to");
    FirstOfThree(input.children, "to-name");
  }

  /** The message the invocation assembles: the created entity as body, one sender, one recipient. */
  lemma ComposedSample(input: Node, message: Node, entity: nat, sent: OutMessage)
    requires message.name == "message"
    requires input.children == [message, Node("from", VText("jane@doe.com"), []), Node("to", VText("john@doe.com"), [])]
    requires sent == OutMessage(Some(entity), None,
                                [MailboxAddress(None, "jane@doe.com")], [MailboxAddress(None, "john@doe.com")])
    ensures Compose(input, map[message := VEntity(entity)]) == Success(sent)
  {
    MessageLookups(input, message);
  }

  /** Once the settings and the message are both in hand, the send is the transmission of that message. */
  lemma SendsComposed(configuration: Configuration, input: Node, mime: MimeCreator, b: SmtpBehaviour,
                      settings: Settings, message: OutMessage)
    requires New(configuration, Some(input), "smtp") == Success(settings)
    requires Compose(input, mime) == Success(message)
    ensures SendMail(configuration, input, mime, b) == Transmission(settings, message, b)
  {
  }

  /** With a username and nothing throwing, the five calls in order. */
  lemma CredentialedSend(settings: Settings, message: OutMessage, b: SmtpBehaviour)
    requires settings.username.Some?
    requires !b.connectFails && !b.authenticateFails && !b.sendFails && !b.disconnectFails
    ensures Transmission(settings, message, b) == Run(
              [Connect(settings.server, settings.port, settings.secure),
               Authenticate(settings.username.value, settings.password),
               Send(message), Disconnect(true), Dispose],
              Pass)
  {
    SuccessfulSend(settings, message, b);
    assert [Connect(settings.server, settings.port, settings.secure)]
             + [Authenticate(settings.username.value, settings.password)]
             + [Send(message), Disconnect(true), Dispose]
           == [Connect(settings.server, settings.port, settings.secure),
               Authenticate(settings.username.value, settings.password),
               Send(message), Disconnect(true), Dispose];
  }

  /**
   * Connect to the configured server, authenticate with the configured
   * credentials, send one message from jane@doe.com to john@doe.com with the
   * entity `.mime.create` made, disconnect, dispose.
   */
  lemma ConfiguredSend(configuration: Configuration, input: Node, message: Node, mime: MimeCreator, entity: nat,
                       sent: OutMessage)
    requires configuration == SmtpConfiguration
    requires message.name == "message" && mime == map[message := VEntity(entity)]
    requires input.children == [message, Node("from", VText("jane@doe.com"), []), Node("to", VText("john@doe.com"), [])]
    requires sent == OutMessage(Some(entity), None,
                                [MailboxAddress(None, "jane@doe.com")], [MailboxAddress(None, "john@doe.com")])
    ensures SendMail(configuration, input, mime, SmtpBehaviour(false, false, false, false))
            == Run([Connect("foo2.com", 321, false), Authenticate("xxx2", Some("yyy2")), Send(sent),
                    Disconnect(true), Dispose],
                   Pass)
  {
    var settings := Settings("foo2.com", 321, false, Some("xxx2"), Some("yyy2"));
    var b := SmtpBehaviour(false, false, false, false);
    ConfiguredSmtpSettings(input);
    ComposedSample(input, message, entity, sent);
    SendsComposed(configuration, input, mime, b, settings, sent);
    CredentialedSend(settings, sent, b);
  }
}
