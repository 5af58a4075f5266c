/**
 * What one `wait.mail.smtp.send` invocation guarantees: the order of its
 * checks, the shape of the message it sends, when it authenticates, and which
 * client calls follow a failure.
 */
module SmtpProperties {
  import opened Wrappers
  import opened Errors
  import opened Nodes
  import opened ConnectionSettings
  import opened SmtpSend

  /** Settings are resolved before anything else: their error wins, and no client is created. */
  lemma SettingsCheckedFirst(configuration: Configuration, input: Node, mime: MimeCreator, b: SmtpBehaviour)
    requires New(configuration, Some(input), "smtp").Failure?
    ensures SendMail(configuration, input, mime, b) == Run([], Fail(New(configuration, Some(input), "smtp").error))
  {
  }

  /** Without a [message] child the invocation fails before `.mime.create` and before any client call. */
  lemma MissingMessageFailsBeforeAnyCall(configuration: Configuration, input: Node, mime: MimeCreator, b: SmtpBehaviour)
    requires New(configuration, Some(input), "smtp").Success?
    requires Named(input.children, "message") == []
    ensures SendMail(configuration, input, mime, b) == Run([], Fail(MissingMessage))
  {
    FirstIsFirstNamed(input.children, "message");
  }

  /**
   * `.mime.create` runs on the first [message] child before the addresses are
   * read: when it throws, that is the error, whatever [from] and [to] hold.
   */
  lemma CreateFailsBeforeAddresses(input: Node, mime: MimeCreator)
    requires FirstOrDefault(input.children, "message").Some?
    requires FirstOrDefault(input.children, "message").value !in mime
    ensures Compose(input, mime) == Failure(MimeCreateFailed)
  {
  }

  /**
   * [from] is read from the invocation node, not from [message], and checked
   * before [to]: with no usable [from] the error is `MissingFrom`, whatever
   * [to] holds and whatever the message node contains.
   */
  lemma FromCheckedBeforeTo(input: Node, mime: MimeCreator)
    requires FirstOrDefault(input.children, "message").Some?
    requires FirstOrDefault(input.children, "message").value in mime
    requires OptionalText(input, "subject").Success?
    requires OptionalText(input, "from") == Success(None)
    ensures Compose(input, mime) == Failure(MissingFrom)
  {
    assert RequiredText(input, "from", MissingFrom) == Failure(MissingFrom);
  }

  /** With a usable sender but no usable [to], the error is `MissingTo`. */
  lemma MissingRecipientFails(input: Node, mime: MimeCreator)
    requires FirstOrDefault(input.children, "message").Some?
    requires FirstOrDefault(input.children, "message").value in mime
    requires OptionalText(input, "subject").Success?
    requires OptionalText(input, "from").Success? && OptionalText(input, "from").value.Some?
    requires OptionalText(input, "from-name").Success?
    requires OptionalText(input, "to") == Success(None)
    ensures Compose(input, mime) == Failure(MissingTo)
  {
    assert RequiredText(input, "to", MissingTo) == Failure(MissingTo);
  }

  /**
   * A message that assembles has exactly one sender and one recipient, built
   * from [from-name]/[from] and [to-name]/[to]; the display names may be null;
   * the subject is that of the first [subject] child, null without one; the
   * body is what `.mime.create` left on the [message] node, if an entity.
   */
  lemma ComposedMessageShape(input: Node, mime: MimeCreator)
    requires Compose(input, mime).Success?
    ensures var m := Compose(input, mime).value;
            var messageNode := FirstOrDefault(input.children, "message");
            && messageNode.Some? && messageNode.value in mime
            && m.body == AsEntity(mime[messageNode.value])
            && OptionalText(input, "subject") == Success(m.subject)
            && |m.from| == 1 && |m.to| == 1
            && OptionalText(input, "from") == Success(Some(m.from[0].address))
            && OptionalText(input, "from-name") == Success(m.from[0].name)
            && OptionalText(input, "to") == Success(Some(m.to[0].address))
            && OptionalText(input, "to-name") == Success(m.to[0].name)
  {
  }

  /** The subject is optional: with no [subject] child the message has a null subject and assembly does not fail on it. */
  lemma SubjectIsOptional(input: Node, mime: MimeCreator)
    requires Named(input.children, "subject") == []
    ensures OptionalText(input, "subject") == Success(None)
    ensures Compose(input, mime).Success? ==> Compose(input, mime).value.subject.None?
  {
    FirstIsFirstNamed(input.children, "subject");
  }

  lemma {:induction false} NamedIgnoresOtherNames(children: seq<Node>, extra: Node, name: string)
    requires extra.name != name
    ensures Named(children + [extra], name) == Named(children, name)
    ensures FirstOrDefault(children + [extra], name) == FirstOrDefault(children, name)
  {
    if children == [] {
      assert [] + [extra] == [extra];
      assert Named([extra], name) == [] + Named([], name);
    } else {
      assert (children + [extra])[1..] == children[1..] + [extra];
      NamedIgnoresOtherNames(children[1..], extra, name);
      FirstIsFirstNamed(children + [extra], name);
      FirstIsFirstNamed(children, name);
    }
  }

  /** A child with another name leaves the explicit lookup of a field as it was. */
  lemma ExtraChildKeepsField(input: Node, extra: Node, field: string)
    requires extra.name != field
    ensures Explicit(Some(input.(children := input.children + [extra])), field) == Explicit(Some(input), field)
  {
    NamedIgnoresOtherNames(input.children, extra, field);
  }

  /**
   * The settings come from the invocation's own children: adding a [server]
   * child holding connection fields changes nothing.
   */
  lemma ServerChildPlaysNoPart(configuration: Configuration, input: Node, server: seq<Node>)
    ensures var extended := input.(children := input.children + [Node("server", VNone, server)]);
            New(configuration, Some(extended), "smtp") == New(configuration, Some(input), "smtp")
  {
    var extra := Node("server", VNone, server);
    ExtraChildKeepsField(input, extra, "host");
    ExtraChildKeepsField(input, extra, "port");
    ExtraChildKeepsField(input, extra, "secure");
    ExtraChildKeepsField(input, extra, "username");
    ExtraChildKeepsField(input, extra, "password");
    SameFieldsSameSettings(configuration, Some(input.(children := input.children + [extra])), Some(input), "smtp");
  }

  /**
   * Once connected, the client authenticates exactly when the username is not
   * null, with the password as resolved, right after connecting.
   */
  lemma AuthenticatesExactlyWithUsername(settings: Settings, message: OutMessage, b: SmtpBehaviour)
    requires !b.connectFails
    ensures var e := Transmission(settings, message, b).events;
            && (settings.username.Some? ==> e[1] == Authenticate(settings.username.value, settings.password))
            && (settings.username.None? ==> forall j :: 0 <= j < |e| ==> !e[j].Authenticate?)
  {
  }

  /**
   * The condition is `Username != null`, not `HasCredentials`: an empty
   * username still authenticates although the settings report no credentials.
   */
  lemma EmptyUsernameStillAuthenticates(settings: Settings, message: OutMessage, b: SmtpBehaviour)
    requires !b.connectFails && settings.username == Some("")
    ensures !HasCredentials(settings)
    ensures Transmission(settings, message, b).events[1] == Authenticate("", settings.password)
  {
  }

  /**
   * Every path through the `using` block ends with exactly one `Dispose`;
   * `Disconnect(true)` is reached only when connect, authenticate and send all
   * succeeded, since it is not in a `finally`; the message is sent at most once.
   */
  lemma DisposeAlwaysDisconnectOnlyAfterSend(settings: Settings, message: OutMessage, b: SmtpBehaviour)
    ensures var e := Transmission(settings, message, b).events;
            var reachedSend := !b.connectFails && !(settings.username.Some? && b.authenticateFails);
            && e[|e| - 1] == Dispose
            && multiset(e)[Dispose] == 1
            && multiset(e)[Send(message)] == (if reachedSend then 1 else 0)
            && multiset(e)[Disconnect(true)] == (if reachedSend && !b.sendFails then 1 else 0)
  {
    var e := Transmission(settings, message, b).events;
    var connect := Connect(settings.server, settings.port, settings.secure);
    if !b.connectFails {
      var auth := if settings.username.Some? then [Authenticate(settings.username.value, settings.password)] else [];
      var tail := if settings.username.Some? && b.authenticateFails then [Dispose]
                  else if b.sendFails then [Send(message), Dispose]
                  else [Send(message), Disconnect(true), Dispose];
      assert e == [connect] + auth + tail;
      assert multiset(e) == multiset([connect]) + multiset(auth) + multiset(tail);
      assert multiset(auth)[Dispose] == 0 && multiset(auth)[Send(message)] == 0 && multiset(auth)[Disconnect(true)] == 0;
    }
  }

  /** When nothing throws: connect, authenticate if there is a username, send, disconnect, dispose. */
  lemma SuccessfulSend(settings: Settings, message: OutMessage, b: SmtpBehaviour)
    requires !b.connectFails && !b.authenticateFails && !b.sendFails && !b.disconnectFails
    ensures Transmission(settings, message, b) == Run(
              [Connect(settings.server, settings.port, settings.secure)]
              + (if settings.username.Some? then [Authenticate(settings.username.value, settings.password)] else [])
              + [Send(message), Disconnect(true), Dispose],
              Pass)
  {
  }

  /** A failure reported after connecting is the first client call that threw. */
  lemma FirstFailureReported(settings: Settings, message: OutMessage, b: SmtpBehaviour)
    ensures var r := Transmission(settings, message, b);
            && (b.connectFails ==> r.outcome == Fail(TransportFailed(ConnectCall)))
            && (!b.connectFails && settings.username.Some? && b.authenticateFails ==>
                  r.outcome == Fail(TransportFailed(AuthenticateCall)))
            && (!b.connectFails && !(settings.username.Some? && b.authenticateFails) && b.sendFails ==>
                  r.outcome == Fail(TransportFailed(SendCall)))
            && (!b.connectFails && !(settings.username.Some? && b.authenticateFails) && !b.sendFails && b.disconnectFails ==>
                  r.outcome == Fail(TransportFailed(DisconnectCall)))
            && (r.outcome.Pass? <==>
                  !b.connectFails && !(settings.username.Some? && b.authenticateFails) && !b.sendFails && !b.disconnectFails)
  {
  }
}
