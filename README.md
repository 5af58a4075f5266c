# magic.lambda.mail in Dafny

A model of the two mail slots of magic.lambda.mail and the connection-settings
resolver they share:

- `mail.pop3.fetch` (`MailPop3Fetch.Signal`) resolves its settings from the
  invocation's first [server] child and the application configuration. It
  connects, authenticates when there are credentials, and counts the messages.
  For each index its bound admits, it retrieves the message, inserts a
  [.message] node first in a fresh copy of the [.lambda] callback, and
  evaluates that copy. `Disconnect(true)` runs in a `finally` block once the
  connection is made.
- `wait.mail.smtp.send` (`MailSmtpSend.SignalAsync`) resolves its settings from
  the invocation node itself. It assembles one message from [message] (through
  `.mime.create`), [subject], [from], [from-name], [to] and [to-name]. Then,
  inside a `using` block, it connects, authenticates when the username is not
  null, sends and disconnects.
- `ConnectionSettings` resolves host, port, secure, username and password.
  Each field takes the first available of: the node's child of that name, the
  configuration key `magic:<type>:<field>`, a default. Host and port are
  mandatory.

Modules and files:

| file | module | what it holds |
|---|---|---|
| `wrappers.dfy` | `Wrappers` | `Option`, `Result` and `Outcome`, for nulls, exceptions and how an invocation ends |
| `errors.dfy` | `Errors` | the exceptions the slots raise, and which client call threw |
| `numbers.dfy` | `Numbers` | `int.Parse`, `bool.Parse` and their `ToString` counterparts |
| `nodes.dfy` | `Nodes` | the parameter tree, `FirstOrDefault`, `SingleOrDefault` and `GetEx<T>` |
| `connection_settings.dfy` | `ConnectionSettings` | the resolver and its precedence properties |
| `mail_pop3_fetch.dfy` | `Pop3Fetch` | the settings, `HandleMessage` and `AddRecipient`, the client as a class that records its calls, and the slot's `Signal` as methods proved against the specification functions `Fetch`, `Connected`, `Session` and `Iterations` |
| `pop3_properties.dfy` | `Pop3Properties` | what one fetch guarantees |
| `pop3_examples.dfy` | `Pop3Examples` | the POP3 unit-test scenarios as lemmas about the model |
| `mail_smtp_send.dfy` | `SmtpSend` | message assembly, the `using` block, and `SignalAsync` proved against `SendMail` |
| `smtp_properties.dfy` | `SmtpProperties` | what one send guarantees |
| `smtp_examples.dfy` | `SmtpExamples` | a send with every connection field taken from the configuration |

The POP3 client and the signaler are one class, `Pop3Session`, and the SMTP
client is another, `SmtpSession`. Each records every call made on it in a
`trace` field. A behaviour value decides which calls throw, so an exception is
a `Fail` outcome that ends the method at the same point the C# exception
would.

## Model

| member | source | states |
|---|---|---|
| `Nodes.Named` | magic.lambda.mail/helpers/ConnectionSettings.cs:24 | the children matched by a name test are children that carry that name, no more than there are children |
| `Nodes.FirstOrDefault` | magic.lambda.mail/MailPop3Fetch.cs:124 | the first child carrying the name, or null when none does |
| `Nodes.FirstIsFirstNamed` | magic.lambda.mail/MailPop3Fetch.cs:124 | `FirstOrDefault` is null exactly when no child has the name, and otherwise is the first child with it |
| `Nodes.SingleOrDefault` | magic.lambda.mail/helpers/ConnectionSettings.cs:24 | throws exactly when two or more children share the name; otherwise agrees with `FirstOrDefault` |
| `Nodes.NoneNamed` | magic.lambda.mail/helpers/ConnectionSettings.cs:24 | when no child has the name, none is matched |
| `Nodes.DistinctNamesFindOne` | magic.lambda.mail/helpers/ConnectionSettings.cs:24-40 | with distinct child names, `SingleOrDefault` on a child's name finds exactly that child |
| `Nodes.AsText` | magic.lambda.mail/helpers/ConnectionSettings.cs:24 | `GetEx<string>()`: null stays null, text is itself, a number or boolean is its `ToString` text, an entity cannot be converted |
| `Nodes.AsInt` | magic.lambda.mail/helpers/ConnectionSettings.cs:28 | `GetEx<int>()`: text through `int.Parse`, a boolean as 1 or 0, an integer as itself; null and an entity cannot be converted |
| `Nodes.AsBool` | magic.lambda.mail/helpers/ConnectionSettings.cs:32 | `GetEx<bool>()`: text through `bool.Parse`, a number as true unless 0, a boolean as itself; null and an entity cannot be converted |
| `Nodes.TypedAndTextValuesAgree` | magic.lambda.mail/helpers/ConnectionSettings.cs:28-33 | an integer or boolean child and its text form convert to the same port or secure flag |
| `Numbers.ParseInt` | magic.lambda.mail/helpers/ConnectionSettings.cs:29 | `int.Parse`: an optional sign and a non-empty run of decimal digits whose value fits in 32 bits, else no value |
| `Numbers.ParseBool` | magic.lambda.mail/helpers/ConnectionSettings.cs:33 | `bool.Parse`: "true" or "false" in any letter case, else no value |
| `Numbers.NatTextDigits` | magic.lambda.mail/helpers/ConnectionSettings.cs:29 | the decimal text of a number is a non-empty digit run denoting that number |
| `Numbers.IntTextRoundTrip` | magic.lambda.mail/helpers/ConnectionSettings.cs:29 | `int.Parse` reads back every integer `ToString` writes |
| `Numbers.ParseIntIgnoresPlusAndZeros` | magic.lambda.mail/helpers/ConnectionSettings.cs:29 | a leading `+` or leading zeros do not change the parsed port |
| `Numbers.BoolText` | magic.lambda.mail/helpers/ConnectionSettings.cs:33 | `bool.Parse` reads back the text `Boolean.ToString` writes |
| `Numbers.ParseBoolCases` | magic.lambda.mail/helpers/ConnectionSettings.cs:33 | `bool.Parse` gives true exactly for "true" and false exactly for "false", in any letter case, and fails otherwise |
| `Numbers.ParsesSampleTexts` | magic.lambda.mail.tests/Common.cs:92-94 | the configured texts "321", "123", "false" and "true" parse to 321, 123, false and true |
| `ConnectionSettings.New` | magic.lambda.mail/helpers/ConnectionSettings.cs:18-41 | the constructor: host, port, secure, username and password resolved in that order, the first failure ending construction |
| `ConnectionSettings.Host` | magic.lambda.mail/helpers/ConnectionSettings.cs:24-26 | the explicit host, else the configured one, else the missing-host error |
| `ConnectionSettings.Port` | magic.lambda.mail/helpers/ConnectionSettings.cs:28-30 | the explicit port converted to an integer, else the configured text through `int.Parse`, else the missing-port error |
| `ConnectionSettings.Secure` | magic.lambda.mail/helpers/ConnectionSettings.cs:32-34 | the explicit flag converted to a boolean, else the configured text through `bool.Parse`, else false |
| `ConnectionSettings.HasCredentials` | magic.lambda.mail/helpers/ConnectionSettings.cs:43 | the username is neither null nor empty; the password plays no part |
| `ConnectionSettings.TextField` | magic.lambda.mail/helpers/ConnectionSettings.cs:24-25 | a present child with a non-null value wins; an absent child, or one holding null, falls back to the configuration key; a conversion error or a duplicate child fails |
| `ConnectionSettings.KeyInjective` | magic.lambda.mail/helpers/ConnectionSettings.cs:25 | two fields of one server type read the same `magic:{type}:{field}` key exactly when they are the same field |
| `ConnectionSettings.GivesOnceIsExplicit` | magic.lambda.mail/helpers/ConnectionSettings.cs:24 | a single child with a given name is what the explicit lookup returns |
| `ConnectionSettings.ExplicitHostShadowsConfiguration` | magic.lambda.mail/helpers/ConnectionSettings.cs:24-26 | an explicit host is used whatever the configuration holds |
| `ConnectionSettings.ConfiguredHostUsedWhenNotGiven` | magic.lambda.mail/helpers/ConnectionSettings.cs:24-26 | without an explicit host the configured one is used, and with neither the error is a missing host |
| `ConnectionSettings.NullHostChildFallsThrough` | magic.lambda.mail/helpers/ConnectionSettings.cs:24-26 | a [host] child holding null gives the configured host, or the missing-host error without one, exactly as an absent child does |
| `ConnectionSettings.ExplicitPortShadowsConfiguration` | magic.lambda.mail/helpers/ConnectionSettings.cs:28-30 | an explicit port, integer or text, is used even when the configured port would not parse |
| `ConnectionSettings.MissingHostReportedFirst` | magic.lambda.mail/helpers/ConnectionSettings.cs:24-30 | with no host anywhere, construction fails with the host error, before the port is looked at |
| `ConnectionSettings.MissingPortFails` | magic.lambda.mail/helpers/ConnectionSettings.cs:28-30 | with a host but no port anywhere, construction fails with the port error |
| `ConnectionSettings.UnparsableConfiguredPortFails` | magic.lambda.mail/helpers/ConnectionSettings.cs:29 | a configured port that `int.Parse` rejects is a format error; an out-of-range digit run is reported the same way |
| `ConnectionSettings.OptionalFieldsNeverFail` | magic.lambda.mail/helpers/ConnectionSettings.cs:32-43 | when secure and the credentials are given nowhere, success depends on host and port alone; the defaults are false, null and null, and there are no credentials |
| `ConnectionSettings.NullInputReadsConfiguration` | magic.lambda.mail/helpers/ConnectionSettings.cs:18-41 | a null node takes every field from the configuration or its default |
| `ConnectionSettings.ExplicitPortWithConfiguredHost` | magic.lambda.mail/helpers/ConnectionSettings.cs:24-30 | fields resolve independently: an explicit port combines with a configured host |
| `ConnectionSettings.SameFieldsSameSettings` | magic.lambda.mail/helpers/ConnectionSettings.cs:18-41 | the settings depend on the node only through its five field children |
| `Pop3Fetch.NewPop3Settings` | magic.lambda.mail/MailPop3Fetch.cs:120-131 | the first [server] child through the resolver, [max] (default 50), [raw] (default false), then the mandatory [.lambda], the first failure ending construction |
| `Pop3Fetch.Done` | magic.lambda.mail/MailPop3Fetch.cs:27 | the loop runs while the index is below the count and, unless max is -1, below max |
| `Pop3Fetch.VisitCount` | magic.lambda.mail/MailPop3Fetch.cs:27 | the loop condition holds for exactly the indices below a count that is at most the message count and at most `max` when `max` is not negative |
| `Pop3Fetch.IterationCases` | magic.lambda.mail/MailPop3Fetch.cs:58-67 | a pass of the loop ends at a throwing retrieval, or at a throwing eval after the retrieval, and otherwise its retrieval and eval come before the rest of the loop, whose outcome is the loop's |
| `Pop3Fetch.Mailboxes` | magic.lambda.mail/MailPop3Fetch.cs:187-191 | only mailbox addresses are kept, no more than the list holds |
| `Pop3Fetch.AddRecipient` | magic.lambda.mail/MailPop3Fetch.cs:182-194 | an empty list adds nothing; otherwise one group node is appended, holding one name/address child per mailbox, in list order, other addresses skipped |
| `Pop3Fetch.MessageNode` | magic.lambda.mail/MailPop3Fetch.cs:154-173 | the [.message] node: the full text in raw mode, otherwise subject, the from/to/cc/bcc groups and the parsed entity |
| `Pop3Fetch.WithMessage` | magic.lambda.mail/MailPop3Fetch.cs:154-155 | the callback copy with the [.message] node inserted as its first child |
| `Pop3Fetch.Iterations` | magic.lambda.mail/MailPop3Fetch.cs:58-68 | the loop from one index on: retrieve, evaluate the copy holding the message, next index, ending at the bound or at the first call that throws |
| `Pop3Fetch.Listing` | magic.lambda.mail/MailPop3Fetch.cs:57-68 | the count, then the loop unless the count threw |
| `Pop3Fetch.Session` | magic.lambda.mail/MailPop3Fetch.cs:54-68 | the `try` block: authentication when there are credentials, then the count and the loop unless it threw |
| `Pop3Fetch.Connected` | magic.lambda.mail/MailPop3Fetch.cs:48-73 | connect, then the `try` block, then `Disconnect(true)`, whose failure replaces the block's outcome; a failed connect makes no other call |
| `Pop3Fetch.Fetch` | magic.lambda.mail/MailPop3Fetch.cs:45-74 | one invocation: the settings, with no client call when they fail, then the connected session |
| `Pop3Fetch.HandleMessage` | magic.lambda.mail/MailPop3Fetch.cs:146-176 | the callback copy gains the [.message] node as its first child: the full text in raw mode, otherwise subject, from, to, cc, bcc and the parsed entity |
| `Pop3Fetch.MailPop3Fetch.Signal` | magic.lambda.mail/MailPop3Fetch.cs:45-74 | the client calls made and the outcome are those of `Fetch` for the input and the server's behaviour |
| `Pop3Fetch.MailPop3Fetch.RunConnected` | magic.lambda.mail/MailPop3Fetch.cs:48-73 | connect, then the `try` block, then `Disconnect(true)` in the `finally`, whose exception replaces the block's outcome |
| `Pop3Fetch.MailPop3Fetch.RunSession` | magic.lambda.mail/MailPop3Fetch.cs:54-68 | authenticate only with credentials, count, loop; the first exception ends the block |
| `Pop3Fetch.MailPop3Fetch.RunListing` | magic.lambda.mail/MailPop3Fetch.cs:57-68 | count the messages, then the loop over them; a throwing count ends the block with no retrieval |
| `Pop3Fetch.MailPop3Fetch.RunLoop` | magic.lambda.mail/MailPop3Fetch.cs:58-68 | the loop's calls and outcome are those of `Iterations` from index 0 |
| `Pop3Fetch.MailPop3Fetch.RetrieveAndEvaluate` | magic.lambda.mail/MailPop3Fetch.cs:60-67 | one pass makes the retrieval and eval calls `Iterations` lists for its index, and a failing pass ends with `Iterations`' outcome |
| `Pop3Properties.NoDisconnectCountsZero` | magic.lambda.mail/MailPop3Fetch.cs:72 | a call sequence without a disconnect counts none |
| `Pop3Properties.VisitedIndicesAscending` | magic.lambda.mail/MailPop3Fetch.cs:58-61 | the loop retrieves consecutive ascending indices, never one at or past the bound, and reaches the bound when nothing throws |
| `Pop3Properties.PairIndices` | magic.lambda.mail/MailPop3Fetch.cs:61-67 | a retrieval followed by an eval contributes exactly its one index |
| `Pop3Properties.FaultFreeIterations` | magic.lambda.mail/MailPop3Fetch.cs:58-68 | with nothing throwing, the loop is one retrieval and one evaluation per index below the bound, in order, and passes |
| `Pop3Properties.LoopPairsRetrievalAndEval` | magic.lambda.mail/MailPop3Fetch.cs:58-68 | the loop calls only retrieval and eval, and each eval follows the retrieval of the message its copy holds |
| `Pop3Properties.SessionShape` | magic.lambda.mail/MailPop3Fetch.cs:54-68 | the `try` block's calls are the authentication when there are credentials, then the count unless it threw, then the loop unless the count threw; after the count only retrievals and evals follow, each eval paired with its retrieval, and nothing connects or disconnects |
| `Pop3Properties.SessionParts` | magic.lambda.mail/MailPop3Fetch.cs:54-58 | the `try` block's calls begin with the optional authentication; the count follows unless it threw, and the loop follows unless the count threw |
| `Pop3Properties.SessionLoopKinds` | magic.lambda.mail/MailPop3Fetch.cs:57-68 | after the count the `try` block calls only retrieval and eval |
| `Pop3Properties.SessionPairing` | magic.lambda.mail/MailPop3Fetch.cs:54-68 | every eval of the `try` block follows the retrieval of the message its copy holds, and no call connects or disconnects |
| `Pop3Properties.PrefixKeepsPairing` | magic.lambda.mail/MailPop3Fetch.cs:54-68 | calls before the loop (authenticate, count) keep each eval paired with its retrieval, and none of them connects or disconnects |
| `Pop3Properties.DisconnectExactlyOnceAfterConnect` | magic.lambda.mail/MailPop3Fetch.cs:48-73 | a failed connect calls nothing else; after a successful connect, `Disconnect(true)` is called exactly once, as the last call |
| `Pop3Properties.DisconnectsOnce` | magic.lambda.mail/MailPop3Fetch.cs:48-73 | once settings resolve, a successful connect is followed by exactly one `Disconnect(true)`, the last call |
| `Pop3Properties.CallOrder` | magic.lambda.mail/MailPop3Fetch.cs:48-57 | connect first; once connected, authenticate second exactly with credentials and the count next unless authentication threw; without credentials the count comes second and `Authenticate` is never called, whatever the server does |
| `Pop3Properties.CallbackCopiesAreIsolated` | magic.lambda.mail/MailPop3Fetch.cs:60-67 | every evaluated callback is the [.lambda] template plus only the message retrieved just before it |
| `Pop3Properties.WithMessageShape` | magic.lambda.mail/MailPop3Fetch.cs:154-160 | the copy keeps the template's name, value and children after the inserted [.message] node |
| `Pop3Properties.MaxTwoOfFive` | magic.lambda.mail/MailPop3Fetch.cs:58 | with max 2 and five messages, only messages 0 and 1 are retrieved, in that order |
| `Pop3Properties.MaxExtremes` | magic.lambda.mail/MailPop3Fetch.cs:27 | max 0 or below -1 retrieves nothing; -1 retrieves every message |
| `Pop3Properties.ConnectionErrorBeforeLambdaError` | magic.lambda.mail/MailPop3Fetch.cs:120-131 | a connection-settings error wins over a missing [.lambda] and no client call is made |
| `Pop3Properties.Pop3Defaults` | magic.lambda.mail/MailPop3Fetch.cs:127-130 | without [max] and [raw] the bound is 50 and messages are parsed; a missing [.lambda] fails before any client call |
| `Pop3Properties.NamesAppend` | magic.lambda.mail/MailPop3Fetch.cs:163-173 | the child names of concatenated node lists concatenate |
| `Pop3Properties.ParsedMessageLayout` | magic.lambda.mail/MailPop3Fetch.cs:163-173 | a parsed [.message] holds subject, from, to, cc, bcc and entity in that order, each group present exactly when its list is non-empty, the entity carrying the parse result |
| `Pop3Properties.AppendGroupNames` | magic.lambda.mail/MailPop3Fetch.cs:184-193 | appending a recipient group adds its name exactly when the list is non-empty |
| `Pop3Properties.MailboxesFilter` | magic.lambda.mail/MailPop3Fetch.cs:187-191 | an address is kept exactly when it is a mailbox of the list, and a list of mailboxes only is kept whole |
| `Pop3Properties.MailboxesMembers` | magic.lambda.mail/MailPop3Fetch.cs:187-191 | an address is kept exactly when it is a mailbox of the list |
| `Pop3Properties.MailboxesKeepAll` | magic.lambda.mail/MailPop3Fetch.cs:187-191 | a list of mailboxes only is kept whole, in order |
| `Pop3Properties.MailboxNodesInOrder` | magic.lambda.mail/MailPop3Fetch.cs:187-191 | a group holds one name/address child per mailbox, in list order |
| `Pop3Properties.OtherAddressesGiveEmptyGroup` | magic.lambda.mail/MailPop3Fetch.cs:184-193 | a non-empty list of non-mailbox addresses still adds a group, with no children |
| `Pop3Examples.SettingsWithDefaults` | magic.lambda.mail/MailPop3Fetch.cs:120-131 | an invocation holding an optional [server] and a [.lambda] resolves with max 50 and raw false |
| `Pop3Examples.GivenText` | magic.lambda.mail/helpers/ConnectionSettings.cs:24-25 | a text field given under [server] is used, whatever the configuration holds |
| `Pop3Examples.GivenPort` | magic.lambda.mail/helpers/ConnectionSettings.cs:28-29 | a port given under [server] as text is parsed and used, whatever the configuration holds |
| `Pop3Examples.GivenSecure` | magic.lambda.mail/helpers/ConnectionSettings.cs:32-33 | a [secure] given under [server] as text is parsed and used, whatever the configuration holds |
| `Pop3Examples.ConfiguredText` | magic.lambda.mail/helpers/ConnectionSettings.cs:24-25 | without the child, the configured text is used |
| `Pop3Examples.ConfiguredPort` | magic.lambda.mail/helpers/ConnectionSettings.cs:28-29 | without [port], the configured port text is parsed and used |
| `Pop3Examples.ConfiguredSecure` | magic.lambda.mail/helpers/ConnectionSettings.cs:32-33 | without [secure], the configured flag text is parsed and used |
| `Pop3Examples.EmptyMailbox` | magic.lambda.mail/MailPop3Fetch.cs:45-74 | an empty mailbox: connect, authenticate with credentials, count, disconnect |
| `Pop3Examples.QuietFetch` | magic.lambda.mail/MailPop3Fetch.cs:45-74 | with credentials and an empty mailbox, the whole fetch is connect, authenticate, count, disconnect, and passes |
| `Pop3Examples.SingleMessage` | magic.lambda.mail/MailPop3Fetch.cs:45-74 | with credentials, a bound of at least one and a one-message mailbox: connect, authenticate, count, retrieve 0, evaluate the copy holding it, disconnect |
| `Pop3Examples.ConnectWithServer` | magic.lambda.mail.tests/PopTests.cs:18-46 | with every field under [server], the client connects and authenticates with those values, whatever the configuration |
| `Pop3Examples.FullServerSettings` | magic.lambda.mail.tests/PopTests.cs:18-46 | a [server] with all five fields resolves to exactly those values |
| `Pop3Examples.ConnectWithConfig01` | magic.lambda.mail.tests/PopTests.cs:48-75 | a [server] without a host takes the configured host and its own port, secure flag and credentials |
| `Pop3Examples.NoHostSettings` | magic.lambda.mail.tests/PopTests.cs:48-75 | a [server] without [host] resolves to the configured host with its own port, secure flag and credentials |
| `Pop3Examples.ConnectWithConfig02` | magic.lambda.mail.tests/PopTests.cs:77-110 | a [server] with only credentials takes host, port and secure from the configuration |
| `Pop3Examples.CredentialsSettings` | magic.lambda.mail.tests/PopTests.cs:77-110 | a [server] with only credentials resolves to the configured host, port and secure flag with its own credentials |
| `Pop3Examples.ConfiguredSettings` | magic.lambda.mail.tests/Common.cs:92-96 | the mocked configuration alone resolves to foo2.com, 321, false, xxx2 and yyy2 |
| `Pop3Examples.ConnectWithConfig03` | magic.lambda.mail.tests/PopTests.cs:112-135 | an empty [server] takes every field from the configuration |
| `Pop3Examples.ConnectWithConfig04` | magic.lambda.mail.tests/PopTests.cs:137-167 | no [server] at all takes every field from the configuration |
| `Pop3Examples.JoeysMessageNode` | magic.lambda.mail.tests/PopTests.cs:186-236 | the test's message becomes a [.message] node with subject, one sender, one recipient and the plain-text entity |
| `Pop3Examples.RetrieveOneMessage` | magic.lambda.mail.tests/PopTests.cs:186-236 | one message in the mailbox: connect, authenticate, count, retrieve index 0, evaluate the callback holding it, disconnect, and pass |
| `SmtpSend.OptionalText` | magic.lambda.mail/MailSmtpSend.cs:52 | the first child with the name converted to text, or null when there is none |
| `SmtpSend.Compose` | magic.lambda.mail/MailSmtpSend.cs:43-65 | the message: [message] (mandatory) through `.mime.create` as body, the first [subject], one sender and one recipient with optional display names, the first failure ending assembly |
| `SmtpSend.Transmission` | magic.lambda.mail/MailSmtpSend.cs:68-76 | the `using` block: connect, authenticate when the username is not null, send, disconnect, the first call that throws ending it, and `Dispose` on every path |
| `SmtpSend.SendMail` | magic.lambda.mail/MailSmtpSend.cs:37-77 | one invocation: the settings, then the message, with no client call when either fails, then the `using` block |
| `SmtpSend.RequiredText` | magic.lambda.mail/MailSmtpSend.cs:56-63 | a null sender or recipient is an error, a conversion error propagates, and otherwise the text is returned |
| `SmtpSend.MailSmtpSend.SignalAsync` | magic.lambda.mail/MailSmtpSend.cs:37-77 | the client calls made and the outcome are those of `SendMail` for the input, the `.mime.create` slot and the server's behaviour |
| `SmtpSend.MailSmtpSend.Assemble` | magic.lambda.mail/MailSmtpSend.cs:43-65 | the message filled in step by step is `Compose`'s, and the first exception ends the assembly |
| `SmtpSend.MailSmtpSend.Transmit` | magic.lambda.mail/MailSmtpSend.cs:68-76 | the `using` block's calls and outcome are `Transmission`'s, with the client disposed on every path |
| `SmtpProperties.SettingsCheckedFirst` | magic.lambda.mail/MailSmtpSend.cs:40 | a settings error is reported before anything else, and no client call is made |
| `SmtpProperties.MissingMessageFailsBeforeAnyCall` | magic.lambda.mail/MailSmtpSend.cs:43-44 | without [message] the send fails with that error and makes no client call |
| `SmtpProperties.CreateFailsBeforeAddresses` | magic.lambda.mail/MailSmtpSend.cs:47-49 | a throwing `.mime.create` ends the assembly before the addresses are read |
| `SmtpProperties.FromCheckedBeforeTo` | magic.lambda.mail/MailSmtpSend.cs:56-63 | with no usable [from] the error is the sender's, whatever [to] holds |
| `SmtpProperties.MissingRecipientFails` | magic.lambda.mail/MailSmtpSend.cs:62-63 | with a sender but no usable [to] the error is the recipient's |
| `SmtpProperties.ComposedMessageShape` | magic.lambda.mail/MailSmtpSend.cs:43-65 | an assembled message has one sender and one recipient from the invocation's own children, the first [subject], and the body `.mime.create` left on [message] when it is an entity |
| `SmtpProperties.SubjectIsOptional` | magic.lambda.mail/MailSmtpSend.cs:52-53 | without [subject] the subject is null and assembly does not fail on it |
| `SmtpProperties.NamedIgnoresOtherNames` | magic.lambda.mail/helpers/ConnectionSettings.cs:24 | appending a child with another name changes neither the matched children nor the first match |
| `SmtpProperties.ServerChildPlaysNoPart` | magic.lambda.mail/MailSmtpSend.cs:40 | the settings come from the invocation's own children: an extra [server] child changes nothing |
| `SmtpProperties.ExtraChildKeepsField` | magic.lambda.mail/helpers/ConnectionSettings.cs:24 | appending a child with another name leaves the explicit lookup of a field unchanged |
| `SmtpProperties.AuthenticatesExactlyWithUsername` | magic.lambda.mail/MailSmtpSend.cs:71-73 | once connected, authentication comes second exactly when the username is not null; otherwise it is never called |
| `SmtpProperties.EmptyUsernameStillAuthenticates` | magic.lambda.mail/MailSmtpSend.cs:72-73 | an empty username authenticates although the settings report no credentials |
| `SmtpProperties.DisposeAlwaysDisconnectOnlyAfterSend` | magic.lambda.mail/MailSmtpSend.cs:68-76 | the last call is always the one `Dispose`; send happens once when connect and authentication succeed; disconnect only after a successful send |
| `SmtpProperties.SuccessfulSend` | magic.lambda.mail/MailSmtpSend.cs:68-76 | with nothing throwing: connect, authenticate with a username, send, disconnect, dispose, and pass |
| `SmtpProperties.FirstFailureReported` | magic.lambda.mail/MailSmtpSend.cs:71-75 | the outcome names the first call that threw (connect, authenticate, send or disconnect), and the send passes exactly when none did |
| `SmtpExamples.ConfiguredSmtpSettings` | magic.lambda.mail.tests/Common.cs:81-85 | the mocked SMTP configuration alone resolves to foo2.com, 321, false, xxx2 and yyy2 |
| `SmtpExamples.MessageLookups` | magic.lambda.mail/MailSmtpSend.cs:43-64 | an invocation with [message], [from] and [to] only has no subject and no display names |
| `SmtpExamples.ComposedSample` | magic.lambda.mail/MailSmtpSend.cs:43-65 | [message], [from] jane@doe.com and [to] john@doe.com assemble into a message with the created entity, no subject, one sender and one recipient |
| `SmtpExamples.CredentialedSend` | magic.lambda.mail/MailSmtpSend.cs:68-76 | with a username and nothing throwing: connect, authenticate, send, disconnect, dispose, and pass |
| `SmtpExamples.ConfiguredSend` | magic.lambda.mail/MailSmtpSend.cs:37-77 | against the mocked configuration, the send connects to foo2.com:321 without SSL, authenticates as xxx2, sends the message from jane@doe.com to john@doe.com, disconnects, disposes, and passes |

## Left out

- `MailPop3Fetch.SignalAsync` (MailPop3Fetch.cs:81-110) repeats `Signal` with awaited client calls, so it is not modelled separately. Asynchrony and cancellation are not modelled anywhere.
- The client services and their contracts (`Pop3Client`, `SmtpClient`, `MailClient`) wrap MailKit. The model keeps only the calls the slots make, as recorded events, and a behaviour value that says which calls throw.
- MIME parsing and creation are other slots. `.mime.parse` is represented by the node it yields, carried in the message. `.mime.create` is a map from [message] nodes to the value it leaves, and a node missing from the map makes it throw.
- `.mime.parse` is taken never to throw: each retrieved message carries the node it yields, so a message whose body cannot be parsed is not modelled.
- `SmtpSend.Compose`: the `message.Subject = subject` assignment (MailSmtpSend.cs:53) is taken to accept null. MimeKit's `MimeMessage` is not part of this model, so a setter that rejects null, which would make a send without [subject] fail, is not captured; `SubjectIsOptional`, `ComposedSample` and `ConfiguredSend` rest on this.
- `eval` is another slot: it is recorded as an event, and a set of callback copies says which ones throw.
- `GetEx<T>` (magic.node) is not part of this model. Conversions follow `Convert.ChangeType` with the invariant culture: null to a string stays null; null to an integer or boolean fails; text goes through `int.Parse` or `bool.Parse`; a boolean is 1 or 0; a number is true unless 0; an entity converts to nothing.
- `Numbers.ParseInt`: the whitespace, culture and thousands-separator handling of `int.Parse` is not modelled. It accepts an optional sign and decimal digits within the 32-bit range. A digit run outside that range, for which `int.Parse` throws `OverflowException`, is folded into the same format error (`InvalidFormat`).
- `Numbers.ParseBool`: the leading and trailing whitespace that `bool.Parse` tolerates is not modelled.
- Nodes are values. `Clone()` is the identity on them, and an in-place insertion is a new value, so aliasing between the template and its copies is not modelled. `CallbackCopiesAreIsolated` states the isolation that cloning provides.
- The address validation done by the `MailboxAddress` constructor, and the `as MailboxAddress` casts, are not modelled. An address is a mailbox or another kind, and other kinds are skipped.
- A `Dispose` or a `using (var body = message.Body)` that throws is not modelled. Disposal is recorded and never fails.
- The message text produced by `MimeMessage.ToString()` is a field of the message.
- The `magic:smtp:from:name` and `magic:smtp:from:address` configuration keys (Common.cs:86-87) are never read by either slot, so they play no part.
- `SmtpSend.SmtpEvent`: the port is an unbounded `int` in the SMTP event, although the settings always give a 32-bit value.
- The SMTP slot imports its `ConnectionSettings` from another namespace. It is taken to be the resolver in helpers/ConnectionSettings.cs.
- MailTests.cs drives an SMTP client interface whose shape differs from the `new SmtpClient()` the slot uses, so no property is drawn from it.

Behaviour of the code that a reader might not expect:

- The host must be non-null, but an empty host is accepted.
- An explicit child holding null falls through to the configuration, because `??` tests only for null (`ConnectionSettings.NullHostChildFallsThrough`).
- A `Disconnect` that throws in the POP3 `finally` block replaces the exception of the block it follows (`Pop3Fetch.Connected`).
- In SMTP, `Disconnect` is not in a `finally`. After a failed send only `Dispose` runs.
- SMTP authenticates whenever the username is not null, even when it is empty. POP3 authenticates only when the username is non-empty.
