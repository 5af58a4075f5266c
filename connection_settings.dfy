/**
 * The connection-settings resolver shared by the SMTP and POP3 slots. Each of
 * host, port, secure, username and password takes the first available of: the
 * child of the given node with that name, the configuration key
 * `magic:<type>:<field>`, a literal default. Host and port are mandatory, secure
 * defaults to false, the credentials default to null. Fields are resolved in the
 * order host, port, secure, username, password, so the first failing field names
 * the error.
 */
module ConnectionSettings {
  import opened Wrappers
  import opened Numbers
  import opened Errors
  import opened Nodes

  /** The application's configuration: a key that is absent reads as null. */
  type Configuration = map<string, string>

  datatype Settings = Settings(
    server: string,
    port: Int32,
    secure: bool,
    username: Option<string>,
    password: Option<string>)

  function Key(serverType: string, field: string): string
  {
    "magic:" + serverType + ":" + field
  }

  /** Distinct fields of one server type read distinct configuration keys. */
  lemma KeyInjective(serverType: string, f: string, g: string)
    ensures Key(serverType, f) == Key(serverType, g) <==> f == g
  {
    var n := |serverType| + 7;
    assert Key(serverType, f)[n..] == f;
    assert Key(serverType, g)[n..] == g;
  }

  function Lookup(configuration: Configuration, key: string): Option<string>
  {
    if key in configuration then Some(configuration[key]) else None
  }

  /** `input?.Children.SingleOrDefault(x => x.Name == field)`. */
  function Explicit(input: Option<Node>, field: string): Result<Option<Node>, Error>
  {
    match input
    case None => Success(None)
    case Some(node) => SingleOrDefault(node.children, field)
  }

  /**
   * `input?.…?.GetEx<string>() ?? configuration[key]`: a child that is present
   * and holds a non-null value wins; the configuration is read only when the
   * child is absent or its value is null.
   */
  function TextField(configuration: Configuration, input: Option<Node>, serverType: string, field: string)
    : (r: Result<Option<string>, Error>)
    ensures Explicit(input, field) == Success(None) ==>
              r == Success(Lookup(configuration, Key(serverType, field)))
    ensures Explicit(input, field).Success? && Explicit(input, field).value.Some? ==>
              var given := AsText(Explicit(input, field).value.value.value);
              (given.Failure? ==> r == Failure(given.error)) &&
              (given.Success? && given.value.Some? ==> r == given) &&
              (given == Success(None) ==> r == Success(Lookup(configuration, Key(serverType, field))))
    ensures Explicit(input, field).Failure? ==> r.Failure?
  {
    var child :- Explicit(input, field);
    var given :- if child.Some? then AsText(child.value.value) else Success(None);
    Success(if given.Some? then given else Lookup(configuration, Key(serverType, field)))
  }

  /** Host: explicit, else configured, else `MissingHost`. */
  function Host(configuration: Configuration, input: Option<Node>, serverType: string): Result<string, Error>
  {
    var host :- TextField(configuration, input, serverType, "host");
    if host.Some? then Success(host.value) else Failure(MissingHost)
  }

  /**
   * Port: the explicit child converted to an integer, else the configured text
   * through `int.Parse`, else `MissingPort`.
   */
  function Port(configuration: Configuration, input: Option<Node>, serverType: string): Result<Int32, Error>
  {
    var child :- Explicit(input, "port");
    if child.Some? then AsInt(child.value.value)
    else
      match Lookup(configuration, Key(serverType, "port"))
      case None => Failure(MissingPort)
      case Some(text) =>
        match ParseInt(text)
        case Some(n) => Success(n)
        case None => Failure(InvalidFormat(text))
  }

  /** Secure: the explicit child as a boolean, else the configured text through `bool.Parse`, else false. */
  function Secure(configuration: Configuration, input: Option<Node>, serverType: string): Result<bool, Error>
  {
    var child :- Explicit(input, "secure");
    if child.Some? then AsBool(child.value.value)
    else
      match Lookup(configuration, Key(serverType, "secure"))
      case None => Success(false)
      case Some(text) =>
        match ParseBool(text)
        case Some(b) => Success(b)
        case None => Failure(InvalidFormat(text))
  }

  /** The `ConnectionSettings` constructor. */
  function New(configuration: Configuration, input: Option<Node>, serverType: string): Result<Settings, Error>
  {
    var server :- Host(configuration, input, serverType);
    var port :- Port(configuration, input, serverType);
    var secure :- Secure(configuration, input, serverType);
    var username :- TextField(configuration, input, serverType, "username");
    var password :- TextField(configuration, input, serverType, "password");
    Success(Settings(server, port, secure, username, password))
  }

  /** True when the username is neither null nor empty; the password plays no part. */
  predicate HasCredentials(settings: Settings)
  {
    settings.username.Some? && settings.username.value != ""
  }

  /** The node holds exactly one child called `field`, and its value is `value`. */
  predicate GivesOnce(input: Option<Node>, field: string, value: Value)
  {
    input.Some? && |Named(input.value.children, field)| == 1 && Named(input.value.children, field)[0].value == value
  }

  /** Neither the node nor the configuration supplies `field`. */
  predicate Absent(configuration: Configuration, input: Option<Node>, serverType: string, field: string)
  {
    Explicit(input, field) == Success(None) && Key(serverType, field) !in configuration
  }

  lemma GivesOnceIsExplicit(input: Option<Node>, field: string, value: Value)
    requires GivesOnce(input, field, value)
    ensures Explicit(input, field).Success? && Explicit(input, field).value.Some?
    ensures Explicit(input, field).value.value.value == value
  {
    FirstIsFirstNamed(input.value.children, field);
  }

  /**
   * An explicit host shadows the configuration: whatever the configured host,
   * the resolved host is the one given on the node.
   */
  lemma ExplicitHostShadowsConfiguration(c1: Configuration, c2: Configuration, input: Option<Node>,
                                         serverType: string, host: string)
    requires GivesOnce(input, "host", VText(host))
    ensures Host(c1, input, serverType) == Host(c2, input, serverType) == Success(host)
  {
    GivesOnceIsExplicit(input, "host", VText(host));
  }

  /** The configured host is used exactly when the node gives none. */
  lemma ConfiguredHostUsedWhenNotGiven(configuration: Configuration, input: Option<Node>, serverType: string)
    requires Explicit(input, "host") == Success(None)
    ensures Key(serverType, "host") in configuration ==>
              Host(configuration, input, serverType) == Success(configuration[Key(serverType, "host")])
    ensures Key(serverType, "host") !in configuration ==> Host(configuration, input, serverType) == Failure(MissingHost)
  {
  }

  /**
   * `??` tests for null, not for presence: a [host] child holding null falls
   * through to the configured host exactly as an absent one does.
   */
  lemma NullHostChildFallsThrough(configuration: Configuration, input: Option<Node>, serverType: string)
    requires GivesOnce(input, "host", VNone)
    ensures Key(serverType, "host") in configuration ==>
              Host(configuration, input, serverType) == Success(configuration[Key(serverType, "host")])
    ensures Key(serverType, "host") !in configuration ==> Host(configuration, input, serverType) == Failure(MissingHost)
  {
    GivesOnceIsExplicit(input, "host", VNone);
  }

  /** An explicit port shadows the configuration, including a configured port that would not parse. */
  lemma ExplicitPortShadowsConfiguration(c1: Configuration, c2: Configuration, input: Option<Node>,
                                         serverType: string, port: Int32)
    requires GivesOnce(input, "port", VInt(port)) || GivesOnce(input, "port", VText(IntText(port)))
    ensures Port(c1, input, serverType) == Port(c2, input, serverType) == Success(port)
  {
    IntTextRoundTrip(port);
    if GivesOnce(input, "port", VInt(port)) {
      GivesOnceIsExplicit(input, "port", VInt(port));
    } else {
      GivesOnceIsExplicit(input, "port", VText(IntText(port)));
    }
  }

  /** Host is resolved before port: with both missing, the host error is the one raised. */
  lemma MissingHostReportedFirst(configuration: Configuration, input: Option<Node>, serverType: string)
    requires Absent(configuration, input, serverType, "host")
    ensures New(configuration, input, serverType) == Failure(MissingHost)
  {
  }

  /** With a host but no port anywhere, construction fails on the port. */
  lemma MissingPortFails(configuration: Configuration, input: Option<Node>, serverType: string)
    requires Host(configuration, input, serverType).Success?
    requires Absent(configuration, input, serverType, "port")
    ensures New(configuration, input, serverType) == Failure(MissingPort)
  {
  }

  /** A configured port that `int.Parse` rejects fails when the node gives no port. */
  lemma UnparsableConfiguredPortFails(configuration: Configuration, input: Option<Node>, serverType: string)
    requires Host(configuration, input, serverType).Success?
    requires Explicit(input, "port") == Success(None)
    requires Key(serverType, "port") in configuration
    requires ParseInt(configuration[Key(serverType, "port")]).None?
    ensures New(configuration, input, serverType) == Failure(InvalidFormat(configuration[Key(serverType, "port")]))
  {
  }

  /**
   * Secure, username and password are optional: when neither the node nor the
   * configuration gives them, host and port alone decide success, and the
   * defaults are false and null.
   */
  lemma OptionalFieldsNeverFail(configuration: Configuration, input: Option<Node>, serverType: string)
    requires Absent(configuration, input, serverType, "secure")
    requires Absent(configuration, input, serverType, "username")
    requires Absent(configuration, input, serverType, "password")
    ensures Host(configuration, input, serverType).Success? && Port(configuration, input, serverType).Success? <==>
            New(configuration, input, serverType).Success?
    ensures New(configuration, input, serverType).Success? ==>
              var s := New(configuration, input, serverType).value;
              !s.secure && s.username.None? && s.password.None? && !HasCredentials(s)
  {
  }

  /** A null node takes every field from the configuration or the defaults. */
  lemma NullInputReadsConfiguration(configuration: Configuration, serverType: string, port: Int32)
    requires Key(serverType, "host") in configuration
    requires Key(serverType, "port") in configuration
    requires ParseInt(configuration[Key(serverType, "port")]) == Some(port)
    requires Lookup(configuration, Key(serverType, "secure")).Some? ==>
               ParseBool(configuration[Key(serverType, "secure")]).Some?
    ensures New(configuration, None, serverType) == Success(Settings(
              configuration[Key(serverType, "host")],
              port,
              Lookup(configuration, Key(serverType, "secure")).Some? &&
                ParseBool(configuration[Key(serverType, "secure")]) == Some(true),
              Lookup(configuration, Key(serverType, "username")),
              Lookup(configuration, Key(serverType, "password"))))
  {
  }

  /**
   * Fields resolve independently: a node that gives only a port, with the host
   * in the configuration, yields the configured host and the explicit port.
   */
  lemma ExplicitPortWithConfiguredHost(configuration: Configuration, serverType: string, port: Int32, rest: seq<Node>)
    requires Key(serverType, "host") in configuration
    requires forall k :: 0 <= k < |rest| ==> rest[k].name !in {"host", "port", "secure", "username", "password"}
    ensures var input := Some(Node("server", VNone, [Node("port", VInt(port), [])] + rest));
            New(configuration, input, serverType).Success? ==>
              New(configuration, input, serverType).value.server == configuration[Key(serverType, "host")] &&
              New(configuration, input, serverType).value.port == port
  {
    var children := [Node("port", VInt(port), [])] + rest;
    var input := Some(Node("server", VNone, children));
    NoneNamed(rest, "host");
    NoneNamed(rest, "port");
    assert children[1..] == rest;
    assert Named(children, "host") == [];
    assert Named(children, "port") == [children[0]];
    assert Explicit(input, "host") == Success(None);
    assert Explicit(input, "port") == Success(Some(children[0]));
    assert Host(configuration, input, serverType) == Success(configuration[Key(serverType, "host")]);
    assert Port(configuration, input, serverType) == Success(port);
  }

  /** The settings depend on the node only through its five field children. */
  lemma SameFieldsSameSettings(configuration: Configuration, a: Option<Node>, b: Option<Node>, serverType: string)
    requires Explicit(a, "host") == Explicit(b, "host")
    requires Explicit(a, "port") == Explicit(b, "port")
    requires Explicit(a, "secure") == Explicit(b, "secure")
    requires Explicit(a, "username") == Explicit(b, "username")
    requires Explicit(a, "password") == Explicit(b, "password")
    ensures New(configuration, a, serverType) == New(configuration, b, serverType)
  {
    SameFieldSameText(configuration, a, b, serverType, "host");
    SameFieldSameText(configuration, a, b, serverType, "username");
    SameFieldSameText(configuration, a, b, serverType, "password");
    SamePortAndSecure(configuration, a, b, serverType);
  }

  lemma SameFieldSameText(configuration: Configuration, a: Option<Node>, b: Option<Node>, serverType: string, field: string)
    requires Explicit(a, field) == Explicit(b, field)
    ensures TextField(configuration, a, serverType, field) == TextField(configuration, b, serverType, field)
  {
  }

  lemma SamePortAndSecure(configuration: Configuration, a: Option<Node>, b: Option<Node>, serverType: string)
    requires Explicit(a, "port") == Explicit(b, "port")
    requires Explicit(a, "secure") == Explicit(b, "secure")
    ensures Port(configuration, a, serverType) == Port(configuration, b, serverType)
    ensures Secure(configuration, a, serverType) == Secure(configuration, b, serverType)
  {
  }
}
