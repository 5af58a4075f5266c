/**
 * What one `mail.pop3.fetch` invocation guarantees: which indices it visits
 * and in what order, that each callback runs on its own copy of [.lambda],
 * the shape of the [.message] node, the order of the client calls, and that
 * `Disconnect` follows a successful `Connect` exactly once.
 */
module Pop3Properties {
  import opened Wrappers
  import opened Numbers
  import opened Errors
  import opened Nodes
  import opened ConnectionSettings
  import opened Pop3Fetch

  /** The indices of the `GetMessage` calls, in call order. */
  function GetIndices(events: seq<Pop3Event>): seq<nat>
  {
    if events == [] then []
    else (if events[0].GetMessage? then [events[0].index] else []) + GetIndices(events[1..])
  }

  /** The number of `Disconnect` calls. */
  function Disconnects(events: seq<Pop3Event>): nat
  {
    if events == [] then 0
    else Disconnects(events[..|events| - 1]) + (if events[|events| - 1].Disconnect? then 1 else 0)
  }

  lemma {:induction false} NoDisconnectCountsZero(events: seq<Pop3Event>)
    requires forall j :: 0 <= j < |events| ==> !events[j].Disconnect?
    ensures Disconnects(events) == 0
  {
    if events != [] {
      NoDisconnectCountsZero(events[..|events| - 1]);
    }
  }

  /**
   * The loop retrieves consecutive indices from `idx` upward and never one at
   * or beyond the bound; when no call throws it reaches the bound.
   */
  lemma {:induction false} VisitedIndicesAscending(s: Pop3Settings, b: Pop3Behaviour, idx: nat)
    requires idx <= VisitCount(|b.mailbox|, s.max)
    ensures var visited := GetIndices(Iterations(s, b, idx).events);
            && idx + |visited| <= VisitCount(|b.mailbox|, s.max)
            && (forall k :: 0 <= k < |visited| ==> visited[k] == idx + k)
            && (Iterations(s, b, idx).outcome.Pass? ==> idx + |visited| == VisitCount(|b.mailbox|, s.max))
    decreases |b.mailbox| - idx
  {
    if Done(idx, |b.mailbox|, s.max) {
      IterationCases(s, b, idx);
      var lambda := WithMessage(s.lambda, b.mailbox[idx], s.raw);
      if idx in b.failingIndices {
        assert GetIndices([GetMessage(idx)]) == [idx];
      } else if lambda in b.failingLambdas {
        PairIndices(idx, lambda, []);
        assert [GetMessage(idx), Eval(lambda)] + [] == [GetMessage(idx), Eval(lambda)];
      } else {
        VisitedIndicesAscending(s, b, idx + 1);
        PairIndices(idx, lambda, Iterations(s, b, idx + 1).events);
      }
    }
  }

  /** A retrieval followed by an `eval` contributes its one index. */
  lemma PairIndices(idx: nat, lambda: Node, rest: seq<Pop3Event>)
    ensures GetIndices([GetMessage(idx), Eval(lambda)] + rest) == [idx] + GetIndices(rest)
  {
    var e := [GetMessage(idx), Eval(lambda)] + rest;
    assert e[1..] == [Eval(lambda)] + rest;
    assert e[1..][1..] == rest;
  }

  /** Calls `2k` and `2k+1` of `events` retrieve message `idx + k` and evaluate the callback holding it. */
  predicate PairAt(events: seq<Pop3Event>, s: Pop3Settings, b: Pop3Behaviour, idx: nat, k: nat)
  {
    && 2 * k + 1 < |events| && idx + k < |b.mailbox|
    && events[2 * k] == GetMessage(idx + k)
    && events[2 * k + 1] == Eval(WithMessage(s.lambda, b.mailbox[idx + k], s.raw))
  }

  lemma PairAtShift(events: seq<Pop3Event>, rest: seq<Pop3Event>, s: Pop3Settings, b: Pop3Behaviour, idx: nat, k: nat)
    requires k > 0 && |events| == |rest| + 2 && events[2..] == rest
    requires PairAt(rest, s, b, idx + 1, k - 1)
    ensures PairAt(events, s, b, idx, k)
  {
    assert events[2 * k] == rest[2 * (k - 1)];
    assert events[2 * k + 1] == rest[2 * (k - 1) + 1];
  }

  /**
   * With no call throwing, the loop is exactly one `GetMessage(i)` followed by
   * one `eval` of the callback holding message i, for each i below the bound,
   * in ascending order.
   */
  lemma {:induction false} FaultFreeIterations(s: Pop3Settings, b: Pop3Behaviour, idx: nat)
    requires b.failingIndices == {} && b.failingLambdas == {}
    requires idx <= VisitCount(|b.mailbox|, s.max)
    ensures var r := Iterations(s, b, idx);
            var n := VisitCount(|b.mailbox|, s.max);
            && r.outcome == Pass
            && |r.events| == 2 * (n - idx)
            && forall k: nat :: k < n - idx ==> PairAt(r.events, s, b, idx, k)
    decreases |b.mailbox| - idx
  {
    var n := VisitCount(|b.mailbox|, s.max);
    if Done(idx, |b.mailbox|, s.max) {
      var rest := Iterations(s, b, idx + 1).events;
      FaultFreeIterations(s, b, idx + 1);
      var e := Iterations(s, b, idx).events;
      IterationCases(s, b, idx);
      assert e[2..] == rest;
      forall k: nat | k < n - idx
        ensures PairAt(e, s, b, idx, k)
      {
        if k > 0 {
          PairAtShift(e, rest, s, b, idx, k);
        }
      }
    }
  }

  /** Every `eval` comes straight after the retrieval of its message and works on the template plus that message. */
  predicate EvalsFollowRetrievals(events: seq<Pop3Event>, s: Pop3Settings, b: Pop3Behaviour)
  {
    forall j :: 0 <= j < |events| && events[j].Eval? ==>
      && j > 0
      && events[j - 1].GetMessage?
      && events[j - 1].index < |b.mailbox|
      && events[j].lambda == WithMessage(s.lambda, b.mailbox[events[j - 1].index], s.raw)
  }

  /** The loop calls nothing but `GetMessage` and `eval`, and pairs each `eval` with its retrieval. */
  lemma {:induction false} LoopPairsRetrievalAndEval(s: Pop3Settings, b: Pop3Behaviour, idx: nat)
    ensures var e := Iterations(s, b, idx).events;
            && (forall j :: 0 <= j < |e| ==> e[j].GetMessage? || e[j].Eval?)
            && EvalsFollowRetrievals(e, s, b)
            && (e != [] ==> e[0].GetMessage?)
    decreases |b.mailbox| - idx
  {
    if Done(idx, |b.mailbox|, s.max) && idx !in b.failingIndices {
      var lambda := WithMessage(s.lambda, b.mailbox[idx], s.raw);
      if lambda !in b.failingLambdas {
        LoopPairsRetrievalAndEval(s, b, idx + 1);
        var rest := Iterations(s, b, idx + 1).events;
        var e := Iterations(s, b, idx).events;
        assert e == [GetMessage(idx), Eval(lambda)] + rest;
        forall j | 0 <= j < |e| && e[j].Eval?
          ensures j > 0 && e[j - 1].GetMessage? && e[j - 1].index < |b.mailbox|
          ensures e[j].lambda == WithMessage(s.lambda, b.mailbox[e[j - 1].index], s.raw)
        {
          if j >= 2 {
            assert e[j] == rest[j - 2];
            assert j - 2 > 0 && e[j - 1] == rest[j - 3];
          }
        }
      }
    }
  }

  /** Calls that are neither `eval` nor client calls around the connection can precede the loop without breaking its pairing. */
  lemma PrefixKeepsPairing(prefix: seq<Pop3Event>, loop: seq<Pop3Event>, s: Pop3Settings, b: Pop3Behaviour)
    requires forall j :: 0 <= j < |prefix| ==> prefix[j].Authenticate? || prefix[j].GetMessageCount?
    requires forall j :: 0 <= j < |loop| ==> loop[j].GetMessage? || loop[j].Eval?
    requires EvalsFollowRetrievals(loop, s, b)
    ensures EvalsFollowRetrievals(prefix + loop, s, b)
    ensures forall j :: 0 <= j < |prefix + loop| ==> !(prefix + loop)[j].Disconnect? && !(prefix + loop)[j].Connect?
  {
    var e := prefix + loop;
    var m := |prefix|;
    forall j | 0 <= j < |e| && e[j].Eval?
      ensures j > 0 && e[j - 1].GetMessage? && e[j - 1].index < |b.mailbox|
      ensures e[j].lambda == WithMessage(s.lambda, b.mailbox[e[j - 1].index], s.raw)
    {
      assert e[j] == loop[j - m];
      assert j - m > 0 && e[j - 1] == loop[j - m - 1];
    }
    forall j | 0 <= j < |e|
      ensures !e[j].Disconnect? && !e[j].Connect?
    {
      if j >= m {
        assert e[j] == loop[j - m];
      }
    }
  }

  /**
   * The `try` block's calls: the authentication when there are credentials,
   * then, unless it threw, the count, then, unless that threw, the loop,
   * which calls only retrievals and evals; every eval is paired with its
   * retrieval and no call connects or disconnects.
   */
  lemma SessionShape(s: Pop3Settings, b: Pop3Behaviour)
    ensures var e := Session(s, b).events;
            var c := s.connection;
            var auth := if HasCredentials(c) then [Authenticate(c.username.value, c.password)] else [];
            && |auth| <= |e| && e[..|auth|] == auth
            && (HasCredentials(c) && b.authenticateFails ==> e == auth)
            && (!(HasCredentials(c) && b.authenticateFails) ==>
                  && |auth| < |e| && e[|auth|] == GetMessageCount
                  && e[|auth| + 1..] == (if b.countFails then [] else Iterations(s, b, 0).events))
            && (forall j :: |auth| < j < |e| ==> e[j].GetMessage? || e[j].Eval?)
            && EvalsFollowRetrievals(e, s, b)
            && (forall j :: 0 <= j < |e| ==> !e[j].Disconnect? && !e[j].Connect?)
  {
    SessionParts(s, b);
    SessionLoopKinds(s, b);
    SessionPairing(s, b);
  }

  /** After the count only the loop's calls follow: retrievals and evals. */
  lemma SessionLoopKinds(s: Pop3Settings, b: Pop3Behaviour)
    ensures var e := Session(s, b).events;
            var c := s.connection;
            var auth := if HasCredentials(c) then [Authenticate(c.username.value, c.password)] else [];
            forall j :: |auth| < j < |e| ==> e[j].GetMessage? || e[j].Eval?
  {
    SessionParts(s, b);
    var c := s.connection;
    var n := if HasCredentials(c) then 1 else 0;
    var e := Session(s, b).events;
    if !(HasCredentials(c) && b.authenticateFails) && !b.countFails {
      LoopPairsRetrievalAndEval(s, b, 0);
      TailOnlyLoopCalls(e, n, Iterations(s, b, 0).events);
    }
  }

  /** A sequence whose part after position `n` holds only retrievals and evals. */
  lemma TailOnlyLoopCalls(e: seq<Pop3Event>, n: nat, loop: seq<Pop3Event>)
    requires n < |e| && e[n + 1..] == loop
    requires forall k :: 0 <= k < |loop| ==> loop[k].GetMessage? || loop[k].Eval?
    ensures forall j :: n < j < |e| ==> e[j].GetMessage? || e[j].Eval?
  {
    forall j | n < j < |e|
      ensures e[j].GetMessage? || e[j].Eval?
    {
      assert e[j] == loop[j - n - 1];
    }
  }

  /** The authentication, the count and the loop, each present unless an earlier call threw. */
  lemma SessionParts(s: Pop3Settings, b: Pop3Behaviour)
    ensures var e := Session(s, b).events;
            var c := s.connection;
            var auth := if HasCredentials(c) then [Authenticate(c.username.value, c.password)] else [];
            && |auth| <= |e| && e[..|auth|] == auth
            && (HasCredentials(c) && b.authenticateFails ==> e == auth)
            && (!(HasCredentials(c) && b.authenticateFails) ==>
                  && |auth| < |e| && e[|auth|] == GetMessageCount
                  && e[|auth| + 1..] == (if b.countFails then [] else Iterations(s, b, 0).events))
  {
    var c := s.connection;
    var auth := if HasCredentials(c) then [Authenticate(c.username.value, c.password)] else [];
    var e := Session(s, b).events;
    if !(HasCredentials(c) && b.authenticateFails) {
      var rest := if b.countFails then [] else Iterations(s, b, 0).events;
      assert e == auth + [GetMessageCount] + rest;
      assert e[|auth| + 1..] == rest;
    }
  }

  /** Each eval of the `try` block is paired with its retrieval, and no call connects or disconnects. */
  lemma SessionPairing(s: Pop3Settings, b: Pop3Behaviour)
    ensures var e := Session(s, b).events;
            var c := s.connection;
            var auth := if HasCredentials(c) then [Authenticate(c.username.value, c.password)] else [];
            && EvalsFollowRetrievals(e, s, b)
            && (forall j :: 0 <= j < |e| ==> !e[j].Disconnect? && !e[j].Connect?)
  {
    var c := s.connection;
    var auth := if HasCredentials(c) then [Authenticate(c.username.value, c.password)] else [];
    var e := Session(s, b).events;
    if HasCredentials(c) && b.authenticateFails {
      assert e == auth + [];
      PrefixKeepsPairing(auth, [], s, b);
    } else if b.countFails {
      assert e == (auth + [GetMessageCount]) + [];
      PrefixKeepsPairing(auth + [GetMessageCount], [], s, b);
    } else {
      var loop := Iterations(s, b, 0).events;
      LoopPairsRetrievalAndEval(s, b, 0);
      assert e == (auth + [GetMessageCount]) + loop;
      PrefixKeepsPairing(auth + [GetMessageCount], loop, s, b);
    }
  }

  /**
   * When `Connect` throws nothing else is called and `Disconnect` never is;
   * otherwise `Disconnect(true)` is called exactly once, as the last call,
   * whatever the session did.
   */
  lemma DisconnectsOnce(s: Pop3Settings, b: Pop3Behaviour)
    ensures var r := Connected(s, b);
            var c := s.connection;
            && r.events[0] == Connect(c.server, c.port, c.secure)
            && (b.connectFails ==> r.events == [r.events[0]] && Disconnects(r.events) == 0 &&
                                   r.outcome == Fail(TransportFailed(ConnectCall)))
            && (!b.connectFails ==> Disconnects(r.events) == 1 && r.events[|r.events| - 1] == Disconnect(true))
  {
    var r := Connected(s, b);
    var connect := Connect(s.connection.server, s.connection.port, s.connection.secure);
    if !b.connectFails {
      SessionShape(s, b);
      var head := [connect] + Session(s, b).events;
      assert r.events == head + [Disconnect(true)];
      NoDisconnectCountsZero(head);
      assert r.events[..|r.events| - 1] == head;
    } else {
      NoDisconnectCountsZero(r.events);
    }
  }

  /** The same for a whole invocation whose settings resolve. */
  lemma DisconnectExactlyOnceAfterConnect(configuration: Configuration, input: Node, b: Pop3Behaviour)
    requires NewPop3Settings(configuration, input).Success?
    ensures var r := Fetch(configuration, input, b);
            var c := NewPop3Settings(configuration, input).value.connection;
            && r.events[0] == Connect(c.server, c.port, c.secure)
            && (b.connectFails ==> r.events == [r.events[0]] && Disconnects(r.events) == 0 &&
                                   r.outcome == Fail(TransportFailed(ConnectCall)))
            && (!b.connectFails ==> Disconnects(r.events) == 1 && r.events[|r.events| - 1] == Disconnect(true))
  {
    var s := NewPop3Settings(configuration, input).value;
    assert Fetch(configuration, input, b) == Connected(s, b);
    DisconnectsOnce(s, b);
  }

  /**
   * The calls start with connect; once connected, authenticate comes second
   * exactly with credentials and the count follows unless authentication
   * threw; without credentials `Authenticate` is never called, whatever the
   * server does.
   */
  lemma CallOrder(s: Pop3Settings, b: Pop3Behaviour)
    ensures var e := Connected(s, b).events;
            var c := s.connection;
            && e[0] == Connect(c.server, c.port, c.secure)
            && (!b.connectFails && HasCredentials(c) ==>
                  && e[1] == Authenticate(c.username.value, c.password)
                  && (!b.authenticateFails ==> e[2] == GetMessageCount))
            && (!b.connectFails && !HasCredentials(c) ==> e[1] == GetMessageCount)
            && (!HasCredentials(c) ==> forall j :: 0 <= j < |e| ==> !e[j].Authenticate?)
  {
    var c := s.connection;
    var connect := Connect(c.server, c.port, c.secure);
    var e := Connected(s, b).events;
    if !b.connectFails {
      var session := Session(s, b).events;
      SessionShape(s, b);
      assert e == [connect] + session + [Disconnect(true)];
      if HasCredentials(c) {
        assert session[..1] == [Authenticate(c.username.value, c.password)];
        assert e[1] == session[0];
        if !b.authenticateFails {
          assert e[2] == session[1];
        }
      } else {
        assert e[1] == session[0];
        forall j | 0 <= j < |e|
          ensures !e[j].Authenticate?
        {
          if 2 <= j < |e| - 1 {
            assert e[j] == session[j - 1];
          }
        }
      }
    }
  }

  /**
   * `copy` is the [.lambda] template's own copy for `message`: the template's
   * name, value and children, with the message node inserted first; in raw
   * mode that node is the message's full text with no children.
   */
  predicate IsolatedCopy(copy: Node, template: Node, message: MimeMessage, raw: bool)
  {
    && copy.name == template.name && copy.value == template.value
    && |copy.children| == |template.children| + 1
    && copy.children[1..] == template.children
    && copy.children[0] == MessageNode(message, raw)
    && (raw ==> copy.children[0] == Node(".message", VText(message.text), []))
  }

  /** Each callback runs on its own copy of the [.lambda] template, holding the message retrieved just before. */
  lemma CallbackCopiesAreIsolated(s: Pop3Settings, b: Pop3Behaviour)
    ensures var e := Connected(s, b).events;
            forall j :: 0 <= j < |e| && e[j].Eval? ==>
              && j > 0 && e[j - 1].GetMessage? && e[j - 1].index < |b.mailbox|
              && IsolatedCopy(e[j].lambda, s.lambda, b.mailbox[e[j - 1].index], s.raw)
  {
    var e := Connected(s, b).events;
    if !b.connectFails {
      SessionShape(s, b);
      var session := Session(s, b).events;
      var connect := Connect(s.connection.server, s.connection.port, s.connection.secure);
      assert e == [connect] + session + [Disconnect(true)];
      forall j | 0 <= j < |e| && e[j].Eval?
        ensures j > 0 && e[j - 1].GetMessage? && e[j - 1].index < |b.mailbox|
        ensures IsolatedCopy(e[j].lambda, s.lambda, b.mailbox[e[j - 1].index], s.raw)
      {
        assert e[j] == session[j - 1];
        assert j - 1 > 0 && e[j - 1] == session[j - 2];
        WithMessageShape(s.lambda, b.mailbox[e[j - 1].index], s.raw);
      }
    } else {
      assert e == [Connect(s.connection.server, s.connection.port, s.connection.secure)];
    }
  }

  lemma WithMessageShape(lambda: Node, message: MimeMessage, raw: bool)
    ensures var copy := WithMessage(lambda, message, raw);
            && copy.name == lambda.name && copy.value == lambda.value
            && |copy.children| == |lambda.children| + 1
            && copy.children[1..] == lambda.children
            && copy.children[0] == MessageNode(message, raw)
  {
    var copy := WithMessage(lambda, message, raw);
    assert copy.children == [MessageNode(message, raw)] + lambda.children;
    assert copy.children[1..] == lambda.children;
  }

  /** With max 2 and five messages in the mailbox, exactly messages 0 and 1 are visited, in that order. */
  lemma MaxTwoOfFive(s: Pop3Settings, b: Pop3Behaviour)
    requires s.max == 2 && |b.mailbox| == 5
    requires b.failingIndices == {} && b.failingLambdas == {}
    ensures Iterations(s, b, 0).events == [
              GetMessage(0), Eval(WithMessage(s.lambda, b.mailbox[0], s.raw)),
              GetMessage(1), Eval(WithMessage(s.lambda, b.mailbox[1], s.raw))]
  {
    FaultFreeIterations(s, b, 0);
    var e := Iterations(s, b, 0).events;
    assert e[2 * 1] == GetMessage(1);
    assert e[2 * 1 + 1] == Eval(WithMessage(s.lambda, b.mailbox[1], s.raw));
  }

  /** A max of 0 or below -1 visits nothing; -1 visits every message. */
  lemma MaxExtremes(s: Pop3Settings, b: Pop3Behaviour)
    ensures s.max == 0 || s.max < -1 ==> Iterations(s, b, 0).events == []
    ensures s.max == -1 && b.failingIndices == {} && b.failingLambdas == {} ==>
              GetIndices(Iterations(s, b, 0).events) == seq(|b.mailbox|, k => k)
  {
    VisitedIndicesAscending(s, b, 0);
    if b.failingIndices == {} && b.failingLambdas == {} {
      FaultFreeIterations(s, b, 0);
    }
  }

  /**
   * The settings resolve in order: connection, max, raw, [.lambda]. A
   * connection error therefore wins over a missing [.lambda], and any settings
   * error means no client call at all.
   */
  lemma ConnectionErrorBeforeLambdaError(configuration: Configuration, input: Node, b: Pop3Behaviour)
    requires New(configuration, FirstOrDefault(input.children, "server"), "pop3").Failure?
    ensures Fetch(configuration, input, b) ==
              Run([], Fail(New(configuration, FirstOrDefault(input.children, "server"), "pop3").error))
  {
  }

  /** Without [max] and [raw] children the loop is bounded by 50 and messages are parsed; [.lambda] is mandatory. */
  lemma Pop3Defaults(configuration: Configuration, input: Node, b: Pop3Behaviour)
    requires New(configuration, FirstOrDefault(input.children, "server"), "pop3").Success?
    requires Named(input.children, "max") == [] && Named(input.children, "raw") == []
    ensures FirstOrDefault(input.children, ".lambda").None? ==> Fetch(configuration, input, b) == Run([], Fail(MissingLambda))
    ensures FirstOrDefault(input.children, ".lambda").Some? ==>
              NewPop3Settings(configuration, input) == Success(Pop3Settings(
                New(configuration, FirstOrDefault(input.children, "server"), "pop3").value,
                50, false, FirstOrDefault(input.children, ".lambda").value))
  {
    FirstIsFirstNamed(input.children, "max");
    FirstIsFirstNamed(input.children, "raw");
  }

  /** The names of a node list, in order. */
  function Names(nodes: seq<Node>): seq<string>
  {
    if nodes == [] then [] else [nodes[0].name] + Names(nodes[1..])
  }

  lemma {:induction false} NamesAppend(a: seq<Node>, b: seq<Node>)
    ensures Names(a + b) == Names(a) + Names(b)
  {
    if a == [] {
      assert a + b == b;
    } else {
      assert (a + b)[0] == a[0];
      assert (a + b)[1..] == a[1..] + b;
      NamesAppend(a[1..], b);
    }
  }

  function GroupName(items: seq<Address>, name: string): seq<string>
  {
    if items == [] then [] else [name]
  }

  /**
   * A parsed [.message] holds subject, from, to, cc, bcc and entity in that
   * order, each recipient group present exactly when its list is non-empty;
   * the entity carries the parse result's value and children.
   */
  lemma ParsedMessageLayout(message: MimeMessage)
    ensures var node := MessageNode(message, false);
            && node.value == VNone
            && Names(node.children) ==
                 ["subject"] + GroupName(message.from, "from") + GroupName(message.to, "to")
                 + GroupName(message.cc, "cc") + GroupName(message.bcc, "bcc") + ["entity"]
            && node.children[0] == Node("subject", if message.subject.Some? then VText(message.subject.value) else VNone, [])
            && node.children[|node.children| - 1] == Node("entity", message.body.value, message.body.children)
  {
    var c1 := [SubjectNode(message)];
    var c2 := c1 + RecipientGroup(message.from, "from");
    var c3 := c2 + RecipientGroup(message.to, "to");
    var c4 := c3 + RecipientGroup(message.cc, "cc");
    var c5 := c4 + RecipientGroup(message.bcc, "bcc");
    var c6 := c5 + [EntityNode(message)];
    assert MessageNode(message, false).children == c6;
    assert Names(c1) == ["subject"];
    assert Names([EntityNode(message)]) == ["entity"];
    AppendGroupNames(c1, message.from, "from");
    AppendGroupNames(c2, message.to, "to");
    AppendGroupNames(c3, message.cc, "cc");
    AppendGroupNames(c4, message.bcc, "bcc");
    NamesAppend(c5, [EntityNode(message)]);
  }

  lemma AppendGroupNames(nodes: seq<Node>, items: seq<Address>, name: string)
    ensures Names(nodes + RecipientGroup(items, name)) == Names(nodes) + GroupName(items, name)
  {
    NamesAppend(nodes, RecipientGroup(items, name));
    if items != [] {
      assert Names(RecipientGroup(items, name)) == [name] + Names([]);
    } else {
      assert Names(RecipientGroup(items, name)) == [];
    }
  }

  /** The mailboxes of a list keep their order, and a list of mailboxes only is kept whole. */
  lemma MailboxesFilter(items: seq<Address>)
    ensures forall a :: a in Mailboxes(items) <==> a in items && a.Mailbox?
    ensures (forall k :: 0 <= k < |items| ==> items[k].Mailbox?) ==> Mailboxes(items) == items
  {
    MailboxesMembers(items);
    if forall k :: 0 <= k < |items| ==> items[k].Mailbox? {
      MailboxesKeepAll(items);
    }
  }

  lemma {:induction false} MailboxesMembers(items: seq<Address>)
    ensures forall a :: a in Mailboxes(items) <==> a in items && a.Mailbox?
  {
    if items != [] {
      var init, last := items[..|items| - 1], items[|items| - 1];
      MailboxesMembers(init);
      assert items == init + [last];
      assert Mailboxes(items) == Mailboxes(init) + (if last.Mailbox? then [last] else []);
    }
  }

  lemma {:induction false} MailboxesKeepAll(items: seq<Address>)
    requires forall k :: 0 <= k < |items| ==> items[k].Mailbox?
    ensures Mailboxes(items) == items
  {
    if items != [] {
      var init, last := items[..|items| - 1], items[|items| - 1];
      MailboxesKeepAll(init);
      assert items == init + [last];
    }
  }

  /** A group holds one name→address child per mailbox of the list, in list order. */
  lemma {:induction false} MailboxNodesInOrder(items: seq<Address>)
    ensures |MailboxNodes(items)| == |Mailboxes(items)|
    ensures forall j :: 0 <= j < |Mailboxes(items)| ==>
              MailboxNodes(items)[j] == Node(Mailboxes(items)[j].name, VText(Mailboxes(items)[j].address), [])
  {
    if items != [] {
      var init, last := items[..|items| - 1], items[|items| - 1];
      MailboxNodesInOrder(init);
      assert MailboxNodes(items) == MailboxNodes(init) + (if last.Mailbox? then [MailboxNode(last)] else []);
      assert Mailboxes(items) == Mailboxes(init) + (if last.Mailbox? then [last] else []);
    }
  }

  /**
   * A non-empty list whose entries are all of another kind still yields a
   * group, with no children: the emptiness test looks at the list, not at
   * its mailboxes.
   */
  lemma {:induction false} OtherAddressesGiveEmptyGroup(items: seq<Address>, name: string)
    requires items != []
    requires forall k :: 0 <= k < |items| ==> items[k].OtherAddress?
    ensures RecipientGroup(items, name) == [Node(name, VNone, [])]
  {
    var init := items[..|items| - 1];
    if init != [] {
      assert forall k :: 0 <= k < |init| ==> init[k] == items[k];
      OtherAddressesGiveEmptyGroup(init, name);
      assert MailboxNodes(init) == [];
    }
    assert MailboxNodes(items) == MailboxNodes(init) + [];
  }
}
