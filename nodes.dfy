/**
 * The scripting runtime's parameter tree as the mail slots see it: a node has a
 * name, an optional value and an ordered list of children. The two child lookups
 * the slots use (`FirstOrDefault` and `SingleOrDefault` by name) and the typed
 * read of a value (`GetEx<T>`) are defined here.
 */
module Nodes {
  import opened Wrappers
  import opened Numbers
  import opened Errors

  /** A node's value: null, text, a 32-bit integer, a boolean, or an opaque MIME entity. */
  datatype Value =
    | VNone
    | VText(text: string)
    | VInt(number: Int32)
    | VBool(flag: bool)
    | VEntity(id: nat)

  datatype Node = Node(name: string, value: Value, children: seq<Node>)

  /** The children called `name`, in document order. */
  function Named(children: seq<Node>, name: string): (r: seq<Node>)
    ensures |r| <= |children|
    ensures forall k :: 0 <= k < |r| ==> r[k].name == name && r[k] in children
  {
    if children == [] then []
    else (if children[0].name == name then [children[0]] else []) + Named(children[1..], name)
  }

  /** Position of the first child called `name`, or `|children|` when there is none. */
  function FirstIndex(children: seq<Node>, name: string): (r: nat)
    ensures r <= |children|
    ensures forall j :: 0 <= j < r ==> children[j].name != name
    ensures r < |children| ==> children[r].name == name
  {
    if children == [] then 0
    else if children[0].name == name then 0
    else 1 + FirstIndex(children[1..], name)
  }

  /** `Children.FirstOrDefault(x => x.Name == name)`: the first child with that name, or null. */
  function FirstOrDefault(children: seq<Node>, name: string): Option<Node>
  {
    var k := FirstIndex(children, name);
    if k < |children| then Some(children[k]) else None
  }

  lemma {:induction false} FirstIsFirstNamed(children: seq<Node>, name: string)
    ensures FirstOrDefault(children, name).None? <==> Named(children, name) == []
    ensures FirstOrDefault(children, name).Some? ==> FirstOrDefault(children, name).value == Named(children, name)[0]
  {
    if children != [] && children[0].name != name {
      FirstIsFirstNamed(children[1..], name);
      assert FirstOrDefault(children, name) == FirstOrDefault(children[1..], name);
    }
  }

  /**
   * `Children.SingleOrDefault(x => x.Name == name)`: null when no child has that
   * name, the child when exactly one has, and an exception when several have.
   * When it succeeds it agrees with `FirstOrDefault`.
   */
  function SingleOrDefault(children: seq<Node>, name: string): (r: Result<Option<Node>, Error>)
    ensures r.Failure? <==> |Named(children, name)| >= 2
    ensures r.Failure? ==> r.error == MoreThanOne(name)
    ensures r.Success? ==> r.value == FirstOrDefault(children, name)
  {
    FirstIsFirstNamed(children, name);
    var matches := Named(children, name);
    if |matches| == 0 then Success(None)
    else if |matches| == 1 then Success(Some(matches[0]))
    else Failure(MoreThanOne(name))
  }

  lemma {:induction false} NoneNamed(children: seq<Node>, name: string)
    requires forall k :: 0 <= k < |children| ==> children[k].name != name
    ensures Named(children, name) == []
  {
    if children != [] {
      NoneNamed(children[1..], name);
    }
  }

  /** When no two children share a name, looking up a child's name finds that child alone. */
  lemma {:induction false} DistinctNamesFindOne(children: seq<Node>, k: nat)
    requires forall i, j :: 0 <= i < j < |children| ==> children[i].name != children[j].name
    requires k < |children|
    ensures Named(children, children[k].name) == [children[k]]
    ensures SingleOrDefault(children, children[k].name) == Success(Some(children[k]))
  {
    var name := children[k].name;
    if k == 0 {
      NoneNamed(children[1..], name);
    } else {
      DistinctNamesFindOne(children[1..], k - 1);
      assert children[1..][k - 1] == children[k];
    }
  }

  /**
   * `GetEx<string>()`: null stays null, text is itself, numbers and booleans
   * are written with `ToString`, and an entity cannot be converted.
   */
  function AsText(v: Value): Result<Option<string>, Error>
  {
    match v
    case VNone => Success(None)
    case VText(s) => Success(Some(s))
    case VInt(i) => Success(Some(IntText(i)))
    case VBool(b) => Success(Some(BoolText(b)))
    case VEntity(_) => Failure(InvalidCast)
  }

  /** `GetEx<int>()`: text goes through `int.Parse`, a boolean is 1 or 0, null cannot be converted. */
  function AsInt(v: Value): Result<Int32, Error>
  {
    match v
    case VNone => Failure(InvalidCast)
    case VText(s) => (match ParseInt(s) case Some(n) => Success(n) case None => Failure(InvalidFormat(s)))
    case VInt(i) => Success(i)
    case VBool(b) => Success(if b then 1 else 0)
    case VEntity(_) => Failure(InvalidCast)
  }

  /** `GetEx<bool>()`: text goes through `bool.Parse`, a number is true unless 0, null cannot be converted. */
  function AsBool(v: Value): Result<bool, Error>
  {
    match v
    case VNone => Failure(InvalidCast)
    case VText(s) => (match ParseBool(s) case Some(b) => Success(b) case None => Failure(InvalidFormat(s)))
    case VInt(i) => Success(i != 0)
    case VBool(b) => Success(b)
    case VEntity(_) => Failure(InvalidCast)
  }

  /**
   * A typed value and its text form read the same: `port:int:123` and
   * `port:123` give the same integer, `secure:bool:true` and `secure:true`
   * the same boolean.
   */
  lemma TypedAndTextValuesAgree(v: Value)
    requires v.VInt? || v.VBool?
    ensures AsText(v).Success? && AsText(v).value.Some?
    ensures v.VInt? ==> AsInt(VText(AsText(v).value.value)) == AsInt(v)
    ensures v.VBool? ==> AsBool(VText(AsText(v).value.value)) == AsBool(v)
  {
    if v.VInt? {
      IntTextRoundTrip(v.number);
    }
  }
}
