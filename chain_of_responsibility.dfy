/**
  The Chain of Responsibility pattern: request validators linked one after
  another. Each handler checks one attribute of the request and either
  rejects it with an exception message or passes the unchanged attributes on
  to its successor; the end of the chain yields null.

  Handlers are objects whose successor field setNext rewrites; their
  handle methods are proved equal to Run, a function over the sequence of
  checks the chain holds.
*/
module ChainOfResponsibility {
  import opened Wrappers

  /** The PHP values the request attributes hold. */
  datatype Value = Null | Bool(b: bool) | Int(i: int) | Str(s: string)

  type Attributes = map<string, Value>

  /** Reading a key: a missing key reads as null. */
  function Lookup(attributes: Attributes, key: string): (v: Value)
    ensures key !in attributes ==> v == Null
    ensures key in attributes ==> v == attributes[key]
  {
    if key in attributes then attributes[key] else Null
  }

  /** PHP's empty() on the values above: null, false, 0, "" and "0". */
  predicate IsEmpty(v: Value)
    ensures v.Null? ==> IsEmpty(v)
    ensures v.Bool? ==> (IsEmpty(v) <==> !v.b)
    ensures v.Int? ==> (IsEmpty(v) <==> v.i == 0)
    ensures v.Str? ==> (IsEmpty(v) <==> v.s == "" || v.s == "0")
  {
    v == Null || v == Bool(false) || v == Int(0) || v == Str("") || v == Str("0")
  }

  /** IPCheckHandler::BANNED_IPS. */
  const BannedIps: seq<string> := ["123.123.123.123"]

  /** PHP's in_array(value, BANNED_IPS, true): strict comparison, so only a
      string equal to a listed address matches. */
  predicate IsBanned(v: Value)
    ensures IsBanned(v) <==> v == Str("123.123.123.123")
  {
    v.Str? && v.s in BannedIps
  }

  /** The three concrete handlers, by the check they perform. */
  datatype Check = IPCheck | MustBeLoggedIn | MustBeAdminUser

  /** The message a handler's exception carries when its check fails on the
      attributes, or None when the check passes and the handler forwards. */
  function Failure(check: Check, attributes: Attributes): (r: Option<string>)
    ensures check == IPCheck ==>
      (r == Some("Invalid IP") <==> IsBanned(Lookup(attributes, "ip"))) &&
      (r == None <==> !IsBanned(Lookup(attributes, "ip")))
    ensures check == MustBeLoggedIn ==>
      (r == Some("Must be logged in") <==> IsEmpty(Lookup(attributes, "user_id"))) &&
      (r == None <==> !IsEmpty(Lookup(attributes, "user_id")))
    ensures check == MustBeAdminUser ==>
      (r == Some("Must be admin user") <==> IsEmpty(Lookup(attributes, "is_admin"))) &&
      (r == None <==> !IsEmpty(Lookup(attributes, "is_admin")))
  {
    match check
    case IPCheck =>
      if IsBanned(Lookup(attributes, "ip")) then Some("Invalid IP") else None
    case MustBeLoggedIn =>
      if IsEmpty(Lookup(attributes, "user_id")) then Some("Must be logged in") else None
    case MustBeAdminUser =>
      if IsEmpty(Lookup(attributes, "is_admin")) then Some("Must be admin user") else None
  }

  predicate Passes(check: Check, attributes: Attributes)
  {
    Failure(check, attributes).None?
  }

  /** What a handle call ends in: the null returned at the end of the chain,
      or the exception some handler threw. */
  datatype Outcome = EndOfChain | Thrown(message: string)

  /** Runs the checks left to right on the same attributes, stopping at the
      first that fails; the empty chain is the missing successor. */
  function Run(chain: seq<Check>, attributes: Attributes): (r: Outcome)
    ensures r == EndOfChain <==> forall i :: 0 <= i < |chain| ==> Passes(chain[i], attributes)
    ensures r.Thrown? <==> exists i :: 0 <= i < |chain| && !Passes(chain[i], attributes)
    decreases |chain|
  {
    if chain == [] then EndOfChain
    else
      match Failure(chain[0], attributes)
      case Some(message) => Thrown(message)
      case None =>
        var r := Run(chain[1..], attributes);
        assert forall i :: 1 <= i < |chain| ==> chain[i] == chain[1..][i - 1];
        r
  }

  /** The outcome is the exception of the first failing check. */
  lemma {:induction false} FirstFailureWins(chain: seq<Check>, attributes: Attributes, k: nat)
    requires k < |chain| && !Passes(chain[k], attributes)
    requires forall j :: 0 <= j < k ==> Passes(chain[j], attributes)
    ensures Run(chain, attributes) == Thrown(Failure(chain[k], attributes).value)
    decreases k
  {
    if k > 0 {
      assert Passes(chain[0], attributes);
      FirstFailureWins(chain[1..], attributes, k - 1);
    }
  }

  /** Short-circuit: once a prefix of the chain throws, the handlers behind
      it are never run; when it passes, the rest of the chain decides. */
  lemma {:induction false} RunSplits(front: seq<Check>, back: seq<Check>, attributes: Attributes)
    ensures Run(front + back, attributes)
         == if Run(front, attributes).Thrown? then Run(front, attributes) else Run(back, attributes)
    decreases |front|
  {
    if front == [] {
      assert front + back == back;
    } else {
      assert (front + back)[0] == front[0];
      assert (front + back)[1..] == front[1..] + back;
      RunSplits(front[1..], back, attributes);
    }
  }

  /** Rearranging the checks does not change whether the chain throws, only
      which message it throws. */
  lemma ThrowsRegardlessOfOrder(chain: seq<Check>, other: seq<Check>, attributes: Attributes)
    requires multiset(chain) == multiset(other)
    ensures Run(chain, attributes).Thrown? <==> Run(other, attributes).Thrown?
  {
    if Run(chain, attributes).Thrown? {
      var i :| 0 <= i < |chain| && !Passes(chain[i], attributes);
      assert chain[i] in multiset(other);
      var j :| 0 <= j < |other| && other[j] == chain[i];
    }
    if Run(other, attributes).Thrown? {
      var j :| 0 <= j < |other| && !Passes(other[j], attributes);
      assert other[j] in multiset(chain);
      var i :| 0 <= i < |chain| && chain[i] == other[j];
    }
  }

  /** A handler: the check it performs (its concrete class) and the
      successor it forwards to. */
  class Handler {
    const kind: Check
    var next: Handler?

    constructor (kind: Check)
      ensures this.kind == kind && next == null
    {
      this.kind := kind;
      next := null;
    }

    /** Replaces the successor field and nothing else. */
    method SetNext(next: Handler)
      modifies this
      ensures this.next == next
    {
      this.next := next;
    }

    /** The successor's handle result on the same attributes, or null
        (EndOfChain) when there is no successor. chain is this handler
        followed by its successors; it only witnesses that the chain ends. */
    method Next(attributes: Attributes, ghost chain: seq<Handler>) returns (r: Outcome)
      requires Chain(chain) && chain[0] == this
      ensures r == Run(Kinds(chain[1..]), attributes)
      decreases |chain|, 0
    {
      if next == null {
        r := EndOfChain;
      } else {
        assert Chain(chain[1..]);
        r := next.Handle(attributes, chain[1..]);
      }
    }

    /** Performs this handler's check, then forwards through Next. */
    method Handle(attributes: Attributes, ghost chain: seq<Handler>) returns (r: Outcome)
      requires Chain(chain) && chain[0] == this
      ensures r == Run(Kinds(chain), attributes)
      decreases |chain|, 1
    {
      match Failure(kind, attributes)
      case Some(message) =>
        r := Thrown(message);
      case None =>
        r := Next(attributes, chain);
        assert Kinds(chain) == [kind] + Kinds(chain[1..]);
    }
  }

  /** The handlers of chain are linked one to the next, and the last has no
      successor. */
  ghost predicate Chain(chain: seq<Handler>)
    reads chain
  {
    && |chain| > 0
    && (forall i :: 0 <= i < |chain| - 1 ==> chain[i].next == chain[i + 1])
    && chain[|chain| - 1].next == null
  }

  /** The checks a chain of handlers performs, in order. */
  function Kinds(chain: seq<Handler>): (ks: seq<Check>)
    ensures |ks| == |chain| && forall i :: 0 <= i < |chain| ==> ks[i] == chain[i].kind
  {
    seq(|chain|, i requires 0 <= i < |chain| => chain[i].kind)
  }

  /** The attributes of the script at the end of the source file. */
  function DemoAttributes(): Attributes
  {
    map["ip" := Str("127.0.0.1"), "requested_uri" := Str("/home"),
        "user_id" := Int(123), "is_admin" := Bool(true)]
  }

  /** The script at the end of the source file: logged-in check, then IP
      check, then admin check. The demo request passes all three, while
      a request with the banned address throws "Invalid IP". */
  method ChainDemo() returns (demo: Outcome, banned: Outcome)
    ensures demo == EndOfChain
    ensures banned == Thrown("Invalid IP")
  {
    var mustBeLoggedIn := new Handler(MustBeLoggedIn);
    var ipCheck := new Handler(IPCheck);
    var adminCheck := new Handler(MustBeAdminUser);

    mustBeLoggedIn.SetNext(ipCheck);
    ipCheck.SetNext(adminCheck);

    ghost var chain := [mustBeLoggedIn, ipCheck, adminCheck];
    assert Kinds(chain) == [MustBeLoggedIn, IPCheck, MustBeAdminUser];
    demo := mustBeLoggedIn.Handle(DemoAttributes(), chain);
    assert Passes(MustBeLoggedIn, DemoAttributes());
    assert Passes(IPCheck, DemoAttributes());
    assert Passes(MustBeAdminUser, DemoAttributes());

    var attacker := DemoAttributes()["ip" := Str("123.123.123.123")];
    banned := mustBeLoggedIn.Handle(attacker, chain);
    assert Passes(MustBeLoggedIn, attacker);
    FirstFailureWins(Kinds(chain), attacker, 1);
  }
}
