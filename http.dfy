/** The HTTP boundary: requests the core sends, responses it receives, the
    errors its operations raise, and a transport that records every request. */
module Http {
  import opened Prelude
  import opened Json

  /** Where a request goes. `Resolved(path, base)` stands for
      `new URL(path, base).toString()` and `WithParam` for setting one query
      parameter; URL resolution itself is not interpreted. */
  datatype Url =
    | Absolute(s: string)
    | Resolved(path: string, base: string)
    | WithParam(url: Url, name: string, value: string)

  /** A request body: a value sent as given, or a value sent as JSON text
      (by `json: true` or by an explicit `JSON.stringify`). */
  datatype Body = AsGiven(v: Value) | JsonText(v: Value)

  /** Every request the core makes is a POST, so the verb is not recorded. */
  datatype Request = Request(target: Url, headers: map<string, Value>, body: Body)

  /** A response as the request library hands it over with `simple: false`:
      any status, never a rejection because of the status. */
  datatype Response = Response(statusCode: int, body: Value)

  datatype Error =
    | Thrown(message: string)                            // `throw new Error(message)`
    | Rejected(operation: string, status: int, detail: Rendered) // `${operation} failed (${status}): ${detail}`
    | NullDereference(holder: Value, property: string)   // TypeError reading a property of null/undefined
    | TransportFailed(reason: string)                    // the request promise rejected (network, timeout)

  datatype Result<+T> = Ok(value: T) | Err(error: Error)

  /** What the network answers to the k-th request sent through a transport. */
  type Reply = (nat, Request) -> Result<Response>

  /** The status rule every call in the core applies. */
  predicate IsFailureStatus(statusCode: int)
  {
    statusCode >= 400
  }

  /** The message line of a `Rejected` error up to its detail: it names the
      operation and the status, in that order. */
  function RejectionHeadline(operation: string, status: int): (r: string)
    ensures operation <= r
    ensures |operation| + 9 <= |r| && r[|operation|..|operation| + 9] == " failed ("
  {
    operation + " failed (" + IntToString(status) + "): "
  }

  /** The headline gives the status back: two rejections of one operation with
      different statuses never read alike. */
  lemma HeadlineDeterminesStatus(operation: string, s1: int, s2: int)
    requires RejectionHeadline(operation, s1) == RejectionHeadline(operation, s2)
    ensures s1 == s2
  {
    var a := operation + " failed (";
    assert RejectionHeadline(operation, s1) == a + IntToString(s1) + "): ";
    assert RejectionHeadline(operation, s2) == a + IntToString(s2) + "): ";
    SameMiddle(a, IntToString(s1), IntToString(s2), "): ");
    IntToStringInjective(s1, s2);
  }

  lemma SameMiddle(a: string, x: string, y: string, b: string)
    requires a + x + b == a + y + b
    ensures x == y
  {
    var s := a + x + b;
    assert |x| == |y|;
    assert x == s[|a|..|a| + |x|];
    assert y == (a + y + b)[|a|..|a| + |y|];
  }

  /** The `message` of the error as JavaScript would carry it. A rejection
      reads as its headline followed by the detail text. */
  function Message(e: Error, stringify: Stringifier): (m: string)
    ensures e.Thrown? ==> m == e.message
    ensures e.Rejected? ==> RejectionHeadline(e.operation, e.status) <= m
    ensures e.Rejected? ==> m[|RejectionHeadline(e.operation, e.status)|..] == Text(e.detail, stringify)
    ensures e.TransportFailed? ==> m == e.reason
  {
    match e
    case Thrown(message) => message
    case Rejected(operation, status, detail) => RejectionHeadline(operation, status) + Text(detail, stringify)
    case NullDereference(holder, property) =>
      "Cannot read properties of " + ToJsString(holder) + " (reading '" + property + "')"
    case TransportFailed(reason) => reason
  }

  /** Two rejections of one operation whose messages read alike report the
      same status, whatever their details. */
  lemma MessageDeterminesStatus(operation: string, s1: int, d1: Rendered, s2: int, d2: Rendered, stringify: Stringifier)
    requires Message(Rejected(operation, s1, d1), stringify) == Message(Rejected(operation, s2, d2), stringify)
    ensures s1 == s2
  {
    var a := operation + " failed (";
    var u1, u2 := "): " + Text(d1, stringify), "): " + Text(d2, stringify);
    HeadlineParts(operation, s1, Text(d1, stringify));
    HeadlineParts(operation, s2, Text(d2, stringify));
    DropPrefix(a, IntToString(s1) + u1, IntToString(s2) + u2);
    IntToStringHasNoParen(s1);
    IntToStringHasNoParen(s2);
    UpToParen(IntToString(s1), u1, IntToString(s2), u2);
    IntToStringInjective(s1, s2);
  }

  /** A rejection message regrouped: the fixed opening, the status, the rest. */
  lemma HeadlineParts(operation: string, status: int, detail: string)
    ensures RejectionHeadline(operation, status) + detail
         == (operation + " failed (") + (IntToString(status) + ("): " + detail))
  {
  }

  lemma DropPrefix(a: string, p: string, q: string)
    requires a + p == a + q
    ensures p == q
  {
    assert p == (a + p)[|a|..];
    assert q == (a + q)[|a|..];
  }

  /** Two texts that each open with a parenthesis-free part followed by `)`
      agree on that part. */
  lemma UpToParen(x: string, u: string, y: string, v: string)
    requires ')' !in x && ')' !in y
    requires |u| >= 1 && u[0] == ')' && |v| >= 1 && v[0] == ')'
    requires x + u == y + v
    ensures x == y
  {
    FirstParen(x, u);
    FirstParen(y, v);
    assert |x| == |y|;
    assert x == (x + u)[..|x|];
    assert y == (y + v)[..|y|];
  }

  /** In `x + u`, with `u` opening with `)`, the first `)` sits right after `x`. */
  lemma FirstParen(x: string, u: string)
    requires ')' !in x && |u| >= 1 && u[0] == ')'
    ensures (x + u)[|x|] == ')'
    ensures forall i :: 0 <= i < |x| ==> (x + u)[i] != ')'
  {
    forall i | 0 <= i < |x| ensures (x + u)[i] != ')' {
      assert (x + u)[i] == x[i];
    }
  }

  /** `String(n)` of an integer is a sign and digits, never a parenthesis. */
  lemma IntToStringHasNoParen(n: int)
    ensures ')' !in IntToString(n)
  {
    var s := IntToString(n);
    var digits := NatToString(if n < 0 then -n else n);
    assert s == (if n < 0 then "-" else "") + digits;
    forall i | 0 <= i < |s| ensures s[i] != ')' {
      if n < 0 && i > 0 {
        assert s[i] == digits[i - 1];
      }
    }
  }

  /** `Array.isArray(items) ? items : [items]`: both Zotero connectors save a
      single item as a one-element list and a list as it is. */
  function Wrap(items: Value): (r: seq<Value>)
    ensures items.Arr? ==> r == items.elems
    ensures !items.Arr? ==> r == [items]
  {
    if items.Arr? then items.elems else [items]
  }

  /** What both Zotero connectors return after their request: an error carrying
      the status and the body when the status is 400 or more, otherwise
      `{statusCode, response}`. */
  function SaveReply(operation: string, resp: Response): (r: Result<Value>)
    ensures r.Err? <==> IsFailureStatus(resp.statusCode)
    ensures r.Err? ==> r.error == Rejected(operation, resp.statusCode, Detail(resp.body))
    ensures r.Ok? ==> r.value.Obj? && r.value.fields.Keys == {"statusCode", "response"}
    ensures r.Ok? ==> Prop(r.value, "statusCode") == Num(resp.statusCode) && Prop(r.value, "response") == resp.body
  {
    if IsFailureStatus(resp.statusCode) then Err(Rejected(operation, resp.statusCode, Detail(resp.body)))
    else Ok(Obj(map["statusCode" := Num(resp.statusCode), "response" := resp.body]))
  }

  /** The outbound network. `reply(k, req)` is what the k-th request made through
      this transport gets back; `sent` records the requests in order. */
  class Transport {
    var sent: seq<Request>
    const reply: Reply

    constructor (reply: Reply)
      ensures sent == [] && this.reply == reply
    {
      this.reply := reply;
      sent := [];
    }

    /** Performs one request. */
    method Post(req: Request) returns (r: Result<Response>)
      modifies this
      ensures sent == old(sent) + [req]
      ensures r == reply(|old(sent)|, req)
    {
      r := reply(|sent|, req);
      sent := sent + [req];
    }
  }
}
