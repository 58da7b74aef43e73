/**
 * What the client hands to, and gets back from, its HTTP transport: requests
 * with an ordered query and an optional body, responses with a status code and a
 * decoded body, and the transport itself as an object that records every request
 * it is asked to send. Connections, TLS and redirects are the transport's business
 * and are not modelled; the response to each request is supplied by a `server`
 * oracle that may depend on everything sent before.
 */
module Http {
  import opened Wrappers

  /** A decoded response body: the value `json_decode($body, true)` yields. Numbers keep their literal text. */
  datatype Json =
    | JNull
    | JBool(b: bool)
    | JNumber(literal: string)
    | JString(s: string)
    | JList(items: seq<Json>)
    | JObject(members: map<string, Json>)

  /**
   * A PHP value placed in a query or a JSON body. `Base64Of(data)` stands for the
   * string `base64_encode(data)` (RFC 4648, section 4), which is not computed here.
   */
  datatype Value =
    | Str(s: string)
    | Int(i: int)
    | Bool(b: bool)
    | Null
    | Base64Of(data: seq<bv8>)
    | Array(entries: seq<Entry>)

  /** One key/value pair of a PHP array; a PHP array keeps its pairs in insertion order. */
  datatype Entry = Entry(key: string, value: Value)

  datatype Method = GET | POST | PUT | DELETE

  /** No body, a JSON-encoded array, or the byte stream of a local file opened for reading. */
  datatype Body = NoBody | JsonBody(fields: seq<Entry>) | FileStream(path: string)

  /** A request relative to the transport's base URI. */
  datatype Request = Request(verb: Method, path: string, query: seq<Entry>, body: Body)

  datatype Response = Response(status: int, body: Json)

  /** The options the transport is created with. */
  datatype Config = Config(allowRedirects: bool, httpErrors: bool, baseUri: string, headers: seq<Entry>)

  /** The remote service: the response to a request, given every request sent before it. */
  type Server = (seq<Request>, Request) -> Response

  /** The keys of an array, in order. */
  function Keys(q: seq<Entry>): (ks: seq<string>)
    ensures |ks| == |q|
    ensures forall i :: 0 <= i < |q| ==> ks[i] == q[i].key
  {
    seq(|q|, i requires 0 <= i < |q| => q[i].key)
  }

  /** `$q[$key]`: the value stored under `key`, if any. */
  function Get(q: seq<Entry>, key: string): (r: Option<Value>)
    ensures r.None? <==> key !in Keys(q)
    ensures r.Some? ==> Entry(key, r.value) in q
  {
    GetFrom(q, key, 0)
  }

  /** The value under the first occurrence of `key` at or after index `from`. */
  function GetFrom(q: seq<Entry>, key: string, from: nat): (r: Option<Value>)
    requires from <= |q|
    ensures r.None? <==> forall j :: from <= j < |q| ==> q[j].key != key
    ensures r.Some? ==> exists j :: from <= j < |q| && q[j] == Entry(key, r.value)
                                   && forall l :: from <= l < j ==> q[l].key != key
    decreases |q| - from
  {
    if from == |q| then None
    else if q[from].key == key then Some(q[from].value)
    else GetFrom(q, key, from + 1)
  }

  /** A lookup finds the first entry with its key. */
  lemma GetFirst(q: seq<Entry>, key: string, j: nat)
    requires j < |q| && q[j].key == key
    requires forall l :: 0 <= l < j ==> q[l].key != key
    ensures Get(q, key) == Some(q[j].value)
  {
    var k :| 0 <= k < |q| && q[k] == Entry(key, Get(q, key).value) && forall l :: 0 <= l < k ==> q[l].key != key;
    assert k == j;
  }

  /** A PHP array never holds a key twice. */
  ghost predicate UniqueKeys(q: seq<Entry>)
  {
    forall i, j :: 0 <= i < j < |q| ==> q[i].key != q[j].key
  }

  lemma {:induction false} KeysAppend(a: seq<Entry>, b: seq<Entry>)
    ensures Keys(a + b) == Keys(a) + Keys(b)
  {
    assert |Keys(a + b)| == |Keys(a) + Keys(b)|;
    forall i | 0 <= i < |a + b|
      ensures Keys(a + b)[i] == (Keys(a) + Keys(b))[i]
    {
      if i < |a| {} else { assert (a + b)[i] == b[i - |a|]; }
    }
  }

  /** Looking a key up in `a + b` finds it in `a` first. */
  lemma GetAppend(a: seq<Entry>, b: seq<Entry>, key: string)
    ensures Get(a + b, key) == if key in Keys(a) then Get(a, key) else Get(b, key)
  {
    var q := a + b;
    if key in Keys(a) {
      var j :| 0 <= j < |a| && a[j] == Entry(key, Get(a, key).value) && forall l :: 0 <= l < j ==> a[l].key != key;
      GetFirst(q, key, j);
    } else if key in Keys(b) {
      var j :| 0 <= j < |b| && b[j] == Entry(key, Get(b, key).value) && forall l :: 0 <= l < j ==> b[l].key != key;
      assert forall l :: 0 <= l < |a| ==> a[l].key != key;
      GetFirst(q, key, |a| + j);
    } else {
      assert forall l :: 0 <= l < |q| ==> q[l].key != key by {
        forall l | 0 <= l < |q| ensures q[l].key != key {
          if l < |a| { assert Keys(a)[l] == a[l].key; } else { assert Keys(b)[l - |a|] == b[l - |a|].key; }
        }
      }
      assert key !in Keys(q);
    }
  }

  /**
   * The transport: a class whose only mutable state is the log of the requests it
   * was asked to send. Its configuration and the server it talks to never change.
   */
  class Transport {
    const config: Config
    const server: Server
    var log: seq<Request>

    constructor (config: Config, server: Server)
      ensures this.config == config && this.server == server
      ensures log == []
    {
      this.config := config;
      this.server := server;
      log := [];
    }

    /** Sends one request and returns the service's answer to it. */
    method Send(req: Request) returns (resp: Response)
      modifies this
      ensures log == old(log) + [req]
      ensures resp == server(old(log), req)
    {
      resp := server(log, req);
      log := log + [req];
    }
  }
}
