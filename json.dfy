/**
 * JSON documents as the plugin receives them from `response.json()`, and
 * the typed readers the decoders use in place of `dict.get(key, default)`.
 *
 * An object keeps its members in the order of the document; looking a key
 * up finds its LAST member, as `json.loads` keeps the last of repeated keys.
 * JSON numbers with a fraction are not modelled.
 */
module Json {
  import opened Options

  datatype Json =
    | Null
    | Bool(b: bool)
    | Int(n: int)
    | Str(s: string)
    | Arr(items: seq<Json>)
    | Obj(members: seq<Member>)

  datatype Member = Member(key: string, value: Json)

  /** The value of the last member named `key`. */
  function Lookup(ms: seq<Member>, key: string): Option<Json> {
    if |ms| == 0 then None
    else if ms[|ms| - 1].key == key then Some(ms[|ms| - 1].value)
    else Lookup(ms[..|ms| - 1], key)
  }

  /** A key finds nothing exactly when no member carries it. */
  lemma {:induction false} LookupNone(ms: seq<Member>, key: string)
    ensures Lookup(ms, key).None? <==> forall i :: 0 <= i < |ms| ==> ms[i].key != key
  {
    if |ms| > 0 && ms[|ms| - 1].key != key {
      var init := ms[..|ms| - 1];
      LookupNone(init, key);
      assert forall i :: 0 <= i < |init| ==> init[i] == ms[i];
    }
  }

  /** What a key finds is the value of one of the members carrying it. */
  lemma {:induction false} LookupSome(ms: seq<Member>, key: string)
    requires Lookup(ms, key).Some?
    ensures exists i :: 0 <= i < |ms| && ms[i] == Member(key, Lookup(ms, key).value)
  {
    var n := |ms| - 1;
    if ms[n].key != key {
      LookupSome(ms[..n], key);
      var i :| 0 <= i < n && ms[..n][i] == Member(key, Lookup(ms[..n], key).value);
      assert ms[i] == ms[..n][i];
    }
  }

  /** `d.get(key)` on an object; anything that is not an object has no members. */
  function Get(j: Json, key: string): Option<Json> {
    if j.Obj? then Lookup(j.members, key) else None
  }

  /** `key in d`. */
  predicate Has(j: Json, key: string) {
    Get(j, key).Some?
  }

  /** Member keys of a literal object are pairwise distinct. */
  ghost predicate DistinctKeys(ms: seq<Member>) {
    forall i, k :: 0 <= i < k < |ms| ==> ms[i].key != ms[k].key
  }

  /** In an object whose keys are distinct, a key finds its own member. */
  lemma {:induction false} LookupDistinct(ms: seq<Member>, i: nat)
    requires DistinctKeys(ms)
    requires i < |ms|
    ensures Lookup(ms, ms[i].key) == Some(ms[i].value)
  {
    if i < |ms| - 1 {
      var init := ms[..|ms| - 1];
      assert init[i] == ms[i];
      assert DistinctKeys(init);
      LookupDistinct(init, i);
    }
  }

  /** The position of the member named `key`, in members whose keys are distinct. */
  function KeyIndex(d: seq<Member>, key: string): (r: Option<nat>)
    ensures r.Some? ==> r.value < |d| && d[r.value].key == key
    ensures r.None? ==> forall i :: 0 <= i < |d| ==> d[i].key != key
  {
    if |d| == 0 then None
    else if d[0].key == key then Some(0)
    else match KeyIndex(d[1..], key)
      case Some(j) => Some(j + 1)
      case None => None
  }

  /** `d[key] = value` on a dict listed by its items: an existing key keeps its
      place and takes the new value; a new key goes last. */
  function Assign(d: seq<Member>, m: Member): seq<Member> {
    match KeyIndex(d, m.key)
    case Some(j) => d[j := m]
    case None => d + [m]
  }

  /** The dict `json.loads` builds from the members of an object, listed in its
      iteration order: each key once, where its first member stood, with the
      value of its last member. */
  function DictItems(ms: seq<Member>): seq<Member> {
    if |ms| == 0 then [] else Assign(DictItems(ms[..|ms| - 1]), ms[|ms| - 1])
  }

  /** In members whose keys are distinct a key finds the member carrying it. */
  lemma LookupInDistinct(d: seq<Member>, key: string)
    requires DistinctKeys(d)
    ensures KeyIndex(d, key).Some? ==> Lookup(d, key) == Some(d[KeyIndex(d, key).value].value)
    ensures KeyIndex(d, key).None? ==> Lookup(d, key).None?
  {
    match KeyIndex(d, key)
    case Some(j) => LookupDistinct(d, j);
    case None => LookupNone(d, key);
  }

  /** Assigning keeps keys distinct, and changes what the assigned key finds only. */
  lemma AssignLookup(d: seq<Member>, m: Member)
    requires DistinctKeys(d)
    ensures DistinctKeys(Assign(d, m))
    ensures |Assign(d, m)| <= |d| + 1
    ensures forall k :: Lookup(Assign(d, m), k) == if k == m.key then Some(m.value) else Lookup(d, k)
  {
    var r := Assign(d, m);
    match KeyIndex(d, m.key)
    case Some(j) =>
      assert DistinctKeys(r) by {
        forall i, k | 0 <= i < k < |r| ensures r[i].key != r[k].key {
          assert r[i].key == d[i].key && r[k].key == d[k].key;
        }
      }
      forall k ensures Lookup(r, k) == if k == m.key then Some(m.value) else Lookup(d, k) {
        LookupInDistinct(d, k);
        LookupInDistinct(r, k);
        if k != m.key {
          match KeyIndex(d, k)
          case Some(i) => assert r[i] == d[i];
          case None =>
            forall i | 0 <= i < |r| ensures r[i].key != k {
              if i != j { assert r[i] == d[i]; }
            }
            LookupNone(r, k);
        } else {
          LookupDistinct(r, j);
        }
      }
    case None =>
      assert r[..|r| - 1] == d;
  }

  /** The dict holds each key of the document once, and finds for a key what
      a lookup in the document finds: the value of its last member. */
  lemma {:induction false} DictItemsLookup(ms: seq<Member>)
    ensures DistinctKeys(DictItems(ms))
    ensures |DictItems(ms)| <= |ms|
    ensures forall k :: Lookup(DictItems(ms), k) == Lookup(ms, k)
  {
    if |ms| > 0 {
      DictItemsLookup(ms[..|ms| - 1]);
      AssignLookup(DictItems(ms[..|ms| - 1]), ms[|ms| - 1]);
    }
  }

  /** A document whose keys are already distinct is its own dict. */
  lemma {:induction false} DictItemsDistinct(ms: seq<Member>)
    requires DistinctKeys(ms)
    ensures DictItems(ms) == ms
  {
    if |ms| > 0 {
      var init := ms[..|ms| - 1];
      assert DistinctKeys(init);
      DictItemsDistinct(init);
      assert forall i :: 0 <= i < |init| ==> init[i].key != ms[|ms| - 1].key;
      assert KeyIndex(init, ms[|ms| - 1].key).None?;
      assert init + [ms[|ms| - 1]] == ms;
    }
  }

  /** Python truthiness of a JSON value (`bool(v)`). */
  predicate Truthy(j: Json) {
    match j
    case Null => false
    case Bool(b) => b
    case Int(n) => n != 0
    case Str(s) => s != ""
    case Arr(items) => items != []
    case Obj(ms) => ms != []
  }

  /** An integer value; a Python `bool` is an `int` (0 or 1). */
  predicate IsIntLike(j: Json) { j.Int? || j.Bool? }

  function IntValue(j: Json): int
    requires IsIntLike(j)
  {
    if j.Int? then j.n else if j.b then 1 else 0
  }

  /** `d.get(key, default)` for an integer field. */
  function IntOr(j: Json, key: string, default: int): (r: int)
    ensures !Has(j, key) ==> r == default
    ensures Has(j, key) && Get(j, key).value.Int? ==> r == Get(j, key).value.n
    ensures Has(j, key) && Get(j, key).value.Bool? ==> r == (if Get(j, key).value.b then 1 else 0)
    ensures Has(j, key) && !IsIntLike(Get(j, key).value) ==> r == default
  {
    match Get(j, key)
    case Some(v) => if IsIntLike(v) then IntValue(v) else default
    case None => default
  }

  /** `d.get(key, default)` for a flag: a present value counts by its truthiness. */
  function BoolOr(j: Json, key: string, default: bool): (r: bool)
    ensures !Has(j, key) ==> r == default
    ensures Has(j, key) ==> r == Truthy(Get(j, key).value)
  {
    match Get(j, key)
    case Some(v) => Truthy(v)
    case None => default
  }

  /** `d.get(key, default)` for a string field. */
  function StrOr(j: Json, key: string, default: string): (r: string)
    ensures Get(j, key).Some? && Get(j, key).value.Str? ==> r == Get(j, key).value.s
    ensures !(Get(j, key).Some? && Get(j, key).value.Str?) ==> r == default
  {
    match Get(j, key)
    case Some(Str(s)) => s
    case _ => default
  }

  /** `d.get(key, {})` for a nested object. */
  function ObjOr(j: Json, key: string): (r: Json)
    ensures r.Obj?
    ensures Get(j, key).Some? && Get(j, key).value.Obj? ==> r == Get(j, key).value
    ensures !(Get(j, key).Some? && Get(j, key).value.Obj?) ==> r == Obj([])
  {
    match Get(j, key)
    case Some(Obj(ms)) => Obj(ms)
    case _ => Obj([])
  }

  /** The elements of a list value; any other value iterates as empty. */
  function ItemsOr(j: Json, key: string): (r: seq<Json>)
    ensures Get(j, key).Some? && Get(j, key).value.Arr? ==> r == Get(j, key).value.items
    ensures !(Get(j, key).Some? && Get(j, key).value.Arr?) ==> r == []
  {
    match Get(j, key)
    case Some(Arr(items)) => items
    case _ => []
  }
}

/**
 * The HTTP transport, abstracted: every request the plugin issues is
 * recorded, and the network's answer to the k-th request ever sent is
 * `Answer(script, k)`, an input of the model.
 */
module Http {
  import opened Json

  datatype Request =
    | HttpGet(url: string)
    | HttpPost(url: string, body: Json)

  /** What `requests.get`/`requests.post` plus `response.json()` produce. */
  datatype Outcome =
    | Reply(status: int, body: Json)   // a response with a decodable body
    | Timeout                          // requests.exceptions.Timeout
    | ConnectionError                  // requests.exceptions.ConnectionError
    | Failed(message: string)          // any other exception, a malformed body included

  /** The answer to the k-th request: the k-th reply of the script, and a
      connection error once the script is exhausted. */
  function Answer(script: seq<Outcome>, k: nat): Outcome {
    if k < |script| then script[k] else ConnectionError
  }

  /** The answers to `n` requests from the `start`-th on. */
  function Answers(script: seq<Outcome>, start: nat, n: nat): (os: seq<Outcome>)
    ensures |os| == n
    ensures forall k :: 0 <= k < n ==> os[k] == Answer(script, start + k)
  {
    seq(n, k requires 0 <= k < n => Answer(script, start + k))
  }

  class Transport {
    var sent: seq<Request>
    const script: seq<Outcome>

    constructor (script: seq<Outcome>)
      ensures sent == [] && this.script == script
    {
      sent := [];
      this.script := script;
    }

    /** The outcome the next request will receive. */
    function Next(): Outcome
      reads this
    {
      Answer(script, |sent|)
    }

    method Exchange(r: Request) returns (o: Outcome)
      modifies this
      ensures sent == old(sent) + [r]
      ensures o == old(Next())
    {
      o := Answer(script, |sent|);
      sent := sent + [r];
    }
  }
}
