/** The request interceptor of `app/utils/api.js`: every call to the remote
    account API gets the panel's credentials merged into its payload, and
    the payload is sent as an `application/x-www-form-urlencoded` body of
    `key=value&` fields. `encodeURIComponent` is a parameter `enc`; the
    identifier and secret from the configuration file are parameters. */
module Api {
  import opened Js
  import opened Strings

  /** One own property of a payload object, in enumeration order. */
  datatype Entry = Entry(key: string, value: string)

  /** What `conf.data` holds: nothing (`undefined`), an object, or the
      encoded body string. */
  datatype Body = Absent | Form(entries: seq<Entry>) | Encoded(text: string)

  predicate HasKey(data: seq<Entry>, k: string) {
    exists i :: 0 <= i < |data| && data[i].key == k
  }

  predicate DistinctKeys(data: seq<Entry>) {
    forall i, j :: 0 <= i < j < |data| ==> data[i].key != data[j].key
  }

  /** `data[k]`: the value of the first entry named `k`. */
  function Lookup(data: seq<Entry>, k: string): (r: Option<string>)
    ensures r.None? <==> !HasKey(data, k)
    ensures r.Some? ==> exists i :: && 0 <= i < |data| && data[i].key == k && r.value == data[i].value
                                    && forall j :: 0 <= j < i ==> data[j].key != k
  {
    if data == [] then None
    else if data[0].key == k then Some(data[0].value)
    else
      var r := Lookup(data[1..], k);
      assert forall i :: 1 <= i < |data| ==> data[i] == data[1..][i - 1];
      r
  }

  /** Assigning property `k` in an object literal: an existing property
      keeps its place and takes the new value, a new one goes last. */
  function Put(data: seq<Entry>, k: string, v: string): (r: seq<Entry>)
    ensures |r| == |data| + (if HasKey(data, k) then 0 else 1)
    ensures forall i :: 0 <= i < |data| ==> r[i].key == data[i].key
    ensures forall i :: 0 <= i < |data| && data[i].key != k ==> r[i] == data[i]
    ensures forall i :: 0 <= i < |data| && data[i].key == k ==> r[i].value == v
    ensures !HasKey(data, k) ==> r[|data|] == Entry(k, v)
  {
    if HasKey(data, k) then seq(|data|, i requires 0 <= i < |data| => if data[i].key == k then Entry(k, v) else data[i])
    else data + [Entry(k, v)]
  }

  /** The decimal name of an array or string index. */
  function IndexName(n: nat): (s: string)
    ensures |s| >= 1
    decreases n
  {
    var digit := ['0' + (n % 10) as char];
    if n < 10 then digit else IndexName(n / 10) + digit
  }

  /** The properties `{...x}` copies: none from `undefined`, the entries of
      an object, one per character (named by its index) from a string. */
  function Spread(b: Body): (r: seq<Entry>)
    ensures b.Absent? ==> r == []
    ensures b.Form? ==> r == b.entries
    ensures b.Encoded? ==> |r| == |b.text| && forall i :: 0 <= i < |r| ==> r[i].value == [b.text[i]]
  {
    match b
    case Absent => []
    case Form(entries) => entries
    case Encoded(text) => seq(|text|, i requires 0 <= i < |text| => Entry(IndexName(i), [text[i]]))
  }

  /** `{...data, identifier, secret, responsetype: 'json'}` */
  function Merge(data: seq<Entry>, identifier: string, secret: string): seq<Entry> {
    Put(Put(Put(data, "identifier", identifier), "secret", secret), "responsetype", "json")
  }

  /** One field of the body, without its `&`. */
  function Field(enc: string -> string, e: Entry): string {
    enc(e.key) + "=" + enc(e.value)
  }

  /** The body: every entry's field followed by `&`, in entry order. */
  function Serialize(enc: string -> string, data: seq<Entry>): (body: string)
    ensures data == [] <==> body == []
    ensures data != [] ==> body[|body| - 1] == '&'
  {
    if data == [] then "" else Field(enc, data[0]) + "&" + Serialize(enc, data[1..])
  }

  /** `encodeURIComponent` never yields the body's delimiters. */
  ghost predicate EscapesDelimiters(enc: string -> string) {
    forall s :: '&' !in enc(s) && '=' !in enc(s)
  }

  /** The part of an axios request configuration the interceptor sees. */
  class RequestConfig {
    var url: string
    var headers: seq<Entry>
    var data: Body

    constructor (url: string, headers: seq<Entry>, data: Body)
      ensures this.url == url && this.headers == headers && this.data == data
    {
      this.url, this.headers, this.data := url, headers, data;
    }
  }

  /** The `for...in` loop of the interceptor: appends each property's
      `key=value&` field to `ret`, in enumeration order. */
  method EncodeForm(enc: string -> string, data: seq<Entry>) returns (ret: string)
    ensures ret == Serialize(enc, data)
  {
    ret := "";
    for i := 0 to |data|
      invariant ret == Serialize(enc, data[..i])
    {
      SerializeAppend(enc, data[..i], data[i]);
      assert data[..i + 1] == data[..i] + [data[i]];
      ret := ret + enc(data[i].key) + "=" + enc(data[i].value) + "&";
    }
    assert data[..|data|] == data;
  }

  /** The request interceptor: replaces `conf.data` by the merged payload,
      then by its encoding, and hands the same configuration on. */
  method Intercept(conf: RequestConfig, enc: string -> string, identifier: string, secret: string)
    returns (r: RequestConfig)
    modifies conf`data
    ensures r == conf
    ensures conf.data == Encoded(Serialize(enc, Merge(Spread(old(conf.data)), identifier, secret)))
    ensures conf.url == old(conf.url) && conf.headers == old(conf.headers)
  {
    conf.data := Form(Merge(Spread(conf.data), identifier, secret));
    var ret := EncodeForm(enc, conf.data.entries);
    conf.data := Encoded(ret);
    r := conf;
  }

  // ---------------------------------------------------------------------
  // Properties

  /** Appending an entry appends its field. */
  lemma {:induction false} SerializeAppend(enc: string -> string, data: seq<Entry>, e: Entry)
    ensures Serialize(enc, data + [e]) == Serialize(enc, data) + Field(enc, e) + "&"
    decreases |data|
  {
    if data == [] {
      assert data + [e] == [e];
    } else {
      assert (data + [e])[1..] == data[1..] + [e];
      SerializeAppend(enc, data[1..], e);
    }
  }

  /** Reading a property after assigning it. */
  lemma LookupPut(data: seq<Entry>, k: string, v: string, j: string)
    ensures Lookup(Put(data, k, v), j) == if j == k then Some(v) else Lookup(data, j)
  {
  }

  /** The merged payload carries the panel's identifier and secret and asks
      for JSON, whatever the caller sent under those names; every other
      property keeps the caller's value. */
  lemma MergeLookup(data: seq<Entry>, identifier: string, secret: string, k: string)
    ensures var m := Merge(data, identifier, secret);
            && Lookup(m, "identifier") == Some(identifier)
            && Lookup(m, "secret") == Some(secret)
            && Lookup(m, "responsetype") == Some("json")
            && (k != "identifier" && k != "secret" && k != "responsetype" ==> Lookup(m, k) == Lookup(data, k))
  {
    var d1 := Put(data, "identifier", identifier);
    var d2 := Put(d1, "secret", secret);
    LookupPut(d2, "responsetype", "json", "responsetype");
    LookupPut(d2, "responsetype", "json", "secret");
    LookupPut(d1, "secret", secret, "secret");
    LookupPut(d2, "responsetype", "json", "identifier");
    LookupPut(d1, "secret", secret, "identifier");
    LookupPut(data, "identifier", identifier, "identifier");
    LookupPut(d2, "responsetype", "json", k);
    LookupPut(d1, "secret", secret, k);
    LookupPut(data, "identifier", identifier, k);
  }

  /** The merged payload keeps the caller's properties in their order and
      adds at most the three credentials after them; its property names
      are the caller's and the three, and distinct names stay distinct. */
  lemma MergeShape(data: seq<Entry>, identifier: string, secret: string)
    ensures var m := Merge(data, identifier, secret);
            && |data| <= |m| <= |data| + 3
            && (forall i :: 0 <= i < |data| ==> m[i].key == data[i].key)
            && (forall k :: HasKey(m, k) <==> HasKey(data, k) || k == "identifier" || k == "secret" || k == "responsetype")
            && (DistinctKeys(data) ==> DistinctKeys(m))
  {
  }

  /** The merged payload has at least three properties. */
  lemma MergeSize(data: seq<Entry>, identifier: string, secret: string)
    ensures |Merge(data, identifier, secret)| >= 3
  {
  }

  /** The names after an assignment are the old names plus `k`; distinct
      names stay distinct. */
  lemma PutKeys(data: seq<Entry>, k: string, v: string)
    ensures forall j :: HasKey(Put(data, k, v), j) <==> HasKey(data, j) || j == k
    ensures DistinctKeys(data) ==> DistinctKeys(Put(data, k, v))
  {
  }

  /** With `&` and `=` escaped, the body has exactly one `&` per property. */
  lemma {:induction false} SerializeAmpersands(enc: string -> string, data: seq<Entry>)
    requires EscapesDelimiters(enc)
    ensures Count(Serialize(enc, data), '&') == |data|
    decreases |data|
  {
    if data != [] {
      var f := Field(enc, data[0]);
      assert '&' !in enc(data[0].key) && '&' !in enc(data[0].value);
      assert '&' !in f;
      SerializeAmpersands(enc, data[1..]);
      CountConcat(f + "&", Serialize(enc, data[1..]), '&');
      CountConcat(f, "&", '&');
    }
  }

  /** Splitting the body at `&` gives back each property's field, then the
      empty rest after the final `&`; splitting a field at `=` gives back
      the encoded name and value. */
  lemma {:induction false} SerializeSplits(enc: string -> string, data: seq<Entry>)
    requires EscapesDelimiters(enc)
    ensures var parts := Split(Serialize(enc, data), '&');
            && |parts| == |data| + 1
            && parts[|data|] == ""
            && forall i :: 0 <= i < |data| ==>
                 parts[i] == Field(enc, data[i])
                 && Split(parts[i], '=') == [enc(data[i].key), enc(data[i].value)]
    decreases |data|
  {
    if data == [] {
      assert Split("", '&') == [""];
    } else {
      var e := data[0];
      var f := Field(enc, e);
      assert '&' !in enc(e.key) && '&' !in enc(e.value);
      assert '&' !in f;
      SerializeSplits(enc, data[1..]);
      SplitAtSep(f, '&', Serialize(enc, data[1..]));
      assert Serialize(enc, data) == f + ['&'] + Serialize(enc, data[1..]);
      assert '=' !in enc(e.key) && '=' !in enc(e.value);
      SplitAtSep(enc(e.key), '=', enc(e.value));
      SplitNoSep(enc(e.value), '=');
      assert f == enc(e.key) + ['='] + enc(e.value);
    }
  }

  /** The body the interceptor sends has one `&` per distinct property of
      the merged payload, so at least three, and ends with `&`. */
  lemma InterceptedBody(data: seq<Entry>, enc: string -> string, identifier: string, secret: string)
    requires EscapesDelimiters(enc)
    ensures var body := Serialize(enc, Merge(data, identifier, secret));
            && Count(body, '&') == |Merge(data, identifier, secret)| >= 3
            && body[|body| - 1] == '&'
  {
    MergeSize(data, identifier, secret);
    SerializeAmpersands(enc, Merge(data, identifier, secret));
  }
}
