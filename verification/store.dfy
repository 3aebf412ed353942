/** The binding store: an embedded document store reduced to a sequence of
    records with the four calls the router makes (`findOne`, `find`,
    `insert`, `remove`) and the queries it passes them. */
module Store {
  import opened Js
  import Nginxer

  /** A stored binding: `update`'s result spread out (the form fields,
      `name`, `confFile`, `certs`), the owner `_userId`, and the `_id` the
      store assigns. */
  datatype Record = Record(
    id: string,
    domain: string,
    protocol: string,
    proxyIp: string,
    proxyPort: string,
    name: string,
    confFile: string,
    certs: Option<Nginxer.CertPaths>,
    userId: string)

  /** A query object: each present field must equal the record's. */
  datatype Query = Query(
    id: Option<string>,
    userId: Option<string>,
    domain: Option<string>,
    protocol: Option<string>)

  const Everything := Query(None, None, None, None)

  predicate Matches(r: Record, q: Query) {
    && (q.id.Some? ==> r.id == q.id.value)
    && (q.userId.Some? ==> r.userId == q.userId.value)
    && (q.domain.Some? ==> r.domain == q.domain.value)
    && (q.protocol.Some? ==> r.protocol == q.protocol.value)
  }

  /** The first record matching `q`, if any. */
  function FirstMatch(records: seq<Record>, q: Query): (r: Option<Record>)
    ensures r.None? <==> forall k :: 0 <= k < |records| ==> !Matches(records[k], q)
    ensures r.Some? ==> exists k :: 0 <= k < |records| && records[k] == r.value && Matches(r.value, q)
                                    && forall j :: 0 <= j < k ==> !Matches(records[j], q)
  {
    if records == [] then None
    else if Matches(records[0], q) then Some(records[0])
    else
      var r := FirstMatch(records[1..], q);
      assert forall k :: 1 <= k < |records| ==> records[k] == records[1..][k - 1];
      r
  }

  /** Every record matching `q`, in store order. */
  function AllMatches(records: seq<Record>, q: Query): (rs: seq<Record>)
    ensures |rs| <= |records|
    ensures forall r :: r in rs <==> r in records && Matches(r, q)
    ensures forall r :: multiset(rs)[r] == if Matches(r, q) then multiset(records)[r] else 0
  {
    if records == [] then []
    else
      var init, last := records[..|records| - 1], records[|records| - 1];
      assert records == init + [last];
      AllMatches(init, q) + if Matches(last, q) then [last] else []
  }

  /** The records after removing the first match of `q` (nedb removes a
      single document unless told otherwise). */
  function RemoveFirst(records: seq<Record>, q: Query): seq<Record> {
    if records == [] then []
    else if Matches(records[0], q) then records[1..]
    else
      assert records == [records[0]] + records[1..];
      [records[0]] + RemoveFirst(records[1..], q)
  }

  predicate UniqueIds(records: seq<Record>) {
    forall i, j :: 0 <= i < j < |records| ==> records[i].id != records[j].id
  }

  /** The message of the store's unique-constraint error. */
  function UniqueViolation(id: string): Thrown {
    ErrorObject("Can't insert key " + id + ", it violates the unique constraint")
  }

  class Datastore {
    var records: seq<Record>

    constructor (records: seq<Record>)
      ensures this.records == records
    {
      this.records := records;
    }

    /** `findOne(q)`. */
    method FindOne(q: Query) returns (r: Option<Record>)
      ensures r == FirstMatch(records, q)
    {
      var i := 0;
      while i < |records|
        invariant 0 <= i <= |records|
        invariant FirstMatch(records, q) == FirstMatch(records[i..], q)
      {
        if Matches(records[i], q) {
          return Some(records[i]);
        }
        assert records[i..][1..] == records[i + 1..];
        i := i + 1;
      }
      return None;
    }

    /** `find(q)`. */
    method Find(q: Query) returns (rs: seq<Record>)
      ensures rs == AllMatches(records, q)
    {
      rs := [];
      for i := 0 to |records|
        invariant rs == AllMatches(records[..i], q)
      {
        assert records[..i + 1][..i] == records[..i];
        if Matches(records[i], q) {
          rs := rs + [records[i]];
        }
      }
      assert records[..|records|] == records;
    }

    /** `insert(doc)`: rejected when the `_id` is already taken, appended
        otherwise. */
    method Insert(doc: Record) returns (r: Result<Record>)
      modifies this
      ensures (exists k :: 0 <= k < |old(records)| && old(records)[k].id == doc.id)
              ==> r == Err(UniqueViolation(doc.id)) && records == old(records)
      ensures (forall k :: 0 <= k < |old(records)| ==> old(records)[k].id != doc.id)
              ==> r == Ok(doc) && records == old(records) + [doc]
    {
      var taken := FirstMatch(records, Query(Some(doc.id), None, None, None));
      if taken.Some? {
        return Err(UniqueViolation(doc.id));
      }
      records := records + [doc];
      r := Ok(doc);
    }

    /** `remove(q)`: removes the first match and reports how many records
        went. */
    method Remove(q: Query) returns (n: nat)
      modifies this
      ensures records == RemoveFirst(old(records), q)
      ensures n == if FirstMatch(old(records), q).Some? then 1 else 0
    {
      n := if FirstMatch(records, q).Some? then 1 else 0;
      records := RemoveFirst(records, q);
    }
  }

  // Properties

  /** Appending a record that does not match `q` leaves the first match
      where it was; appending one that does is found when nothing before
      it matches. */
  lemma {:induction false} FirstMatchAppend(records: seq<Record>, x: Record, q: Query)
    ensures FirstMatch(records, q).Some? ==> FirstMatch(records + [x], q) == FirstMatch(records, q)
    ensures FirstMatch(records, q).None? ==>
              FirstMatch(records + [x], q) == if Matches(x, q) then Some(x) else None
    decreases |records|
  {
    if records == [] {
      assert records + [x] == [x];
      assert [x][1..] == [];
    } else {
      assert (records + [x])[1..] == records[1..] + [x];
      FirstMatchAppend(records[1..], x, q);
    }
  }

  /** Removing by a query only the last record matches gives back the
      records before it. */
  lemma {:induction false} RemoveFirstAppend(records: seq<Record>, x: Record, q: Query)
    requires forall k :: 0 <= k < |records| ==> !Matches(records[k], q)
    requires Matches(x, q)
    ensures RemoveFirst(records + [x], q) == records
    decreases |records|
  {
    if records == [] {
      assert records + [x] == [x];
    } else {
      assert (records + [x])[0] == records[0];
      assert (records + [x])[1..] == records[1..] + [x];
      RemoveFirstAppend(records[1..], x, q);
    }
  }

  /** Removing by a query nothing matches changes nothing. */
  lemma {:induction false} RemoveFirstNoMatch(records: seq<Record>, q: Query)
    requires forall k :: 0 <= k < |records| ==> !Matches(records[k], q)
    ensures RemoveFirst(records, q) == records
    decreases |records|
  {
    if records != [] {
      RemoveFirstNoMatch(records[1..], q);
      assert records == [records[0]] + records[1..];
    }
  }

  /** Dropping one record keeps the remaining `_id`s distinct. */
  lemma UniqueIdsWithout(records: seq<Record>, k: nat)
    requires UniqueIds(records) && k < |records|
    ensures UniqueIds(records[..k] + records[k + 1..])
  {
  }

  /** Removing by a query deletes exactly the first matching record and
      keeps the others in order. */
  lemma {:induction false} RemoveFirstAt(records: seq<Record>, q: Query, k: nat)
    requires k < |records| && Matches(records[k], q)
    requires forall j :: 0 <= j < k ==> !Matches(records[j], q)
    ensures RemoveFirst(records, q) == records[..k] + records[k + 1..]
    decreases k
  {
    if k > 0 {
      var rest := records[1..];
      assert !Matches(records[0], q);
      RemoveFirstAt(rest, q, k - 1);
      calc {
        RemoveFirst(records, q);
        [records[0]] + RemoveFirst(rest, q);
        [records[0]] + (rest[..k - 1] + rest[k..]);
        { assert rest[..k - 1] == records[1..k]; assert rest[k..] == records[k + 1..]; }
        [records[0]] + (records[1..k] + records[k + 1..]);
        { assert records[..k] == [records[0]] + records[1..k]; }
        records[..k] + records[k + 1..];
      }
    }
  }
}
