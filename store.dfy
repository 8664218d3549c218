/** The three MongoDB collections (talent users, employer users, admin users)
    behind the repositories, as sequences of documents in natural (insertion)
    order, with the repository operations the services call. */
module Store {
  import opened Js

  /** Index of the first document with `d[key] == v` (natural order). */
  function FindIndex(docs: seq<Doc>, key: string, v: Json): (r: Option<nat>)
    ensures r.Some? ==> r.value < |docs| && Get(docs[r.value], key) == v
    ensures r.Some? ==> forall j :: 0 <= j < r.value ==> Get(docs[j], key) != v
    ensures r.None? <==> forall j :: 0 <= j < |docs| ==> Get(docs[j], key) != v
  {
    if docs == [] then None
    else if Get(docs[0], key) == v then Some(0)
    else
      match FindIndex(docs[1..], key, v)
      case None => None
      case Some(k) => Some(k + 1)
  }

  /** `Model.findOne({ key: v })` */
  function FindOne(docs: seq<Doc>, key: string, v: Json): (r: Option<Doc>)
    ensures r.Some? <==> exists j :: 0 <= j < |docs| && Get(docs[j], key) == v
    ensures r.Some? ==> r.value in docs && Get(r.value, key) == v
  {
    match FindIndex(docs, key, v)
    case None => None
    case Some(k) => Some(docs[k])
  }

  function IdOf(d: Doc): Json
  {
    Get(d, "_id")
  }

  /** `Model.findById(id)` */
  function FindById(docs: seq<Doc>, id: string): Option<Doc>
  {
    FindOne(docs, "_id", Str(id))
  }

  /** `Model.findOne({ email })` */
  function FindByEmail(docs: seq<Doc>, email: Json): Option<Doc>
  {
    FindOne(docs, "email", email)
  }

  /** No two documents of a collection share an `_id`. */
  ghost predicate UniqueIds(docs: seq<Doc>)
  {
    forall i, j :: 0 <= i < j < |docs| ==> IdOf(docs[i]) != IdOf(docs[j])
  }

  /** After appending a document, a lookup that found nothing before finds
      that document when it matches, and still finds nothing otherwise. */
  lemma FindOneAppend(docs: seq<Doc>, d: Doc, key: string, v: Json)
    requires FindOne(docs, key, v).None?
    ensures FindOne(docs + [d], key, v) == if Get(d, key) == v then Some(d) else None
  {
    var all := docs + [d];
    assert all[|docs|] == d;
    forall x | x in docs ensures Get(x, key) != v {
      var j :| 0 <= j < |docs| && docs[j] == x;
    }
    assert forall x :: x in all ==> x in docs || x == d;
  }

  /** When exactly one document matches, the lookup finds it. */
  lemma FindOneOnly(docs: seq<Doc>, k: nat, key: string, v: Json)
    requires k < |docs| && Get(docs[k], key) == v
    requires forall j :: 0 <= j < |docs| && j != k ==> Get(docs[j], key) != v
    ensures FindOne(docs, key, v) == Some(docs[k])
  {
    var i := FindIndex(docs, key, v).value;
    assert i == k;
  }

  /** No two documents of a collection share an e-mail. */
  ghost predicate UniqueEmails(docs: seq<Doc>)
  {
    forall i, j :: 0 <= i < j < |docs| ==> Get(docs[i], "email") != Get(docs[j], "email")
  }

  /** Appending a document whose e-mail no document has keeps e-mails unique:
      the duplicate check before an insert maintains the invariant. */
  lemma AppendFreshEmail(docs: seq<Doc>, d: Doc)
    requires UniqueEmails(docs) && FindByEmail(docs, Get(d, "email")).None?
    ensures UniqueEmails(docs + [d])
  {
    var all := docs + [d];
    forall i, j | 0 <= i < j < |all| ensures Get(all[i], "email") != Get(all[j], "email") {
      assert all[i] == docs[i];
      if j < |docs| {
        assert all[j] == docs[j];
      }
    }
  }

  /** The document a create stores: the given fields plus the generated `_id`
      and the `createdAt`/`updatedAt` timestamps. */
  function Stamp(data: Doc, id: string, now: int): (d: Doc)
    ensures d.Keys == data.Keys + {"_id", "createdAt", "updatedAt"}
    ensures IdOf(d) == Str(id) && d["createdAt"] == Date(now) && d["updatedAt"] == Date(now)
    ensures forall k :: k in data && k != "_id" && k != "createdAt" && k != "updatedAt" ==> d[k] == data[k]
  {
    data["_id" := Str(id)]["createdAt" := Date(now)]["updatedAt" := Date(now)]
  }

  /** `findByIdAndUpdate(id, updates, { new: true })` without validators:
      every key of `updates` but `_id` is set on the document as given, and
      `updatedAt` moves to `now`. Mongoose's strict mode, which drops keys
      outside the schema, and its guard on `createdAt` are not modelled. */
  function ApplyUpdate(d: Doc, updates: Doc, now: int): (r: Doc)
    ensures IdOf(r) == IdOf(d)
    ensures r.Keys == d.Keys + (updates.Keys - {"_id"}) + {"updatedAt"}
    ensures r["updatedAt"] == Date(now)
    ensures forall k :: k in updates && k != "_id" && k != "updatedAt" ==> r[k] == updates[k]
    ensures forall k :: k in d && k !in updates && k != "updatedAt" ==> r[k] == d[k]
  {
    (d + (updates - {"_id"}))["updatedAt" := Date(now)]
  }

  /** The sequence without its `k`-th element. */
  function RemoveAt(docs: seq<Doc>, k: nat): (r: seq<Doc>)
    requires k < |docs|
    ensures |r| == |docs| - 1
    ensures forall j :: 0 <= j < k ==> r[j] == docs[j]
    ensures forall j :: k <= j < |r| ==> r[j] == docs[j + 1]
  {
    docs[..k] + docs[k + 1..]
  }

  /** Removing the only document with a given id leaves none with it. */
  lemma RemoveAtDropsId(docs: seq<Doc>, k: nat)
    requires k < |docs| && UniqueIds(docs)
    ensures UniqueIds(RemoveAt(docs, k))
    ensures forall j :: 0 <= j < |RemoveAt(docs, k)| ==> IdOf(RemoveAt(docs, k)[j]) != IdOf(docs[k])
  {
    var r := RemoveAt(docs, k);
    forall i, j | 0 <= i < j < |r| ensures IdOf(r[i]) != IdOf(r[j]) {
      var i' := if i < k then i else i + 1;
      var j' := if j < k then j else j + 1;
      assert r[i] == docs[i'] && r[j] == docs[j'];
    }
    forall j | 0 <= j < |r| ensures IdOf(r[j]) != IdOf(docs[k]) {
      var j' := if j < k then j else j + 1;
      assert r[j] == docs[j'] && j' != k;
    }
  }

  /** One collection and its repository. */
  class Repository {
    var docs: seq<Doc>

    ghost predicate Valid()
      reads this
    {
      UniqueIds(docs)
    }

    constructor (initial: seq<Doc>)
      requires UniqueIds(initial)
      ensures Valid() && docs == initial
    {
      docs := initial;
    }

    /** `getXById(id)` */
    function GetById(id: string): Option<Doc>
      reads this
    {
      FindById(docs, id)
    }

    /** `getXByEmail(email)` */
    function GetByEmail(email: Json): Option<Doc>
      reads this
    {
      FindByEmail(docs, email)
    }

    /** `createX(data)`: the new document goes to the end of the collection. */
    method Create(data: Doc, id: string, now: int) returns (d: Doc)
      requires Valid() && GetById(id).None?
      modifies this
      ensures Valid()
      ensures d == Stamp(data, id, now) && docs == old(docs) + [d]
    {
      d := Stamp(data, id, now);
      docs := docs + [d];
    }

    /** `updateX(id, updates)`: `None` when no document has the id. */
    method UpdateById(id: string, updates: Doc, now: int) returns (r: Option<Doc>)
      requires Valid()
      modifies this
      ensures Valid()
      ensures old(FindIndex(docs, "_id", Str(id))).None? ==> r.None? && docs == old(docs)
      ensures old(FindIndex(docs, "_id", Str(id))).Some? ==>
        var k := old(FindIndex(docs, "_id", Str(id))).value;
        r == Some(ApplyUpdate(old(docs)[k], updates, now)) && docs == old(docs)[k := r.value]
    {
      match FindIndex(docs, "_id", Str(id))
      case None =>
        r := None;
      case Some(k) =>
        var updated := ApplyUpdate(docs[k], updates, now);
        docs := docs[k := updated];
        r := Some(updated);
    }

    /** `deleteX(id)`: true when a document was removed. */
    method DeleteById(id: string) returns (deleted: bool)
      requires Valid()
      modifies this
      ensures Valid()
      ensures deleted == old(GetById(id)).Some?
      ensures !deleted ==> docs == old(docs)
      ensures deleted ==> docs == RemoveAt(old(docs), old(FindIndex(docs, "_id", Str(id))).value)
      ensures GetById(id).None?
    {
      match FindIndex(docs, "_id", Str(id))
      case None =>
        deleted := false;
      case Some(k) =>
        RemoveAtDropsId(docs, k);
        docs := RemoveAt(docs, k);
        deleted := true;
    }
  }
}
