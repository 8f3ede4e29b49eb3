/** The document store the generated statics delegate to, reduced to what
    they use: `findOne`, `findOneAndUpdate` with `{new: true, upsert: true}`
    and `update` with `{upsert: true}`, over documents whose string-array
    fields are changed by the update documents the plugin builds. */
module Store {
  import opened Wrappers
  import opened ArrayOps

  /** The array update operator of an add patch. */
  datatype ArrayOp = AddToSet | Push

  /** The update documents the plugin sends:
      `{[op]: {[field]: {$each: items}}}` or `{$set: {[field]: value}}`. */
  datatype Patch =
    | AddEach(op: ArrayOp, field: string, items: seq<string>)
    | SetField(field: string, value: seq<string>)

  /** The top-level key of the update document. */
  function OperatorKey(p: Patch): (key: string)
    ensures key == "$set" <==> p.SetField?
    ensures key == "$addToSet" <==> p.AddEach? && p.op == AddToSet
    ensures key == "$push" <==> p.AddEach? && p.op == Push
  {
    match p
    case AddEach(AddToSet, _, _) => "$addToSet"
    case AddEach(Push, _, _) => "$push"
    case SetField(_, _) => "$set"
  }

  /** The new value of the patched array field, given its old value. */
  function ApplyToArray(p: Patch, arr: seq<string>): (r: seq<string>)
    ensures p.SetField? ==> r == p.value
    ensures p.AddEach? && p.op == Push ==> r == arr + p.items
    ensures p.AddEach? && p.op == AddToSet ==>
              |arr| <= |r| <= |arr| + |p.items| && r[..|arr|] == arr &&
              forall x :: x in r <==> x in arr || x in p.items
  {
    match p
    case AddEach(AddToSet, _, items) => AddToSetEach(arr, items)
    case AddEach(Push, _, items) => PushEach(arr, items)
    case SetField(_, value) => value
  }

  /** Applying the patch a second time changes nothing: true of `$set` and
      `$addToSet`, not of `$push`. */
  predicate IsIdempotent(p: Patch)
  {
    !(p.AddEach? && p.op == Push)
  }

  /** A stored document: its `_id` and its array fields by name. */
  datatype Document = Document(id: nat, fields: map<string, seq<string>>)

  /** The value of an array field; a document without it reads as the empty
      array, as a schema array path defaults to `[]`. */
  function FieldOf(d: Document, f: string): (arr: seq<string>)
    ensures f in d.fields ==> arr == d.fields[f]
    ensures f !in d.fields ==> arr == []
  {
    if f in d.fields then d.fields[f] else []
  }

  /** The document after the patch: the patched field holds the operator's
      result, the `_id` and every other field are unchanged. */
  function Patched(d: Document, p: Patch): (r: Document)
    ensures r.id == d.id
    ensures r.fields.Keys == d.fields.Keys + {p.field}
    ensures forall f :: f in d.fields && f != p.field ==> r.fields[f] == d.fields[f]
    ensures FieldOf(r, p.field) == ApplyToArray(p, FieldOf(d, p.field))
  {
    d.(fields := d.fields[p.field := ApplyToArray(p, FieldOf(d, p.field))])
  }

  /** The document an upsert inserts when nothing matches: the patch
      applied to an empty document with a fresh `_id`. */
  function Inserted(id: nat, p: Patch): (r: Document)
    ensures r.id == id
    ensures r.fields.Keys == {p.field}
    ensures FieldOf(r, p.field) == ApplyToArray(p, [])
  {
    Patched(Document(id, map[]), p)
  }

  /** A query: the condition its keys put on a document, and how many keys
      the query object has (what `_.isEmpty` looks at). */
  datatype Query = Query(matches: Document -> bool, keyCount: nat)

  /** Whether the query selects the document: a query without keys (`{}`)
      selects every document, whatever its condition says. */
  function Selects(q: Query, d: Document): (selected: bool)
    ensures q.keyCount == 0 ==> selected
    ensures q.keyCount > 0 ==> (selected <==> q.matches(d))
  {
    q.keyCount == 0 || q.matches(d)
  }

  /** The index of the first document the query selects, in store order. */
  function FirstMatch(docs: seq<Document>, q: Query): (r: Option<nat>)
    ensures r.Some? ==> r.value < |docs| && Selects(q, docs[r.value])
    ensures r.Some? ==> forall j :: 0 <= j < r.value ==> !Selects(q, docs[j])
    ensures r.None? <==> forall j :: 0 <= j < |docs| ==> !Selects(q, docs[j])
  {
    if docs == [] then None
    else if Selects(q, docs[0]) then Some(0)
    else
      match FirstMatch(docs[1..], q)
      case None => None
      case Some(i) => Some(i + 1)
  }

  /** The query `{}` selects the first stored document, if there is one. */
  lemma EmptyQueryFindsFirst(docs: seq<Document>, q: Query)
    requires q.keyCount == 0
    ensures FirstMatch(docs, q) == if docs == [] then None else Some(0)
  {
  }

  /** Every document the query selects, patched; the others as they were. */
  function PatchAll(docs: seq<Document>, q: Query, p: Patch): (r: seq<Document>)
    ensures |r| == |docs|
    ensures forall i :: 0 <= i < |docs| && Selects(q, docs[i]) ==> r[i] == Patched(docs[i], p)
    ensures forall i :: 0 <= i < |docs| && !Selects(q, docs[i]) ==> r[i] == docs[i]
  {
    if docs == [] then []
    else [if Selects(q, docs[0]) then Patched(docs[0], p) else docs[0]] + PatchAll(docs[1..], q, p)
  }

  /** Number of documents the query selects. */
  function CountMatches(docs: seq<Document>, q: Query): (c: nat)
    ensures c <= |docs|
    ensures c == 0 <==> forall j :: 0 <= j < |docs| ==> !Selects(q, docs[j])
  {
    if docs == [] then 0
    else (if Selects(q, docs[0]) then 1 else 0) + CountMatches(docs[1..], q)
  }

  /** Number of selected documents the patch actually changes. */
  function CountChanged(docs: seq<Document>, q: Query, p: Patch): (c: nat)
    ensures c <= CountMatches(docs, q)
    ensures c == 0 <==> forall j :: 0 <= j < |docs| && Selects(q, docs[j]) ==> Patched(docs[j], p) == docs[j]
  {
    if docs == [] then 0
    else (if Selects(q, docs[0]) && Patched(docs[0], p) != docs[0] then 1 else 0) + CountChanged(docs[1..], q, p)
  }

  /** The counts an `update` reports. */
  datatype UpdateCounts = UpdateCounts(matched: nat, modified: nat, upserted: nat)

  /** Modified documents are among the matched ones, and some document
      matches exactly when the match count is positive. */
  lemma CountsBounded(docs: seq<Document>, q: Query, p: Patch)
    ensures CountChanged(docs, q, p) <= CountMatches(docs, q) <= |docs|
    ensures CountMatches(docs, q) == 0 <==> FirstMatch(docs, q).None?
  {
  }

  /** Patching twice with an idempotent patch is patching once. */
  lemma PatchedIdempotent(d: Document, p: Patch)
    requires IsIdempotent(p)
    ensures Patched(Patched(d, p), p) == Patched(d, p)
  {
    var d1 := Patched(d, p);
    if p.AddEach? {
      AddToSetEachIdempotent(FieldOf(d, p.field), p.items);
    }
    assert d1.fields[p.field := ApplyToArray(p, FieldOf(d1, p.field))] == d1.fields;
  }

  /** A second `$push` of a non-empty collection does change the document. */
  lemma PushNotIdempotent(d: Document, p: Patch)
    requires p.AddEach? && p.op == Push && p.items != []
    ensures Patched(Patched(d, p), p) != Patched(d, p)
  {
  }

  /** After a single-document update, the same query finds the same
      document again as long as the updated document still satisfies it:
      the documents before it are untouched. */
  lemma SecondCallFindsSameDocument(docs: seq<Document>, q: Query, p: Patch, i: nat)
    requires FirstMatch(docs, q) == Some(i)
    requires Selects(q, Patched(docs[i], p))
    ensures FirstMatch(docs[i := Patched(docs[i], p)], q) == Some(i)
  {
    var docs' := docs[i := Patched(docs[i], p)];
    assert forall j :: 0 <= j < i ==> docs'[j] == docs[j];
    assert Selects(q, docs'[i]);
    var k := FirstMatch(docs', q).value;
    assert !(k < i);
  }

  /** Every `_id` is below the next one to hand out and no two documents
      share one. */
  ghost predicate IdsValid(docs: seq<Document>, nextId: nat)
  {
    (forall i :: 0 <= i < |docs| ==> docs[i].id < nextId) &&
    (forall i, j :: 0 <= i < j < |docs| ==> docs[i].id != docs[j].id)
  }

  /** Replacing documents by ones with the same `_id` keeps the ids valid. */
  lemma IdsValidSameIds(docs: seq<Document>, docs': seq<Document>, nextId: nat)
    requires IdsValid(docs, nextId)
    requires |docs'| == |docs| && forall k :: 0 <= k < |docs| ==> docs'[k].id == docs[k].id
    ensures IdsValid(docs', nextId)
  {
  }

  /** Appending a document with the next `_id` keeps the ids valid once the
      counter moves on. */
  lemma IdsValidAppend(docs: seq<Document>, nextId: nat, d: Document)
    requires IdsValid(docs, nextId) && d.id == nextId
    ensures IdsValid(docs + [d], nextId + 1)
  {
  }

  /** The collection: its documents in natural order and the next `_id` it
      hands out. */
  class Collection {
    var docs: seq<Document>
    var nextId: nat
    /** Whether `update` without a `multi` option changes every matching
        document (true) or only the first one (false). */
    const multi: bool

    /** Every `_id` was handed out already and no two documents share one. */
    ghost predicate Valid()
      reads this
    {
      IdsValid(docs, nextId)
    }

    constructor (multi: bool)
      ensures Valid()
      ensures docs == [] && nextId == 0 && this.multi == multi
    {
      docs := [];
      nextId := 0;
      this.multi := multi;
    }

    /** `create`: stores a new document with the given fields. */
    method Create(fields: map<string, seq<string>>) returns (d: Document)
      requires Valid()
      modifies this
      ensures Valid()
      ensures d == Document(old(nextId), fields)
      ensures docs == old(docs) + [d] && nextId == old(nextId) + 1
    {
      d := Document(nextId, fields);
      docs := docs + [d];
      nextId := nextId + 1;
    }

    /** `findOne`: the first document the query selects, if any. */
    function FindOne(q: Query): (r: Option<Document>)
      reads this
      ensures r.None? <==> forall j :: 0 <= j < |docs| ==> !Selects(q, docs[j])
      ensures r.Some? ==> r.value in docs && Selects(q, r.value)
    {
      match FirstMatch(docs, q)
      case None => None
      case Some(i) => Some(docs[i])
    }

    /** `findOneAndUpdate(q, p, {new: true, upsert: true})`: patches the first
        selected document, or inserts one when none is selected, and
        returns the document as it is after the update. */
    method FindOneAndUpdate(q: Query, p: Patch) returns (d: Document)
      requires Valid()
      modifies this
      ensures Valid()
      ensures match FirstMatch(old(docs), q)
              case Some(i) =>
                d == Patched(old(docs)[i], p) && docs == old(docs)[i := d] && nextId == old(nextId)
              case None =>
                d == Inserted(old(nextId), p) && docs == old(docs) + [d] && nextId == old(nextId) + 1
    {
      match FirstMatch(docs, q)
      case Some(i) =>
        d := Patched(docs[i], p);
        docs := docs[i := d];
      case None =>
        d := Inserted(nextId, p);
        docs := docs + [d];
        nextId := nextId + 1;
    }

    /** `update(q, p, {upsert: true})`: patches the first selected document,
        or every selected one when `multi`, or inserts one when none is
        selected, and reports the counts instead of a document. */
    method Update(q: Query, p: Patch) returns (counts: UpdateCounts)
      requires Valid()
      modifies this
      ensures Valid()
      ensures FirstMatch(old(docs), q).None? ==>
                counts == UpdateCounts(0, 0, 1) &&
                docs == old(docs) + [Inserted(old(nextId), p)] && nextId == old(nextId) + 1
      ensures FirstMatch(old(docs), q).Some? && multi ==>
                counts == UpdateCounts(CountMatches(old(docs), q), CountChanged(old(docs), q, p), 0) &&
                docs == PatchAll(old(docs), q, p) && nextId == old(nextId)
      ensures FirstMatch(old(docs), q).Some? && !multi ==>
                var i := FirstMatch(old(docs), q).value;
                var d := Patched(old(docs)[i], p);
                counts == UpdateCounts(1, if d != old(docs)[i] then 1 else 0, 0) &&
                docs == old(docs)[i := d] && nextId == old(nextId)
    {
      match FirstMatch(docs, q)
      case None =>
        IdsValidAppend(docs, nextId, Inserted(nextId, p));
        docs := docs + [Inserted(nextId, p)];
        nextId := nextId + 1;
        counts := UpdateCounts(0, 0, 1);
      case Some(i) =>
        if multi {
          counts := UpdateCounts(CountMatches(docs, q), CountChanged(docs, q, p), 0);
          IdsValidSameIds(docs, PatchAll(docs, q, p), nextId);
          docs := PatchAll(docs, q, p);
        } else {
          var d := Patched(docs[i], p);
          counts := UpdateCounts(1, if d != docs[i] then 1 else 0, 0);
          IdsValidSameIds(docs, docs[i := d], nextId);
          docs := docs[i := d];
        }
    }
  }
}
