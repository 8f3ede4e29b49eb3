/** The plugin: resolves its options, registers four statics on the schema
    under derived names, and each static guards its query, builds an update
    document for the configured field and hands it to the store. */
module StringCollection {
  import opened Wrappers
  import opened Naming
  import opened ArrayOps
  import opened Store

  /** The plugin options as given; `None` is an option left undefined. */
  datatype Options = Options(fieldName: Option<string>, isIndex: Option<bool>, isUnique: Option<bool>)

  /** The options after defaults are applied. `isIndex` only affects the
      schema path definition, which is not part of this model. */
  datatype Config = Config(fieldName: string, isIndex: bool, isUnique: bool)

  const NoOptions := Options(None, None, None)

  /** Destructuring with defaults: `fieldName = 'tags'`, `isIndex = false`,
      `isUnique = true`; a default applies only to an undefined option. */
  function Resolve(o: Options): (c: Config)
    ensures o.fieldName.Some? ==> c.fieldName == o.fieldName.value
    ensures o.fieldName.None? ==> c.fieldName == "tags"
    ensures o.isIndex.Some? ==> c.isIndex == o.isIndex.value
    ensures o.isIndex.None? ==> !c.isIndex
    ensures o.isUnique.Some? ==> c.isUnique == o.isUnique.value
    ensures o.isUnique.None? ==> c.isUnique
  {
    Config(
      if o.fieldName.Some? then o.fieldName.value else "tags",
      if o.isIndex.Some? then o.isIndex.value else false,
      if o.isUnique.Some? then o.isUnique.value else true)
  }

  /** `isUnique ? '$addToSet' : '$push'`. */
  function UpdateOperator(isUnique: bool): (op: ArrayOp)
    ensures op == AddToSet <==> isUnique
    ensures op == Push <==> !isUnique
  {
    if isUnique then AddToSet else Push
  }

  /** The add update document: `{[op]: {[fieldName]: {$each: collection}}}`. */
  function AddPatch(cfg: Config, collection: seq<string>): (p: Patch)
    ensures p.AddEach? && p.field == cfg.fieldName && p.items == collection
    ensures p.op == AddToSet <==> cfg.isUnique
  {
    AddEach(UpdateOperator(cfg.isUnique), cfg.fieldName, collection)
  }

  /** The replace update document: `{$set: {[fieldName]: collection}}`. */
  function ReplacePatch(cfg: Config, collection: seq<string>): (p: Patch)
    ensures p.SetField? && p.field == cfg.fieldName
    ensures forall arr :: ApplyToArray(p, arr) == collection
  {
    SetField(cfg.fieldName, collection)
  }

  /** What an add does to the field, stated without the operators: a unique
      add appends the fresh elements, a non-unique one appends everything. */
  function AddResult(cfg: Config, arr: seq<string>, collection: seq<string>): seq<string>
  {
    if cfg.isUnique then arr + Fresh(arr, collection) else arr + collection
  }

  /** The add patch targets the configured field with the whole collection
      under `$each`, under `$addToSet` exactly when the field is unique, and
      its effect is `AddResult`. */
  lemma AddPatchMeaning(cfg: Config, arr: seq<string>, collection: seq<string>)
    ensures AddPatch(cfg, collection).field == cfg.fieldName
    ensures AddPatch(cfg, collection).items == collection
    ensures OperatorKey(AddPatch(cfg, collection)) == (if cfg.isUnique then "$addToSet" else "$push")
    ensures ApplyToArray(AddPatch(cfg, collection), arr) == AddResult(cfg, arr, collection)
  {
    AddToSetEachAppendsFresh(arr, collection);
  }

  /** The replace patch is `$set` on the configured field; the field then
      equals the collection exactly, whatever `isUnique` says. */
  lemma ReplacePatchMeaning(cfg: Config, arr: seq<string>, collection: seq<string>)
    ensures OperatorKey(ReplacePatch(cfg, collection)) == "$set"
    ensures ReplacePatch(cfg, collection).field == cfg.fieldName
    ensures ApplyToArray(ReplacePatch(cfg, collection), arr) == collection
  {
  }

  /** A unique add never introduces a duplicate and keeps the old elements
      in place; an add of elements already present changes nothing. */
  lemma UniqueAddProperties(cfg: Config, arr: seq<string>, collection: seq<string>)
    requires cfg.isUnique
    ensures var r := ApplyToArray(AddPatch(cfg, collection), arr);
      r[..|arr|] == arr &&
      (Distinct(arr) ==> Distinct(r)) &&
      (forall i :: |arr| <= i < |r| ==> r[i] in collection && r[i] !in arr) &&
      ((forall x :: x in collection ==> x in arr) ==> r == arr)
  {
    var r := ApplyToArray(AddPatch(cfg, collection), arr);
    AddToSetEachAppendsFresh(arr, collection);
    FreshIsNewAndDistinct(arr, collection);
    if Distinct(arr) {
      AddToSetEachKeepsDistinct(arr, collection);
    }
    if forall x :: x in collection ==> x in arr {
      AddToSetEachPresentUnchanged(arr, collection);
    }
    forall i | |arr| <= i < |r| ensures r[i] in collection && r[i] !in arr {
      assert r[i] == Fresh(arr, collection)[i - |arr|];
    }
  }

  /** The single error the plugin raises itself. */
  datatype Error = EmptyQuery

  function Message(e: Error): (m: string)
    ensures e == EmptyQuery ==> m == "query should not be empty"
  {
    match e
    case EmptyQuery => "query should not be empty"
  }

  /** A settled promise: fulfilled with a value or rejected with an error. */
  datatype Result<T> = Ok(value: T) | Err(error: Error)

  /** `_.isEmpty(query)`: an undefined query or one without keys. */
  function IsEmptyQuery(query: Option<Query>): (empty: bool)
    ensures query.None? ==> empty
    ensures query.Some? ==> (empty <==> query.value.keyCount == 0)
    ensures empty && query.Some? ==> forall d :: Selects(query.value, d)
  {
    query.None? || query.value.keyCount == 0
  }

  /** The query `{}`, which selects every document. */
  const MatchAll := Query(d => true, 0)

  /** `get` defaults an undefined query to `{}`. */
  function GetQuery(query: Option<Query>): (q: Query)
    ensures forall d :: Selects(q, d) <==> query.None? || Selects(query.value, d)
  {
    if query.Some? then query.value else MatchAll
  }

  /** A generated static: which operation it is and the configuration it
      closes over. */
  datatype Static = Static(kind: OpKind, config: Config)

  /** The four names the plugin registers for a field. */
  function Names(fieldName: string): set<string>
  {
    {NameOf(Get, fieldName), NameOf(Add, fieldName), NameOf(Replace, fieldName), NameOf(BatchReplace, fieldName)}
  }

  /** The four names are pairwise distinct. */
  lemma NamesDistinct(fieldName: string)
    ensures forall k1: OpKind, k2: OpKind :: k1 != k2 ==> NameOf(k1, fieldName) != NameOf(k2, fieldName)
    ensures |Names(fieldName)| == 4
  {
    forall k1: OpKind, k2: OpKind | k1 != k2
      ensures NameOf(k1, fieldName) != NameOf(k2, fieldName)
    {
      NamesOfDistinctKindsDiffer(k1, k2, fieldName, fieldName);
    }
    var g, a, r, b := NameOf(Get, fieldName), NameOf(Add, fieldName), NameOf(Replace, fieldName), NameOf(BatchReplace, fieldName);
    assert |{g} + {a}| == 2;
    assert |{g, a} + {r}| == 3;
    assert Names(fieldName) == {g, a, r} + {b};
  }

  /** With no options the field is `tags`, values are unique, the path is
      not indexed, and the statics are `getTags`, `addTags`, `replaceTags`
      and `batchReplaceTags`. */
  lemma DefaultConfiguration()
    ensures Resolve(NoOptions) == Config("tags", false, true)
    ensures Names(Resolve(NoOptions).fieldName) == {"getTags", "addTags", "replaceTags", "batchReplaceTags"}
    ensures UpdateOperator(Resolve(NoOptions).isUnique) == AddToSet
  {
    DefaultNames();
  }

  /** The schema's model-level namespace. */
  class Schema {
    var statics: map<string, Static>

    constructor ()
      ensures statics == map[]
    {
      statics := map[];
    }
  }

  /** Applies the plugin: resolves the options and assigns one static per
      operation kind under its derived name; other statics stay as they were
      and a static of the same name is overwritten. */
  method Plugin(schema: Schema, options: Options) returns (cfg: Config)
    modifies schema
    ensures cfg == Resolve(options)
    ensures schema.statics.Keys == old(schema.statics.Keys) + Names(cfg.fieldName)
    ensures forall k: OpKind :: schema.statics[NameOf(k, cfg.fieldName)] == Static(k, cfg)
    ensures forall n :: n in old(schema.statics) && n !in Names(cfg.fieldName) ==> schema.statics[n] == old(schema.statics)[n]
  {
    cfg := Resolve(options);
    var f := cfg.fieldName;
    NamesDistinct(f);
    schema.statics := schema.statics[NameOf(Get, f) := Static(Get, cfg)]
                                    [NameOf(Add, f) := Static(Add, cfg)]
                                    [NameOf(Replace, f) := Static(Replace, cfg)]
                                    [NameOf(BatchReplace, f) := Static(BatchReplace, cfg)];
    forall k: OpKind ensures schema.statics[NameOf(k, f)] == Static(k, cfg) {
      match k
      case Get =>
      case Add =>
      case Replace =>
      case BatchReplace =>
    }
  }

  /** `get<Field>(query = {})`: the field of the first selected document,
      projected, or nothing when no document is selected. Changes nothing. */
  method GetCollection(model: Collection, cfg: Config, query: Option<Query>) returns (r: Option<seq<string>>)
    ensures var q := GetQuery(query);
      r.None? <==> forall j :: 0 <= j < |model.docs| ==> !Selects(q, model.docs[j])
    ensures var q := GetQuery(query);
      r.Some? ==> exists i :: 0 <= i < |model.docs| && Selects(q, model.docs[i]) &&
                    (forall j :: 0 <= j < i ==> !Selects(q, model.docs[j])) &&
                    r.value == FieldOf(model.docs[i], cfg.fieldName)
  {
    var found := model.FindOne(GetQuery(query));
    match found
    case None =>
      r := None;
    case Some(d) =>
      r := Some(FieldOf(d, cfg.fieldName));
  }

  /** `add<Field>(query, collection)`: rejects an empty query leaving the
      store as it was; otherwise adds the collection to the field of the
      first selected document, or inserts a document holding the added
      collection, and returns the document after the update. */
  method AddCollection(model: Collection, cfg: Config, query: Option<Query>, collection: seq<string>)
    returns (r: Result<Document>)
    requires model.Valid()
    modifies model
    ensures model.Valid()
    ensures IsEmptyQuery(query) ==>
              r == Err(EmptyQuery) && model.docs == old(model.docs) && model.nextId == old(model.nextId)
    ensures !IsEmptyQuery(query) ==> (
              r.Ok? &&
              match FirstMatch(old(model.docs), query.value)
              case Some(i) =>
                model.docs == old(model.docs)[i := r.value] && model.nextId == old(model.nextId) &&
                r.value == Patched(old(model.docs)[i], AddPatch(cfg, collection)) &&
                FieldOf(r.value, cfg.fieldName) == AddResult(cfg, FieldOf(old(model.docs)[i], cfg.fieldName), collection)
              case None =>
                model.docs == old(model.docs) + [r.value] && model.nextId == old(model.nextId) + 1 &&
                r.value == Inserted(old(model.nextId), AddPatch(cfg, collection)) &&
                FieldOf(r.value, cfg.fieldName) == AddResult(cfg, [], collection))
  {
    if IsEmptyQuery(query) {
      return Err(EmptyQuery);
    }
    ghost var before := model.docs;
    var p := AddPatch(cfg, collection);
    var d := model.FindOneAndUpdate(query.value, p);
    r := Ok(d);
    match FirstMatch(before, query.value)
    case Some(i) =>
      AddPatchMeaning(cfg, FieldOf(before[i], cfg.fieldName), collection);
    case None =>
      AddPatchMeaning(cfg, [], collection);
  }

  /** `replace<Field>(query, collection)`: rejects an empty query leaving the
      store as it was; otherwise sets the field of the first selected
      document, or of a newly inserted one, to exactly the collection and
      returns the document after the update. */
  method ReplaceCollection(model: Collection, cfg: Config, query: Option<Query>, collection: seq<string>)
    returns (r: Result<Document>)
    requires model.Valid()
    modifies model
    ensures model.Valid()
    ensures IsEmptyQuery(query) ==>
              r == Err(EmptyQuery) && model.docs == old(model.docs) && model.nextId == old(model.nextId)
    ensures !IsEmptyQuery(query) ==> (
              r.Ok? && FieldOf(r.value, cfg.fieldName) == collection &&
              match FirstMatch(old(model.docs), query.value)
              case Some(i) =>
                model.docs == old(model.docs)[i := r.value] && model.nextId == old(model.nextId) &&
                r.value == Patched(old(model.docs)[i], ReplacePatch(cfg, collection))
              case None =>
                model.docs == old(model.docs) + [r.value] && model.nextId == old(model.nextId) + 1 &&
                r.value == Inserted(old(model.nextId), ReplacePatch(cfg, collection)))
  {
    if IsEmptyQuery(query) {
      return Err(EmptyQuery);
    }
    var d := model.FindOneAndUpdate(query.value, ReplacePatch(cfg, collection));
    r := Ok(d);
  }

  /** `batchReplace<Field>(query, collection)`: rejects an empty query
      leaving the store as it was; otherwise sets the field of the updated
      documents (the first selected one, or all of them when the store's
      `update` is multi) to exactly the collection, inserting a document
      when none is selected, and returns the update counts. */
  method BatchReplaceCollection(model: Collection, cfg: Config, query: Option<Query>, collection: seq<string>)
    returns (r: Result<UpdateCounts>)
    requires model.Valid()
    modifies model
    ensures model.Valid()
    ensures IsEmptyQuery(query) ==>
              r == Err(EmptyQuery) && model.docs == old(model.docs) && model.nextId == old(model.nextId)
    ensures !IsEmptyQuery(query) ==> (
              r.Ok? &&
              var q := query.value;
              var p := ReplacePatch(cfg, collection);
              match FirstMatch(old(model.docs), q)
              case None =>
                r.value == UpdateCounts(0, 0, 1) &&
                model.docs == old(model.docs) + [Inserted(old(model.nextId), p)] &&
                model.nextId == old(model.nextId) + 1
              case Some(i) =>
                model.nextId == old(model.nextId) &&
                (model.multi ==>
                   r.value == UpdateCounts(CountMatches(old(model.docs), q), CountChanged(old(model.docs), q, p), 0) &&
                   model.docs == PatchAll(old(model.docs), q, p)) &&
                (!model.multi ==>
                   var d := Patched(old(model.docs)[i], p);
                   r.value == UpdateCounts(1, if d != old(model.docs)[i] then 1 else 0, 0) &&
                   model.docs == old(model.docs)[i := d]))
    // A summary of the exact state above: what every caller of a batch
    // replace relies on.
    ensures !IsEmptyQuery(query) ==> (
              r.Ok? &&
              var q := query.value;
              var n := |old(model.docs)|;
              |model.docs| == n + r.value.upserted &&
              r.value.modified <= r.value.matched &&
              (r.value.upserted == 1 ==> FieldOf(model.docs[n], cfg.fieldName) == collection) &&
              (forall i :: 0 <= i < n ==>
                 model.docs[i] == old(model.docs)[i] ||
                 (Selects(q, old(model.docs)[i]) && model.docs[i] == Patched(old(model.docs)[i], ReplacePatch(cfg, collection)))) &&
              (model.multi ==> forall i :: 0 <= i < n && Selects(q, old(model.docs)[i]) ==>
                                 FieldOf(model.docs[i], cfg.fieldName) == collection))
  {
    if IsEmptyQuery(query) {
      return Err(EmptyQuery);
    }
    var counts := model.Update(query.value, ReplacePatch(cfg, collection));
    r := Ok(counts);
  }
}
