/** Clients of the generated statics, replaying the repository's test
    scenarios from the contracts alone. */
module Scenarios {
  import opened Wrappers
  import opened ArrayOps
  import opened Store
  import opened StringCollection

  /** A unique add of an element already present leaves `['t', 't1']` as it was. */
  method UniqueAddScenario()
  {
    var model := new Collection(false);
    var cfg := Resolve(NoOptions);
    var doc := model.Create(map["tags" := ["t", "t1"]]);
    var q := Query((d: Document) => d.id == doc.id, 1);
    assert FirstMatch(model.docs, q) == Some(0);
    var r := AddCollection(model, cfg, Some(q), ["t1"]);
    assert Fresh(["t", "t1"], ["t1"]) == [];
    assert FieldOf(r.value, "tags") == ["t", "t1"];
  }

  /** A non-unique add keeps the duplicate: `['t', 't1', 't1']`. */
  method PushAddScenario()
  {
    var model := new Collection(false);
    var cfg := Resolve(Options(None, None, Some(false)));
    var doc := model.Create(map["tags" := ["t", "t1"]]);
    var q := Query((d: Document) => d.id == doc.id, 1);
    assert FirstMatch(model.docs, q) == Some(0);
    var r := AddCollection(model, cfg, Some(q), ["t1"]);
    assert FieldOf(r.value, "tags") == ["t", "t1", "t1"];
  }

  /** An undefined query is rejected and nothing changes. */
  method EmptyQueryScenario()
  {
    var model := new Collection(true);
    var cfg := Resolve(NoOptions);
    var doc := model.Create(map["tags" := ["t"]]);
    var r := ReplaceCollection(model, cfg, None, ["t2"]);
    assert r == Err(EmptyQuery) && Message(r.error) == "query should not be empty";
    assert model.docs == [doc];
  }

  /** Replacing the field of the one selected document reports one match
      and one modification, and the field becomes `['t2']`. */
  method SingleBatchReplaceScenario()
  {
    var model := new Collection(false);
    var cfg := Resolve(NoOptions);
    var doc := model.Create(map["tags" := ["t", "t1"]]);
    var q := Query((d: Document) => d.id == doc.id, 1);
    assert Selects(q, model.docs[0]) && FirstMatch(model.docs, q) == Some(0);
    var r := BatchReplaceCollection(model, cfg, Some(q), ["t2"]);
    assert FieldOf(Patched(doc, ReplacePatch(cfg, ["t2"])), "tags") != FieldOf(doc, "tags");
    assert r.value == UpdateCounts(1, 1, 0);
    assert FieldOf(model.docs[0], "tags") == ["t2"];
  }

  /** A multi `update` replaces the field of both selected documents and
      reports two modifications. */
  method BatchReplaceScenario()
  {
    var model := new Collection(true);
    var cfg := Resolve(NoOptions);
    var d1 := model.Create(map["tags" := ["t", "t1"]]);
    var d2 := model.Create(map["tags" := ["t", "t1"]]);
    var q := Query((d: Document) => d.id == 0 || d.id == 1, 1);
    var p := ReplacePatch(cfg, ["t3"]);
    assert Selects(q, model.docs[0]) && FirstMatch(model.docs, q).Some?;
    assert FieldOf(Patched(d1, p), "tags") != FieldOf(d1, "tags");
    assert FieldOf(Patched(d2, p), "tags") != FieldOf(d2, "tags");
    assert model.docs == [d1, d2] && [d1, d2][1..] == [d2] && [d2][1..] == [];
    assert CountChanged([d2], q, p) == 1;
    assert CountChanged(model.docs, q, p) == 2;
    var r := BatchReplaceCollection(model, cfg, Some(q), ["t3"]);
    assert FieldOf(model.docs[0], "tags") == ["t3"] && FieldOf(model.docs[1], "tags") == ["t3"];
    assert r.value.modified == 2 && r.value.upserted == 0;
  }

  /** `get` with the query `{}` finds the stored document even when the
      query's condition would select nothing. */
  method GetEmptyQueryScenario()
  {
    var model := new Collection(false);
    var cfg := Resolve(NoOptions);
    var doc := model.Create(map["tags" := ["t3"]]);
    var q := Query((d: Document) => false, 0);
    assert model.docs == [doc] && Selects(q, doc);
    var r := GetCollection(model, cfg, Some(q));
    assert model.docs == [doc] && Selects(GetQuery(Some(q)), model.docs[0]);
    assert r == Some(["t3"]);
  }
}
