# mongoose-string-collection, modelled in Dafny

The plugin attaches a string-array field (default `tags`) to a Mongoose schema and
registers four model-level statics for it: `get<Field>`, `add<Field>`,
`replace<Field>` and `batchReplace<Field>`. The names are a verb followed by the
field name with its first letter upper-cased. `add` sends `$addToSet` (when
`isUnique`, the default) or `$push`, each with `$each`. `replace` and `batchReplace`
send `$set`. Every mutating static rejects an undefined or empty query with
`query should not be empty`.

The project has these files:

- `naming.dfy` (module `Naming`) covers ASCII `upperFirst` and the derived static names.
- `array_ops.dfy` (module `ArrayOps`) gives the effect of `$addToSet`/`$push` with `$each`
  on a string array. It also gives a reference definition of what a unique add appends (`Fresh`).
- `store.dfy` (module `Store`) holds the update documents, stored documents and queries. Its
  in-memory store is the class `Collection`, with `findOne`, `findOneAndUpdate` with
  `{new: true, upsert: true}`, and `update` with `{upsert: true}`.
- `plugin.dfy` (module `StringCollection`) covers option defaults, operator choice, the
  update-document literals, the `_.isEmpty` guard, registration on the schema, and the four
  generated statics. The statics are methods that take the model (`Collection`) and the
  resolved configuration.
- `scenarios.dfy` (module `Scenarios`) holds clients that replay the repository's tests
  from the contracts alone. They cover unique and non-unique add, an empty query, and
  batch replace of one document and of two, including the reported `nModified`. They also
  cover `get` with `{}`.
- `wrappers.dfy` (module `Wrappers`) holds `Option`.

A query is modelled as an opaque condition on documents plus its number of keys. Only
the key count matters to `_.isEmpty`. A query without keys (`{}`) selects every document,
whatever its condition says. An undefined query is `None`.

## Model

| member | source | states |
|---|---|---|
| Naming.UpperFirst | index.js:21 | `upperFirst` keeps the length and the tail; a lower-case ASCII first letter becomes the same letter in upper case, and any other first character is left unchanged |
| Naming.NameOf | index.js:23-28 | a static name is its verb followed by `upperFirst(fieldName)` |
| Naming.NamesOfDistinctKindsDiffer | index.js:23-28 | two different verbs never give the same name, for any two field names |
| Naming.NameOfSameKindIff | index.js:21-28 | for one verb, two field names give the same name exactly when they agree after `upperFirst` |
| Naming.UpperFirstIdempotent | index.js:21 | `upperFirst` applied twice is `upperFirst` applied once |
| Naming.CaseVariantsCollide | index.js:21-28 | `tags` and `Tags` yield the same four static names |
| Naming.DefaultNames | index.js:16-28 | for `tags` the names are `getTags`, `addTags`, `replaceTags`, `batchReplaceTags` |
| ArrayOps.PushEach | index.js:22 | `$push` with `$each` keeps the old array as a prefix and appends all the items in order, duplicates included |
| ArrayOps.AddToSetEach | index.js:71-77 | `$addToSet` with `$each` keeps the old array as a prefix; its elements are exactly those of the old array and the items |
| ArrayOps.AddToSetEachAppendsFresh | index.js:71-77 | a unique add equals the old array followed by the items, in order, that are neither present nor repeated earlier in the collection |
| ArrayOps.FreshIsNewAndDistinct | index.js:71-77 | what a unique add appends is every item not already present, none of them twice |
| ArrayOps.AddToSetEachKeepsDistinct | index.js:22 | a unique add into a duplicate-free field leaves it duplicate-free |
| ArrayOps.AddToSetEachPresentUnchanged | test/index.test.js:318-338 | a unique add of elements all already present changes nothing |
| ArrayOps.AddToSetEachIdempotent | index.js:22 | repeating a unique add with the same collection changes nothing |
| ArrayOps.AddingPresentElement | test/index.test.js:300-338 | adding a present element: `$addToSet` keeps the field and its length, `$push` appends it and grows the length by one |
| Store.OperatorKey | index.js:22 | the update document's key is `$set` exactly for a replace patch, `$addToSet` exactly for a unique add, `$push` exactly for a non-unique add |
| Store.FieldOf | index.js:51 | `document[fieldName]`: the stored array when the document has the field, `[]` otherwise |
| Store.Selects | index.js:50-51 | a query without keys (`{}`) selects every document; a query with keys selects exactly the documents its condition accepts |
| Store.ApplyToArray | index.js:71-77 | the field after an update: `$set` gives the value, `$push` appends all items, and `$addToSet` keeps the old array as a prefix and holds exactly the old elements and the items |
| Store.CountMatches | index.js:127-135 | the matched count is at most the number of documents and is zero exactly when the query selects none |
| Store.CountChanged | index.js:127-135 | the modified count is at most the matched count and is zero exactly when the update changes no selected document |
| Store.Patched | index.js:71-84 | an update changes only the patched field, to the operator's result, and keeps `_id` and every other field |
| Store.Inserted | index.js:79-84 | the document an upsert inserts has the fresh `_id`, only the patched field, and that field holds the operator applied to the empty array |
| Store.EmptyQueryFindsFirst | index.js:50-51 | the query `{}` selects the first stored document, if there is one |
| Store.FirstMatch | index.js:84 | the store selects the first document in order that the query matches, or none when no document matches |
| Store.PatchAll | index.js:147-151 | a multi update patches every selected document and leaves the others as they were |
| Store.CountsBounded | index.js:127-135 | the modified count is at most the matched count; the matched count is zero exactly when nothing is selected |
| Store.PatchedIdempotent | index.js:106-110 | `$set` (and `$addToSet`) applied twice gives the same document as applied once |
| Store.PushNotIdempotent | index.js:22 | a second `$push` of a non-empty collection changes the document again |
| Store.SecondCallFindsSameDocument | index.js:78-84 | after a single-document update the same query selects the same document again if it still matches |
| Store.Collection.FindOne | index.js:51 | `findOne` yields nothing exactly when no document matches, otherwise a stored document that matches |
| Store.Collection.FindOneAndUpdate | index.js:78-84 | with `new` and `upsert`: patches the first match and returns it after the update, or inserts and returns a new document; ids stay unique |
| Store.Collection.Update | index.js:147-151 | with `upsert`: the first or every match is patched (store's `multi`), or one document is inserted; the counts are matched/modified/upserted |
| StringCollection.Resolve | index.js:15-19 | each given option is kept; undefined options default to field `tags`, not indexed, unique |
| StringCollection.UpdateOperator | index.js:22 | the operator is `$addToSet` exactly when `isUnique`, `$push` exactly when not |
| StringCollection.AddPatch | index.js:71-77 | the add patch targets the configured field with the whole collection under `$each`, with `$addToSet` exactly when unique |
| StringCollection.ReplacePatch | index.js:106-110 | the replace patch is a `$set` of the configured field, which then equals the collection whatever it held |
| StringCollection.IsEmptyQuery | index.js:67-69 | an undefined query is empty; a given query is empty exactly when it has no keys, and then it selects every document |
| StringCollection.GetQuery | index.js:50 | an undefined query becomes `{}`, selecting every document; a given query selects what it selects |
| StringCollection.Message | index.js:67-69 | the rejection for an empty query carries the message `query should not be empty` |
| StringCollection.AddPatchMeaning | index.js:71-77 | the add patch puts the whole collection under `$each` for the configured field, under `$addToSet` exactly when unique; it appends the fresh elements when unique and all of them otherwise |
| StringCollection.ReplacePatchMeaning | index.js:106-110 | the replace patch is `$set` of the configured field; the field then equals the collection exactly, with no de-duplication |
| StringCollection.UniqueAddProperties | index.js:22 | a unique add keeps the old elements in order, appends only new collection elements, adds no duplicate, and leaves the field unchanged when everything is present |
| StringCollection.NamesDistinct | index.js:23-28 | the four generated names are pairwise distinct |
| StringCollection.DefaultConfiguration | index.js:14-28 | with no options: field `tags`, not indexed, unique (`$addToSet`), statics `getTags`/`addTags`/`replaceTags`/`batchReplaceTags` |
| StringCollection.Plugin | index.js:14-152 | registers exactly the four derived names, each bound to its operation and the resolved configuration; other statics are kept |
| StringCollection.GetCollection | index.js:50-52 | an undefined query selects any document; the result is nothing when no document matches, else exactly the first match's field; the store is not changed |
| StringCollection.AddCollection | index.js:66-85 | an empty query is rejected and the store is unchanged. Otherwise only the first match changes, and its field becomes the unique or non-unique add result. With no match, exactly the upserted document for the add patch is appended. The post-update document is returned |
| StringCollection.ReplaceCollection | index.js:101-118 | an empty query is rejected and the store is unchanged. Otherwise the field of the first match becomes the collection. With no match, exactly the upserted document for the `$set` patch is appended. The post-update document is returned |
| StringCollection.BatchReplaceCollection | index.js:137-152 | an empty query is rejected and the store is unchanged. Otherwise it gives the exact new store and counts. With no match, one document is inserted with the field equal to the collection, counts (0, 0, 1). With a match and a single update, only the first match is patched, counts (1, 1 if it changed else 0, 0). With a multi update, every match is patched, counts (number matched, number changed, 0). Every changed document has the field equal to the collection; counts are returned rather than a document |

## Left out

- The schema path definition is not modelled: `schema.add` with `type: String` and `index: isIndex` (index.js:30-35). `isIndex` is carried in `Config` but has no effect.
- Promises, `exec()` and the `tapCatch(console.log)` logging are not modelled. A settled promise is the `Result` value; nothing is asynchronous.
- The query language is not modelled: `_id` matching, `$in`, and any other filter. A query is an opaque predicate plus its key count.
- An upsert does not seed the new document from the query's equality fields. The new document holds only the patched field, with an `_id` taken from the store's counter.
- Casting of elements to `String` is not modelled, nor a `collection` that is not an array. The collection is always a `seq<string>`.
- `_.isEmpty` on a query that is not an object (a string or a number) is not modelled.
- `upperFirst` is modelled for ASCII letters only. Lodash's version also upper-cases other Unicode letters.
- `get` may yield `null` (no document) or, as its doc comment says, `undefined`. Both are `None`. The projection by `select` is reduced to returning the field.
- A document that lacks the field reads as `[]`, the default of a schema array path. `$addToSet`/`$push` on a missing field create it.
- Store.Collection.Update: `batchReplace` calls `update` without a `multi` option (index.js:147-151). Mongoose's `Model.update` defaults to `multi: false` and so touches only the first match. Yet test/index.test.js:489-512 expects both selected documents updated, with `nModified` 2. The choice is the store's `multi` constant: `false` is the behaviour as written, `true` is what the test expects. The model proves both cases.
- The statics `remove`, `batchRemove` and `batchAdd`, the `maxLength` validator, element options and per-call update options appear in the test file but are not defined in index.js. They are not part of this model.
- Concurrent calls and the store's atomicity are not modelled. Each store operation is one atomic step.
