/** Naming of the generated statics: a verb prefix followed by the field
    name with its first character upper-cased (lodash `upperFirst`,
    restricted here to ASCII letters). */
module Naming {

  predicate IsLowerAscii(c: char)
  {
    'a' <= c <= 'z'
  }

  /** Upper-cases an ASCII lower-case letter and leaves every other character alone. */
  function UpperChar(c: char): char
  {
    if IsLowerAscii(c) then (c as int - 'a' as int + 'A' as int) as char else c
  }

  /** `_.upperFirst`: the first character upper-cased, the rest unchanged. */
  function UpperFirst(s: string): (r: string)
    ensures |r| == |s|
    ensures |s| > 0 ==> r[1..] == s[1..] && !IsLowerAscii(r[0])
    ensures |s| > 0 && !IsLowerAscii(s[0]) ==> r == s
    ensures |s| > 0 && IsLowerAscii(s[0]) ==>
              'A' <= r[0] <= 'Z' && r[0] as int - 'A' as int == s[0] as int - 'a' as int
  {
    if s == [] then [] else [UpperChar(s[0])] + s[1..]
  }

  /** The four operations the plugin generates, one static per kind. */
  datatype OpKind = Get | Add | Replace | BatchReplace

  function Verb(k: OpKind): string
  {
    match k
    case Get => "get"
    case Add => "add"
    case Replace => "replace"
    case BatchReplace => "batchReplace"
  }

  /** The public name of the static generated for `k` on field `fieldName`. */
  function NameOf(k: OpKind, fieldName: string): (name: string)
    ensures |name| == |Verb(k)| + |fieldName|
    ensures name[..|Verb(k)|] == Verb(k)
    ensures name[|Verb(k)|..] == UpperFirst(fieldName)
  {
    Verb(k) + UpperFirst(fieldName)
  }

  /** Two different verbs never produce the same name, whatever the field
      names are: the verbs already differ in their first character. */
  lemma NamesOfDistinctKindsDiffer(k1: OpKind, k2: OpKind, f1: string, f2: string)
    requires k1 != k2
    ensures NameOf(k1, f1) != NameOf(k2, f2)
  {
  }

  /** For one verb, two field names give the same static name exactly when
      they agree after `upperFirst`. */
  lemma NameOfSameKindIff(k: OpKind, f1: string, f2: string)
    ensures NameOf(k, f1) == NameOf(k, f2) <==> UpperFirst(f1) == UpperFirst(f2)
  {
  }

  /** `upperFirst` is idempotent. */
  lemma UpperFirstIdempotent(s: string)
    ensures UpperFirst(UpperFirst(s)) == UpperFirst(s)
  {
  }

  /** A field name and its upper-first form yield the same static names, so
      applying the plugin for `tags` and for `Tags` on one schema registers
      the same four names twice. */
  lemma CaseVariantsCollide(k: OpKind, f: string)
    ensures NameOf(k, UpperFirst(f)) == NameOf(k, f)
  {
  }

  /** With the default field name the statics are `getTags`, `addTags`,
      `replaceTags` and `batchReplaceTags`. */
  lemma DefaultNames()
    ensures NameOf(Get, "tags") == "getTags"
    ensures NameOf(Add, "tags") == "addTags"
    ensures NameOf(Replace, "tags") == "replaceTags"
    ensures NameOf(BatchReplace, "tags") == "batchReplaceTags"
  {
    assert UpperFirst("tags") == "Tags";
  }
}
