/** `objectToFormData` of src/utils/storage.ts: walks an object with
    `for...in` and appends each leaf to one shared FormData, naming nested
    entries `parent[child]`. The FormData is an object whose entry list the
    walk extends in place; the order and names it produces are given by the
    function `Flatten`, about which the lemmas below speak. */
module FormFlatten {

  /** A value found under a key. `Primitive` holds `String(value)` of a
      string, number, boolean or other non-object; `FileOrBlob` is a File or
      Blob, known by an opaque handle; `Object` is any other non-null object,
      given by its own enumerable keys in `for...in` order (an array is an
      object whose keys are "0", "1", ...: see `ArrayValue`). */
  datatype FieldValue =
    | Null
    | Undefined
    | Primitive(text: string)
    | FileOrBlob(handle: nat)
    | Object(fields: seq<(string, FieldValue)>)

  /** What FormData stores: text, or the File/Blob itself. */
  datatype FormValue = Text(text: string) | Blob(handle: nat)

  /** The browser's FormData, reduced to its ordered entry list. */
  class FormData {
    var entries: seq<(string, FormValue)>

    constructor ()
      ensures entries == []
    {
      entries := [];
    }

    /** `formData.append(name, value)` */
    method Append(name: string, value: FormValue)
      modifies this
      ensures entries == old(entries) + [(name, value)]
    {
      entries := entries + [(name, value)];
    }
  }

  /** `namespace ? namespace + '[' + key + ']' : key`; an empty namespace
      counts as absent, as it is falsy. */
  function FormKey(namespace: string, key: string): (name: string)
    ensures namespace == "" ==> name == key
    ensures namespace != "" ==> name == namespace + "[" + key + "]"
    ensures namespace != "" ==> |name| == |namespace| + |key| + 2 && name[..|namespace| + 1] == namespace + "["
  {
    if namespace != "" then namespace + "[" + key + "]" else key
  }

  /** What the walk appends for one key: a File or Blob as it is, a nested
      object by recursion under the bracketed name, a primitive as its
      string, and nothing for null or undefined. */
  function FieldEntries(namespace: string, key: string, value: FieldValue): seq<(string, FormValue)>
    decreases value, 1
  {
    var name := FormKey(namespace, key);
    match value
    case FileOrBlob(h) => [(name, Blob(h))]
    case Object(_) => FlattenFrom(value, 0, name)
    case Primitive(t) => [(name, Text(t))]
    case Null => []
    case Undefined => []
  }

  /** What the walk appends for the fields of `obj` from index `i` on. */
  function FlattenFrom(obj: FieldValue, i: nat, namespace: string): seq<(string, FormValue)>
    requires obj.Object? && i <= |obj.fields|
    decreases obj, 0, |obj.fields| - i
  {
    if i == |obj.fields| then []
    else
      assert obj.fields[i] in obj.fields;
      FieldEntries(namespace, obj.fields[i].0, obj.fields[i].1) + FlattenFrom(obj, i + 1, namespace)
  }

  /** Everything the walk of `obj` under `namespace` appends, in order. */
  function Flatten(obj: FieldValue, namespace: string): seq<(string, FormValue)>
    requires obj.Object?
  {
    FlattenFrom(obj, 0, namespace)
  }

  /** objectToFormData (src/utils/storage.ts:65-91): appends after whatever
      `form` already holds and returns that same form, or a fresh one when
      no form is given. */
  method ObjectToFormData(obj: FieldValue, form: FormData?, namespace: string) returns (formData: FormData)
    requires obj.Object?
    modifies form
    decreases obj, 0
    ensures form != null ==> formData == form
    ensures form == null ==> fresh(formData)
    ensures formData.entries == (if form == null then [] else old(form.entries)) + Flatten(obj, namespace)
  {
    if form != null {
      formData := form;
    } else {
      formData := new FormData();
    }
    ghost var start := formData.entries;
    var i := 0;
    while i < |obj.fields|
      invariant 0 <= i <= |obj.fields|
      invariant formData.entries + FlattenFrom(obj, i, namespace) == start + Flatten(obj, namespace)
      invariant form != null ==> formData == form
      invariant form == null ==> fresh(formData)
    {
      assert obj.fields[i] in obj.fields;
      ghost var before := formData.entries;
      AppendField(formData, namespace, obj.fields[i].0, obj.fields[i].1);
      assert before + FlattenFrom(obj, i, namespace) == formData.entries + FlattenFrom(obj, i + 1, namespace);
      i := i + 1;
    }
  }

  /** The body of the `for...in` loop for one key. */
  method AppendField(formData: FormData, namespace: string, key: string, value: FieldValue)
    modifies formData
    decreases value, 1
    ensures formData.entries == old(formData.entries) + FieldEntries(namespace, key, value)
  {
    var formKey := FormKey(namespace, key);
    match value {
      case FileOrBlob(h) =>
        formData.Append(formKey, Blob(h));
      case Object(_) =>
        var _ := ObjectToFormData(value, formData, formKey);
      case Primitive(t) =>
        formData.Append(formKey, Text(t));
      case Null =>
      case Undefined =>
    }
  }

  // ---------------------------------------------------------------------
  // Properties of the walk.

  predicate IsPrefix(p: string, s: string)
  {
    |p| <= |s| && s[..|p|] == p
  }

  /** Under a non-empty namespace every appended name is `namespace[...`. */
  lemma {:induction false} NamesUnderNamespace(obj: FieldValue, i: nat, namespace: string)
    requires obj.Object? && i <= |obj.fields| && namespace != ""
    ensures forall e :: e in FlattenFrom(obj, i, namespace) ==> IsPrefix(namespace + "[", e.0)
    decreases obj, |obj.fields| - i
  {
    if i < |obj.fields| {
      var key := obj.fields[i].0;
      var value := obj.fields[i].1;
      assert obj.fields[i] in obj.fields;
      var name := FormKey(namespace, key);
      NamesUnderNamespace(obj, i + 1, namespace);
      if value.Object? {
        NamesUnderNamespace(value, 0, name);
        forall e | e in FlattenFrom(value, 0, name)
          ensures IsPrefix(namespace + "[", e.0)
        {
          assert e.0[..|name| + 1][..|namespace| + 1] == e.0[..|namespace| + 1];
          assert (name + "[")[..|namespace| + 1] == name[..|namespace| + 1];
        }
      }
    }
  }

  /** The values appended, in order, without their names. */
  function LeafValues(obj: FieldValue, i: nat): seq<FormValue>
    requires obj.Object? && i <= |obj.fields|
    decreases obj, |obj.fields| - i
  {
    if i == |obj.fields| then []
    else
      var value := obj.fields[i].1;
      assert obj.fields[i] in obj.fields;
      var here :=
        match value
        case FileOrBlob(h) => [Blob(h)]
        case Object(_) => LeafValues(value, 0)
        case Primitive(t) => [Text(t)]
        case Null => []
        case Undefined => [];
      here + LeafValues(obj, i + 1)
  }

  function Values(entries: seq<(string, FormValue)>): (r: seq<FormValue>)
    ensures |r| == |entries|
    ensures forall k :: 0 <= k < |r| ==> r[k] == entries[k].1
  {
    if entries == [] then [] else [entries[0].1] + Values(entries[1..])
  }

  lemma ValuesAppend(a: seq<(string, FormValue)>, b: seq<(string, FormValue)>)
    ensures Values(a + b) == Values(a) + Values(b)
  {
  }

  /** The values appended are exactly the leaves in depth-first key order,
      primitives as their string and Files/Blobs as they are; null and
      undefined leave nothing. The namespace only affects names. */
  lemma {:induction false} FlattenValues(obj: FieldValue, i: nat, namespace: string)
    requires obj.Object? && i <= |obj.fields|
    ensures Values(FlattenFrom(obj, i, namespace)) == LeafValues(obj, i)
    decreases obj, |obj.fields| - i
  {
    if i < |obj.fields| {
      var key := obj.fields[i].0;
      var value := obj.fields[i].1;
      assert obj.fields[i] in obj.fields;
      var name := FormKey(namespace, key);
      FlattenValues(obj, i + 1, namespace);
      ValuesAppend(FieldEntries(namespace, key, value), FlattenFrom(obj, i + 1, namespace));
      if value.Object? {
        FlattenValues(value, 0, name);
      }
    }
  }

  // ---------------------------------------------------------------------
  // Arrays: for...in visits the indices "0", "1", ... in order.

  function DecimalString(n: nat): (s: string)
    ensures s != []
  {
    if n < 10 then ["0123456789"[n]] else DecimalString(n / 10) + ["0123456789"[n % 10]]
  }

  /** The object view of an array. */
  function ArrayValue(items: seq<FieldValue>): (v: FieldValue)
    ensures v.Object? && |v.fields| == |items|
  {
    Object(seq(|items|, i requires 0 <= i < |items| => (DecimalString(i), items[i])))
  }

  /** The names `name[i]`, `name[i+1]`, ... paired with the texts from
      index `i` on. */
  function IndexedTexts(texts: seq<string>, name: string, i: nat): seq<(string, FormValue)>
    requires i <= |texts|
  {
    seq(|texts| - i, k requires 0 <= k < |texts| - i => (name + "[" + DecimalString(i + k) + "]", Text(texts[i + k])))
  }

  lemma IndexedTextsStep(texts: seq<string>, name: string, i: nat)
    requires i < |texts|
    ensures IndexedTexts(texts, name, i) == [(name + "[" + DecimalString(i) + "]", Text(texts[i]))] + IndexedTexts(texts, name, i + 1)
  {
    var all, later := IndexedTexts(texts, name, i), IndexedTexts(texts, name, i + 1);
    forall k | 0 < k < |all|
      ensures all[k] == later[k - 1]
    {
      assert i + k == i + 1 + (k - 1);
    }
  }

  lemma ArrayStep(texts: seq<string>, name: string, i: nat)
    requires name != "" && i < |texts|
    ensures var obj := ArrayValue(seq(|texts|, k requires 0 <= k < |texts| => Primitive(texts[k])));
      FlattenFrom(obj, i, name) == [(name + "[" + DecimalString(i) + "]", Text(texts[i]))] + FlattenFrom(obj, i + 1, name)
  {
    var obj := ArrayValue(seq(|texts|, k requires 0 <= k < |texts| => Primitive(texts[k])));
    assert obj.fields[i] == (DecimalString(i), Primitive(texts[i]));
  }

  /** An array of primitives under `name` becomes `name[0]`, `name[1]`, ...
      in element order. */
  lemma {:induction false} ArrayOfPrimitives(texts: seq<string>, name: string, i: nat)
    requires name != "" && i <= |texts|
    ensures var obj := ArrayValue(seq(|texts|, k requires 0 <= k < |texts| => Primitive(texts[k])));
      FlattenFrom(obj, i, name) == IndexedTexts(texts, name, i)
    decreases |texts| - i
  {
    if i < |texts| {
      ArrayOfPrimitives(texts, name, i + 1);
      ArrayStep(texts, name, i);
      IndexedTextsStep(texts, name, i);
    }
  }
}
