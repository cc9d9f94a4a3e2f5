/** Journal payloads as ordered JSON objects, and the recursive removal of
    `*_Localised` keys that `codex_entry` applies before export
    (plugins/ceedn.py, nested function `filter_localised`). */
module Journal {
  import opened Options

  /** A decoded JSON value. Objects keep their key order (the source uses
      `OrderedDict`); numbers are integers in this model. */
  datatype Value =
    | Null
    | Bool(b: bool)
    | Num(n: int)
    | Str(s: string)
    | List(items: seq<Value>)
    | Obj(fields: seq<Field>)

  datatype Field = Field(key: string, val: Value)

  const LocalisedSuffix: string := "_Localised"

  predicate EndsWith(s: string, suffix: string) {
    |suffix| <= |s| && s[|s| - |suffix|..] == suffix
  }

  /** The key ends in `_Localised`. */
  predicate IsLocalised(k: string) {
    EndsWith(k, LocalisedSuffix)
  }

  /** Indexing an ordered dictionary by key: the value of the first field named `k`. */
  function Lookup(fs: seq<Field>, k: string): (r: Option<Value>)
    ensures r.None? <==> forall i :: 0 <= i < |fs| ==> fs[i].key != k
    ensures r.Some? ==> exists i :: 0 <= i < |fs| && fs[i].key == k && fs[i].val == r.value
  {
    if fs == [] then None
    else if fs[0].key == k then Some(fs[0].val)
    else Lookup(fs[1..], k)
  }

  /** Python truthiness of a JSON value. */
  predicate Truthy(v: Value) {
    match v
    case Null => false
    case Bool(b) => b
    case Num(n) => n != 0
    case Str(s) => s != ""
    case List(xs) => xs != []
    case Obj(fs) => fs != []
  }

  function Keys(fs: seq<Field>): (r: seq<string>)
    ensures |r| == |fs|
    ensures forall i :: 0 <= i < |fs| ==> r[i] == fs[i].key
  {
    if fs == [] then [] else [fs[0].key] + Keys(fs[1..])
  }

  /** The keys of `ks` that are not localised, in their original order. */
  function NonLocalised(ks: seq<string>): (r: seq<string>)
    ensures forall i :: 0 <= i < |r| ==> !IsLocalised(r[i])
    ensures forall k :: k in ks && !IsLocalised(k) ==> k in r
  {
    if ks == [] then []
    else if IsLocalised(ks[0]) then NonLocalised(ks[1..])
    else [ks[0]] + NonLocalised(ks[1..])
  }

  // ---------------------------------------------------------------------
  // The filter. An object is filtered key by key; a nested object is
  // filtered recursively; a list has each of its OBJECT items filtered and
  // every other item (a nested list included) kept as it is; any other
  // value is kept.

  /** `filter_localised` applied to the object with fields `fs`. */
  function FilterObject(fs: seq<Field>): seq<Field>
    decreases fs
  {
    if fs == [] then []
    else if IsLocalised(fs[0].key) then FilterObject(fs[1..])
    else [Field(fs[0].key, FilterValue(fs[0].val))] + FilterObject(fs[1..])
  }

  /** The value stored under a kept key. */
  function FilterValue(v: Value): Value
    decreases v
  {
    match v
    case Obj(fs) => Obj(FilterObject(fs))
    case List(xs) => List(FilterItems(xs))
    case _ => v
  }

  /** A list under a kept key: object items are filtered, other items kept. */
  function FilterItems(xs: seq<Value>): seq<Value>
    decreases xs
  {
    if xs == [] then []
    else [FilterItem(xs[0])] + FilterItems(xs[1..])
  }

  function FilterItem(x: Value): Value
    decreases x
  {
    match x
    case Obj(fs) => Obj(FilterObject(fs))
    case _ => x
  }

  // ---------------------------------------------------------------------
  // "Clean": no localised key anywhere the filter reaches.

  predicate CleanObject(fs: seq<Field>)
    decreases fs
  {
    forall i :: 0 <= i < |fs| ==> !IsLocalised(fs[i].key) && CleanValue(fs[i].val)
  }

  predicate CleanValue(v: Value)
    decreases v
  {
    match v
    case Obj(fs) => CleanObject(fs)
    case List(xs) => forall i :: 0 <= i < |xs| ==> CleanItem(xs[i])
    case _ => true
  }

  predicate CleanItem(x: Value)
    decreases x
  {
    match x
    case Obj(fs) => CleanObject(fs)
    case _ => true
  }

  // ---------------------------------------------------------------------
  // Properties of the filter.

  /** The filter leaves no localised key at any object or list-of-objects
      level it reaches. */
  lemma {:induction false} FilterObjectIsClean(fs: seq<Field>)
    ensures CleanObject(FilterObject(fs))
    decreases fs
  {
    if fs != [] {
      FilterObjectIsClean(fs[1..]);
      if !IsLocalised(fs[0].key) {
        FilterValueIsClean(fs[0].val);
      }
    }
  }

  lemma {:induction false} FilterValueIsClean(v: Value)
    ensures CleanValue(FilterValue(v))
    decreases v
  {
    match v
    case Obj(fs) => FilterObjectIsClean(fs);
    case List(xs) => FilterItemsAreClean(xs);
    case _ =>
  }

  lemma {:induction false} FilterItemsAreClean(xs: seq<Value>)
    ensures forall i :: 0 <= i < |FilterItems(xs)| ==> CleanItem(FilterItems(xs)[i])
    ensures |FilterItems(xs)| == |xs|
    decreases xs
  {
    if xs != [] {
      FilterItemsAreClean(xs[1..]);
      if xs[0].Obj? {
        FilterObjectIsClean(xs[0].fields);
      }
    }
  }

  /** Every key that does not end in `_Localised` is kept, in its original
      order, and nothing else is kept. */
  lemma {:induction false} FilterKeepsKeys(fs: seq<Field>)
    ensures Keys(FilterObject(fs)) == NonLocalised(Keys(fs))
    decreases fs
  {
    if fs != [] {
      FilterKeepsKeys(fs[1..]);
      assert Keys(fs)[1..] == Keys(fs[1..]);
    }
  }

  /** Looking a key up in the filtered object gives the filtered value the
      key had, or nothing for a localised key. */
  lemma {:induction false} FilterLookup(fs: seq<Field>, k: string)
    ensures IsLocalised(k) ==> Lookup(FilterObject(fs), k) == None
    ensures !IsLocalised(k) ==>
              (Lookup(FilterObject(fs), k) ==
                 match Lookup(fs, k)
                 case None => None
                 case Some(v) => Some(FilterValue(v)))
    decreases fs
  {
    if fs != [] {
      FilterLookup(fs[1..], k);
    }
  }

  /** An object is left unchanged by the filter exactly when it is already
      clean. */
  lemma FilterFixpoint(fs: seq<Field>)
    ensures FilterObject(fs) == fs <==> CleanObject(fs)
  {
    if FilterObject(fs) == fs {
      FilterObjectIsClean(fs);
    }
    if CleanObject(fs) {
      CleanObjectUnchanged(fs);
    }
  }

  /** Filtering twice is filtering once. */
  lemma FilterIdempotent(fs: seq<Field>)
    ensures FilterObject(FilterObject(fs)) == FilterObject(fs)
  {
    FilterObjectIsClean(fs);
    CleanObjectUnchanged(FilterObject(fs));
  }

  lemma {:induction false} CleanObjectUnchanged(fs: seq<Field>)
    requires CleanObject(fs)
    ensures FilterObject(fs) == fs
    decreases fs
  {
    if fs != [] {
      CleanObjectUnchanged(fs[1..]);
      CleanValueUnchanged(fs[0].val);
      assert fs == [fs[0]] + fs[1..];
    }
  }

  lemma {:induction false} CleanValueUnchanged(v: Value)
    requires CleanValue(v)
    ensures FilterValue(v) == v
    decreases v
  {
    match v
    case Obj(fs) => CleanObjectUnchanged(fs);
    case List(xs) => CleanItemsUnchanged(xs);
    case _ =>
  }

  lemma {:induction false} CleanItemsUnchanged(xs: seq<Value>)
    requires forall i :: 0 <= i < |xs| ==> CleanItem(xs[i])
    ensures FilterItems(xs) == xs
    decreases xs
  {
    if xs != [] {
      CleanItemsUnchanged(xs[1..]);
      if xs[0].Obj? {
        CleanObjectUnchanged(xs[0].fields);
      }
      assert xs == [xs[0]] + xs[1..];
    }
  }
}
