/** `clean_config` (utils.py:21-29): strip empty fields from a configuration document.

    The functions give what the cleaned document is; the class `Document` and the
    methods `CleanConfig` and `CleanList` do it the way the source does, on a mutable
    table that is changed in place and handed back. */
module ConfigCleaning {
  import opened ConfigValues

  /** What an element of a list becomes (utils.py:26): a table is cleaned, anything
      else, a nested list or an empty string included, is kept as it is. */
  function CleanElement(e: Value): Value
    decreases e, 1
  {
    if e.Dict? then Dict(Clean(e.entries)) else e
  }

  /** The list built at utils.py:26. */
  function CleanItems(xs: seq<Value>): (ys: seq<Value>)
    ensures |ys| == |xs|
    decreases List(xs), 0
  {
    seq(|xs|, i requires 0 <= i < |xs| => CleanElement(xs[i]))
  }

  /** What `data[key]` holds once the two assignments of utils.py:23-26 have run. */
  function CleanValue(v: Value): Value
    decreases v, 1
  {
    match v
    case Dict(m) => Dict(Clean(m))
    case List(xs) => List(CleanItems(xs))
    case _ => v
  }

  /** Whether a key holding `v` survives: a list is never deleted (the `elif` is not
      reached), anything else is deleted when it is empty after its own cleaning. */
  predicate Keep(v: Value) {
    v.List? || !EmptyField(CleanValue(v))
  }

  /** The document `clean_config` leaves behind. */
  function Clean(d: Doc): (r: Doc)
    ensures r.Keys <= d.Keys
    decreases Dict(d), 0
  {
    map k | k in d && Keep(d[k]) :: CleanValue(d[k])
  }

  /** Membership in and lookup of the cleaned document, one key at a time. */
  lemma CleanAt(d: Doc, k: string)
    requires k in d
    ensures k in Clean(d) <==> Keep(d[k])
    ensures k in Clean(d) ==> Clean(d)[k] == CleanValue(d[k])
  {
  }

  /** Keys are cleaned one by one, independently of each other: setting one key of the
      input sets or removes that key alone in the output. */
  lemma CleanUpdate(d: Doc, k: string, v: Value)
    ensures Keep(v) ==> Clean(d[k := v]) == Clean(d)[k := CleanValue(v)]
    ensures !Keep(v) ==> Clean(d[k := v]) == Clean(d) - {k}
  {
  }

  /** A key whose value is a scalar is dropped exactly when `empty_field` holds of it,
      and keeps its exact value otherwise: booleans, non-blank strings, non-zero
      numbers and other scalars survive unchanged. */
  lemma CleanScalar(d: Doc, k: string)
    requires k in d && !d[k].List? && !d[k].Dict?
    ensures k in Clean(d) <==> !EmptyField(d[k])
    ensures k in Clean(d) ==> Clean(d)[k] == d[k]
    ensures d[k].Bool? ==> k in Clean(d)
  {
    CleanAt(d, k);
    assert CleanValue(d[k]) == d[k];
  }

  /** A key whose value is a list is never dropped, even when the list is empty; it
      holds a list of the same length whose tables are cleaned and whose other
      elements are untouched. */
  lemma CleanListValue(d: Doc, k: string)
    requires k in d && d[k].List?
    ensures k in Clean(d) && Clean(d)[k].List?
    ensures |Clean(d)[k].items| == |d[k].items|
    ensures forall i :: 0 <= i < |d[k].items| ==>
      Clean(d)[k].items[i] ==
        (if d[k].items[i].Dict? then Dict(Clean(d[k].items[i].entries)) else d[k].items[i])
  {
    CleanAt(d, k);
    forall i | 0 <= i < |d[k].items|
      ensures Clean(d)[k].items[i] == CleanElement(d[k].items[i])
    {
    }
  }

  /** A key whose value is a table holds the cleaned table, and is dropped exactly when
      that cleaned table is empty: an empty `{}` and a table all of whose keys were
      stripped both go. */
  lemma CleanDictValue(d: Doc, k: string)
    requires k in d && d[k].Dict?
    ensures k in Clean(d) <==> Clean(d[k].entries) != map[]
    ensures k in Clean(d) ==> Clean(d)[k] == Dict(Clean(d[k].entries))
  {
    CleanAt(d, k);
    var c := Clean(d[k].entries);
    assert CleanValue(d[k]) == Dict(c);
    if |c| == 0 {
      assert c == map[];
    }
  }

  // ---------------------------------------------------------------------------
  // Cleaned documents, and why cleaning twice is cleaning once

  /** A document that cleaning leaves alone: no key holds an empty scalar or an empty
      table, every table in it is itself clean, and so is every table inside a list. */
  predicate IsClean(d: Doc)
    decreases Dict(d), 0
  {
    forall k :: k in d ==> CleanEntry(d[k])
  }

  /** A value that may stay under a key of a clean document. */
  predicate CleanEntry(v: Value)
    decreases v, 1
  {
    match v
    case List(xs) => forall i :: 0 <= i < |xs| ==> CleanListElement(xs[i])
    case Dict(m) => |m| > 0 && IsClean(m)
    case _ => !EmptyField(v)
  }

  /** An element that may stay in a list of a clean document. */
  predicate CleanListElement(e: Value)
    decreases e, 1
  {
    e.Dict? ==> IsClean(e.entries)
  }

  lemma {:induction false} CleanElementIsClean(e: Value)
    ensures CleanListElement(CleanElement(e))
    decreases e, 1
  {
    if e.Dict? {
      CleanIsClean(e.entries);
    }
  }

  lemma {:induction false} CleanValueIsClean(v: Value)
    requires Keep(v)
    ensures CleanEntry(CleanValue(v))
    decreases v, 1
  {
    match v
    case Dict(m) =>
      CleanIsClean(m);
    case List(xs) =>
      forall i | 0 <= i < |xs|
        ensures CleanListElement(CleanItems(xs)[i])
      {
        CleanElementIsClean(xs[i]);
      }
    case _ =>
  }

  /** Every document `clean_config` returns is clean. */
  lemma {:induction false} CleanIsClean(d: Doc)
    ensures IsClean(Clean(d))
    decreases Dict(d), 0
  {
    forall k | k in Clean(d)
      ensures CleanEntry(Clean(d)[k])
    {
      CleanValueIsClean(d[k]);
    }
  }

  lemma {:induction false} CleanElementFixed(e: Value)
    requires CleanListElement(e)
    ensures CleanElement(e) == e
    decreases e, 1
  {
    if e.Dict? {
      CleanFixed(e.entries);
    }
  }

  lemma {:induction false} CleanValueFixed(v: Value)
    requires CleanEntry(v)
    ensures Keep(v) && CleanValue(v) == v
    decreases v, 1
  {
    match v
    case Dict(m) =>
      CleanFixed(m);
    case List(xs) =>
      forall i | 0 <= i < |xs|
        ensures CleanItems(xs)[i] == xs[i]
      {
        CleanElementFixed(xs[i]);
      }
    case _ =>
  }

  /** Cleaning a clean document changes nothing. */
  lemma {:induction false} CleanFixed(d: Doc)
    requires IsClean(d)
    ensures Clean(d) == d
    decreases Dict(d), 0
  {
    forall k | k in d
      ensures k in Clean(d) && Clean(d)[k] == d[k]
    {
      CleanValueFixed(d[k]);
    }
  }

  /** The documents `clean_config` leaves alone are exactly the clean ones. */
  lemma CleanFixedIff(d: Doc)
    ensures Clean(d) == d <==> IsClean(d)
  {
    CleanIsClean(d);
    if IsClean(d) {
      CleanFixed(d);
    }
  }

  /** `clean_config` is idempotent. */
  lemma CleanIdempotent(d: Doc)
    ensures Clean(Clean(d)) == Clean(d)
  {
    CleanIsClean(d);
    CleanFixed(Clean(d));
  }

  // ---------------------------------------------------------------------------
  // The source's form: a mutable table cleaned in place

  /** A Python `dict` that holds a configuration document and is changed in place. */
  class Document {
    var entries: Doc

    constructor (entries: Doc)
      ensures this.entries == entries
    {
      this.entries := entries;
    }
  }

  /** `clean_config(data)`: walks a copy of `data`'s items, assigns and deletes keys of
      `data` itself, and returns `data`. Tables below the top level are fresh copies,
      so only the top-level table the caller passed is changed. */
  method CleanConfig(data: Document) returns (r: Document)
    modifies data
    ensures r == data
    ensures data.entries == Clean(old(data.entries))
    decreases Dict(data.entries)
  {
    var snapshot := data.entries;  // deepcopy(data)
    var pending := snapshot.Keys;
    while pending != {}
      invariant pending <= snapshot.Keys
      invariant data.entries.Keys <= snapshot.Keys
      invariant forall k :: k in pending ==> k in data.entries && data.entries[k] == snapshot[k]
      invariant forall k :: k in snapshot && k !in pending ==>
        (k in data.entries <==> Keep(snapshot[k])) &&
        (k in data.entries ==> data.entries[k] == CleanValue(snapshot[k]))
      decreases pending
    {
      var key :| key in pending;
      var value := snapshot[key];
      if value.Dict? {
        var table := new Document(value.entries);
        table := CleanConfig(table);
        value := Dict(table.entries);
        data.entries := data.entries[key := value];
      }
      if value.List? {
        var items := CleanList(value.items);
        data.entries := data.entries[key := List(items)];
      } else if EmptyField(value) {
        data.entries := data.entries - {key};
      }
      pending := pending - {key};
    }
    forall k | k in snapshot
      ensures k in data.entries <==> k in Clean(snapshot)
      ensures k in data.entries ==> data.entries[k] == Clean(snapshot)[k]
    {
      CleanAt(snapshot, k);
    }
    r := data;
  }

  /** The list comprehension of utils.py:26: a new list whose tables are cleaned. */
  method CleanList(xs: seq<Value>) returns (ys: seq<Value>)
    ensures ys == CleanItems(xs)
    decreases List(xs)
  {
    ys := [];
    var i := 0;
    while i < |xs|
      invariant 0 <= i <= |xs|
      invariant ys == CleanItems(xs)[..i]
    {
      var element := xs[i];
      if element.Dict? {
        var table := new Document(element.entries);
        table := CleanConfig(table);
        element := Dict(table.entries);
      }
      ys := ys + [element];
      i := i + 1;
    }
  }
}
