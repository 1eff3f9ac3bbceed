/** The part table of a reader: the rows, and `partIdHash`, which leads from a key to a row. */
module PartRows {
  import opened Query
  import BrandTables

  /** `partIdHash` of the reader: each key with the position of its last row. */
  ghost predicate LastRows(parts: seq<Part>, hash: map<int, nat>) {
    && (forall key :: key in hash <==> exists i :: 0 <= i < |parts| && parts[i].key == key)
    && (forall key :: key in hash ==> hash[key] < |parts| && parts[hash[key]] == BrandTables.PartRow(parts, key))
  }

  /** The same after lookups of keys that have no row. */
  ghost predicate Indexes(parts: seq<Part>, hash: map<int, nat>) {
    && (forall i :: 0 <= i < |parts| ==> parts[i].key in hash)
    && (forall key :: key in hash ==>
          if HasRow(parts, key) then hash[key] < |parts| && parts[hash[key]] == BrandTables.PartRow(parts, key)
          else hash[key] == 0)
  }

  ghost predicate HasRow(parts: seq<Part>, key: int) {
    exists i :: 0 <= i < |parts| && parts[i].key == key
  }

  lemma LoadedIndex(parts: seq<Part>, hash: map<int, nat>)
    requires LastRows(parts, hash)
    ensures Indexes(parts, hash)
  {
  }

  lemma IndexNewRow(parts: seq<Part>, hash: map<int, nat>, part: Part)
    requires Indexes(parts, hash) && part.key !in hash
    ensures Indexes(parts + [part], hash[part.key := |parts|])
  {
    var more := parts + [part];
    forall key { RowMore(parts, part, key); }
    assert more[|parts|] == part && forall i :: 0 <= i < |parts| ==> more[i] == parts[i];
    forall key | key != part.key ensures HasRow(more, key) <==> HasRow(parts, key) {
      if HasRow(parts, key) {
        var i :| 0 <= i < |parts| && parts[i].key == key;
        assert more[i].key == key;
      }
    }
  }

  lemma RowMore(parts: seq<Part>, part: Part, key: int)
    ensures BrandTables.PartRow(parts + [part], key) == if part.key == key then part else BrandTables.PartRow(parts, key)
  {
    assert (parts + [part])[..|parts|] == parts;
  }

  lemma InsertRow(parts: seq<Part>, hash: map<int, nat>, part: Part)
    requires LastRows(parts, hash)
    ensures LastRows(parts + [part], hash[part.key := |parts|])
  {
    var more := parts + [part];
    forall key { RowMore(parts, part, key); }
    assert more[|parts|] == part && forall i :: 0 <= i < |parts| ==> more[i] == parts[i];
  }

  /** The insertion loop of `loadParts`: of several rows with one key the last is found. */
  method IndexParts(parts: seq<Part>) returns (hash: map<int, nat>)
    ensures LastRows(parts, hash)
    ensures forall key :: key in hash ==> hash[key] < |parts| && parts[hash[key]].key == key
    ensures forall key, j :: key in hash && hash[key] < j < |parts| ==> parts[j].key != key
  {
    hash := map[];
    for i := 0 to |parts|
      invariant LastRows(parts[..i], hash)
      invariant forall key :: key in hash ==> hash[key] < i && parts[hash[key]].key == key
      invariant forall key, j :: key in hash && hash[key] < j < i ==> parts[j].key != key
    {
      assert parts[..i + 1] == parts[..i] + [parts[i]];
      InsertRow(parts[..i], hash, parts[i]);
      hash := hash[parts[i].key := i];
    }
    assert parts[..|parts|] == parts;
  }
}
