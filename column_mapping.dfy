/**
 * Resolution of the ColumnMapping build parameter into the column mappings
 * added to the batch inserter, one entry at a time, in input order.
 */
module ColumnMappingResolver {
  import opened Wrappers
  import opened EtlModel

  /** An entry carries both required fields, Column and Mapping. */
  predicate IsComplete(e: MappingEntry) {
    ColumnKey in e && MappingKey in e
  }

  /** Optional lookup of a field: absent reads as None. */
  function Lookup(e: MappingEntry, key: string): Option<string> {
    if key in e then Some(e[key]) else None
  }

  /** The column mapping a complete entry describes; DataTypeName passes through as found. */
  function ToMapping(e: MappingEntry): ColumnMapping
    requires IsComplete(e)
  {
    ColumnMapping(e[ColumnKey], e[MappingKey], Lookup(e, DataTypeNameKey))
  }

  /** The error raised for an incomplete entry: Column is required before Mapping. */
  function EntryError(e: MappingEntry): LoadError
    requires !IsComplete(e)
  {
    if ColumnKey !in e then MissingMappingField(ColumnKey) else MissingMappingField(MappingKey)
  }

  /** The entries of an optional ColumnMapping parameter; an absent parameter has none. */
  function EntriesOf(columnMapping: Option<seq<MappingEntry>>): seq<MappingEntry> {
    match columnMapping
    case None => []
    case Some(entries) => entries
  }

  /** The mappings added before resolution stopped, and the error that stopped it, if any. */
  datatype Resolution = Resolution(added: seq<ColumnMapping>, error: Option<LoadError>)

  /**
   * Resolves entries front to back. The mappings added are exactly those of the
   * leading complete entries, in order, none dropped or merged; resolution
   * stops at the first incomplete entry, with that entry's error.
   */
  function Resolve(entries: seq<MappingEntry>): (r: Resolution)
    ensures |r.added| <= |entries|
    ensures forall i :: 0 <= i < |r.added| ==> IsComplete(entries[i]) && r.added[i] == ToMapping(entries[i])
    ensures r.error.None? ==> |r.added| == |entries|
    ensures r.error.Some? ==>
      |r.added| < |entries| && !IsComplete(entries[|r.added|]) && r.error.value == EntryError(entries[|r.added|])
    ensures r.error.None? <==> forall i :: 0 <= i < |entries| ==> IsComplete(entries[i])
  {
    if entries == [] then Resolution([], None)
    else if !IsComplete(entries[0]) then Resolution([], Some(EntryError(entries[0])))
    else
      var rest := Resolve(entries[1..]);
      Resolution([ToMapping(entries[0])] + rest.added, rest.error)
  }

  /**
   * The resolution is pinned down by its first incomplete entry: whoever adds
   * the mappings of the first k complete entries and stops at k (the end or an
   * incomplete entry) has computed Resolve.
   */
  lemma ResolveStopsAtFirstIncomplete(entries: seq<MappingEntry>, added: seq<ColumnMapping>)
    requires |added| <= |entries|
    requires forall j :: 0 <= j < |added| ==> IsComplete(entries[j]) && added[j] == ToMapping(entries[j])
    requires |added| < |entries| ==> !IsComplete(entries[|added|])
    ensures Resolve(entries).added == added
    ensures Resolve(entries).error == if |added| == |entries| then None else Some(EntryError(entries[|added|]))
  {
    var r := Resolve(entries);
    assert |r.added| == |added|;
  }

  /** Duplicate target columns are neither rejected, merged nor reordered. */
  lemma DuplicateColumnsPassThrough(e1: MappingEntry, e2: MappingEntry)
    requires IsComplete(e1) && IsComplete(e2) && e1[ColumnKey] == e2[ColumnKey]
    ensures Resolve([e1, e2]) == Resolution([ToMapping(e1), ToMapping(e2)], None)
  {
    var r := Resolve([e1, e2]);
    assert |r.added| == 2;
  }
}
