/**
 * Properties relating several operations of the adapter: the names cache,
 * the record the constructor keeps, and what string-id processing would and
 * would not change.
 */
module SourceProperties {
  import opened Optional
  import opened SourceProto
  import opened AndroidResources
  import opened Render
  import opened ProtobufAstronomicalSource

  /** The cache holds, if anything, the names the stored record's ids give. */
  ghost predicate CacheConsistent(s: Source)
  {
    s.names.Some? ==> s.names.value == LookUpNames(s.resources, s.proto.nameIntIds)
  }

  /** A second `getNames` returns the identical list and changes nothing. */
  lemma GetNamesIdempotent(s: Source)
    ensures GetNames(GetNames(s).1) == GetNames(s)
  {
  }

  /** A freshly built adapter is consistent, `getNames` keeps it so, and on a
      consistent adapter every call returns the looked-up names. */
  lemma GetNamesKeepsCacheConsistent(s: Source)
    requires CacheConsistent(s)
    ensures GetNames(s).0 == LookUpNames(s.resources, s.proto.nameIntIds)
    ensures CacheConsistent(GetNames(s).1)
    ensures GetNames(s).1.proto == s.proto && GetNames(s).1.resources == s.resources
  {
  }

  lemma NewIsCacheConsistent(proto: AstronomicalSourceProto, resources: Resources)
    ensures CacheConsistent(New(proto, resources))
  {
  }

  /** Any number of `getNames` calls on a new adapter return the same list:
      one name per integer name id of the unprocessed record. */
  lemma {:induction false} RepeatedGetNames(proto: AstronomicalSourceProto, resources: Resources, n: nat)
    ensures CallGetNames(New(proto, resources), n).names
            == if n == 0 then None else Some(LookUpNames(resources, proto.nameIntIds))
    ensures CallGetNames(New(proto, resources), n).proto == proto
  {
    if n > 0 {
      RepeatedGetNames(proto, resources, n - 1);
    }
  }

  /** The adapter after `n` calls of `getNames`. */
  function CallGetNames(s: Source, n: nat): (after: Source)
  {
    if n == 0 then s else GetNames(CallGetNames(s, n - 1)).1
  }

  /** Because the constructor drops the processed record, an adapter's names
      come only from the record's integer name ids: a record that carries its
      names as textual ids alone yields no names at all. */
  lemma TextOnlyNamesYieldNoNames(proto: AstronomicalSourceProto, resources: Resources)
    requires proto.nameIntIds == []
    ensures GetNames(New(proto, resources)).0 == []
  {
  }

  /** Had the processed record been kept, each textual name id would have
      added one missing-label name after the names of the integer ids. */
  lemma ProcessedRecordAddsMissingNames(proto: AstronomicalSourceProto, resources: Resources)
    ensures GetNames(Source(ProcessStringIds(proto), resources, None)).0
            == GetNames(New(proto, resources)).0
               + seq(|proto.nameStrIds|, _ => resources.getString(MissingLabel))
  {
  }

  /** Processing the string ids never changes what is drawn or where a search
      points: only the names differ between the kept and the processed record. */
  lemma ProcessingLeavesPrimitivesUnchanged(
    proto: AstronomicalSourceProto, resources: Resources, instance: CoordinatesFactory)
    ensures var kept := New(proto, resources);
            var processed := Source(ProcessStringIds(proto), resources, None);
            && GetPoints(processed, instance) == GetPoints(kept, instance)
            && GetLabels(processed, instance) == GetLabels(kept, instance)
            && GetLines(processed, instance) == GetLines(kept, instance)
            && GetSearchLocation(processed, instance) == GetSearchLocation(kept, instance)
  {
  }

  /** Two label elements that differ only in their ids render identically. */
  lemma LabelTextIgnoresIds(
    e: LabelElementProto, strId: string, intId: int, resources: Resources, instance: CoordinatesFactory)
    ensures ToTexts([e], resources, instance)
            == ToTexts([e.(stringsStrId := strId, stringsIntId := intId)], resources, instance)
  {
  }

  /** The line conversion preserves concatenation: line elements and line
      sources come in the same order. */
  lemma ToLinesAppend(a: seq<LineElementProto>, b: seq<LineElementProto>, instance: CoordinatesFactory)
    ensures ToLines(a + b, instance) == ToLines(a, instance) + ToLines(b, instance)
  {
  }
}
