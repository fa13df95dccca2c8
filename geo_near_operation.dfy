/**
 * The `$geoNear` aggregation stage builder, `GeoNearOperation`: an
 * immutable value holding a near-query, the name of the output field that
 * receives the computed distance, and an optional geospatial index key.
 * It serialises to MongoDB's `$geoNear` pipeline stage,
 * `{ "$geoNear": { <mapped near-query fields>, "distanceField": ..., ["key": ...] } }`.
 */
module GeoNear {
  import opened Wrappers
  import opened StringUtils
  import opened Bson

  /**
   * A near-query, represented by the document its own serialisation
   * (`NearQuery.toDBObject`) yields; how that document is computed is not
   * part of this model.
   */
  datatype NearQuery = NearQuery(document: Document)

  /**
   * The field-name translation of an aggregation-operation context
   * (`AggregationOperationContext.getMappedObject`), taken as given.
   */
  type AggregationContext = Document -> Document

  /** The `IllegalArgumentException` thrown by Spring's `Assert`. */
  datatype Error = IllegalArgument(message: string)

  const NearQueryNullMessage := "NearQuery must not be null."
  const DistanceFieldEmptyMessage := "Distance field must not be null or empty."

  /** Field names of the stage document. */
  const GeoNearOperator := "$geoNear"
  const DistanceFieldName := "distanceField"
  const IndexKeyName := "key"

  datatype GeoNearOperation = GeoNearOperation(nearQuery: NearQuery, distanceField: string, indexKey: Option<string>)
  {
    /** What construction guarantees of every instance: a non-empty distance field. */
    predicate Valid() {
      |distanceField| > 0
    }

    /**
     * `useIndex`: a new operation with the same near-query and distance
     * field and the given index key, built through the validating
     * constructor; the receiver, a value, is left as it was.
     */
    function UseIndex(key: Option<string>): (r: Result<GeoNearOperation, Error>)
      ensures r.Success? <==> Valid()
      ensures r.Success? ==> r.value.Valid()
      ensures r.Success? ==> r.value.nearQuery == nearQuery && r.value.distanceField == distanceField
      ensures r.Success? ==> r.value.indexKey == key
    {
      Create(Some(nearQuery), Some(distanceField), key)
    }
  }

  /**
   * The three-argument constructor: rejects a null near-query first, then
   * a null or empty distance field; any index key, null included, is kept.
   */
  function Create(nearQuery: Option<NearQuery>, distanceField: Option<string>, indexKey: Option<string>)
    : (r: Result<GeoNearOperation, Error>)
    ensures r.Success? <==> nearQuery.Some? && HasLength(distanceField)
    ensures nearQuery.None? ==> r == Failure(IllegalArgument(NearQueryNullMessage))
    ensures nearQuery.Some? && !HasLength(distanceField) ==> r == Failure(IllegalArgument(DistanceFieldEmptyMessage))
    ensures r.Success? ==> r.value.Valid()
    ensures r.Success? ==> r.value == GeoNearOperation(nearQuery.value, distanceField.value, indexKey)
  {
    if nearQuery.None? then
      Failure(IllegalArgument(NearQueryNullMessage))
    else if !HasLength(distanceField) then
      Failure(IllegalArgument(DistanceFieldEmptyMessage))
    else
      Success(GeoNearOperation(nearQuery.value, distanceField.value, indexKey))
  }

  /** The public two-argument constructor: the same checks, and no index key. */
  function New(nearQuery: Option<NearQuery>, distanceField: Option<string>): (r: Result<GeoNearOperation, Error>)
    ensures r.Success? <==> nearQuery.Some? && HasLength(distanceField)
    ensures r.Failure? ==> r == Create(nearQuery, distanceField, None)
    ensures r.Success? ==> r.value.Valid() && r.value.indexKey.None?
    ensures r.Success? ==> r.value.nearQuery == nearQuery.value && r.value.distanceField == distanceField.value
  {
    Create(nearQuery, distanceField, None)
  }

  /**
   * What `toDBObject` promises of the inner command document, given the
   * mapped near-query document: the distance field replaces any entry of
   * that name, the index key is written exactly when it has text (otherwise
   * the mapped document's `key` entry, or its absence, stays), and every
   * other entry is carried over unchanged.
   */
  predicate IsGeoNearCommand(op: GeoNearOperation, mapped: Document, command: Document) {
    && DistanceFieldName in command
    && command[DistanceFieldName] == Str(op.distanceField)
    && (if HasText(op.indexKey) then IndexKeyName in command && command[IndexKeyName] == Str(op.indexKey.value)
        else SameEntry(mapped, command, IndexKeyName))
    && command - {DistanceFieldName, IndexKeyName} == mapped - {DistanceFieldName, IndexKeyName}
  }

  /** The stage document: a single entry `$geoNear` holding the command. */
  predicate IsGeoNearStage(op: GeoNearOperation, mapped: Document, stage: Document) {
    && stage.Keys == {GeoNearOperator}
    && stage[GeoNearOperator].Doc?
    && IsGeoNearCommand(op, mapped, stage[GeoNearOperator].fields)
  }

  /**
   * `toDBObject`: maps the near-query's document through the context, puts
   * the distance field, puts the index key when it has text, and wraps the
   * command under `$geoNear`.
   */
  method ToDBObject(op: GeoNearOperation, context: AggregationContext) returns (stage: Document)
    ensures IsGeoNearStage(op, context(op.nearQuery.document), stage)
  {
    var command := context(op.nearQuery.document);
    command := command[DistanceFieldName := Str(op.distanceField)];
    if HasText(op.indexKey) {
      command := command[IndexKeyName := Str(op.indexKey.value)];
    }
    stage := map[GeoNearOperator := Doc(command)];
  }

  /** The command is fully determined by the operation and the mapped document. */
  lemma GeoNearCommandUnique(op: GeoNearOperation, mapped: Document, c1: Document, c2: Document)
    requires IsGeoNearCommand(op, mapped, c1) && IsGeoNearCommand(op, mapped, c2)
    ensures c1 == c2
  {
    var fixed := {DistanceFieldName, IndexKeyName};
    forall k | k in c1
      ensures k in c2 && c1[k] == c2[k]
    {
      if k !in fixed {
        assert k in c1 - fixed;
        assert (c1 - fixed)[k] == (c2 - fixed)[k];
      }
    }
    forall k | k in c2
      ensures k in c1
    {
      if k !in fixed {
        assert k in c2 - fixed;
      }
    }
  }

  /** So is the whole stage document: the contract of `ToDBObject` leaves no freedom. */
  lemma GeoNearStageUnique(op: GeoNearOperation, mapped: Document, s1: Document, s2: Document)
    requires IsGeoNearStage(op, mapped, s1) && IsGeoNearStage(op, mapped, s2)
    ensures s1 == s2
  {
    GeoNearCommandUnique(op, mapped, s1[GeoNearOperator].fields, s2[GeoNearOperator].fields);
  }

  /** The keys of the command: those of the mapped document plus the ones written. */
  lemma GeoNearCommandKeys(op: GeoNearOperation, mapped: Document, command: Document)
    requires IsGeoNearCommand(op, mapped, command)
    ensures command.Keys == mapped.Keys + {DistanceFieldName} + (if HasText(op.indexKey) then {IndexKeyName} else {})
  {
    var fixed := {DistanceFieldName, IndexKeyName};
    forall k | k !in fixed
      ensures k in command <==> k in mapped
    {
      assert k in command <==> k in command - fixed;
      assert k in mapped <==> k in mapped - fixed;
    }
  }

  /**
   * An operation built by the two-argument constructor writes no index key:
   * its command has a `key` entry only if the mapped near-query had one.
   */
  lemma NewOmitsIndexKey(nearQuery: Option<NearQuery>, distanceField: Option<string>, mapped: Document, stage: Document)
    requires New(nearQuery, distanceField).Success?
    requires IsGeoNearStage(New(nearQuery, distanceField).value, mapped, stage)
    ensures IndexKeyName in stage[GeoNearOperator].fields <==> IndexKeyName in mapped
    ensures stage[GeoNearOperator].fields[DistanceFieldName] == Str(distanceField.value)
  {
  }

  /** After `useIndex` with a key that has text, the stage names that index. */
  lemma UseIndexWritesKey(op: GeoNearOperation, key: Option<string>, mapped: Document, stage: Document)
    requires op.Valid() && HasText(key)
    requires IsGeoNearStage(op.UseIndex(key).value, mapped, stage)
    ensures stage[GeoNearOperator].fields[IndexKeyName] == Str(key.value)
    ensures stage[GeoNearOperator].fields[DistanceFieldName] == Str(op.distanceField)
  {
  }

  /** A whitespace-only index key is ignored, as though `useIndex` had not been called. */
  lemma BlankIndexKeyIgnored(op: GeoNearOperation, key: string, mapped: Document, stage: Document)
    requires op.Valid()
    requires forall i :: 0 <= i < |key| ==> IsWhitespace(key[i])
    requires IsGeoNearStage(op.UseIndex(Some(key)).value, mapped, stage)
    ensures IsGeoNearStage(op.UseIndex(None).value, mapped, stage)
  {
    BlankHasNoText(key);
  }

  /** Only the last `useIndex` matters. */
  lemma UseIndexLastWins(op: GeoNearOperation, k1: Option<string>, k2: Option<string>)
    requires op.Valid()
    ensures op.UseIndex(k1).value.UseIndex(k2) == op.UseIndex(k2)
  {
  }

  /** `useIndex` on a constructed operation is the constructor given that key. */
  lemma UseIndexOfCreate(nearQuery: Option<NearQuery>, distanceField: Option<string>, k0: Option<string>, k: Option<string>)
    requires Create(nearQuery, distanceField, k0).Success?
    ensures Create(nearQuery, distanceField, k0).value.UseIndex(k) == Create(nearQuery, distanceField, k)
  {
  }
}
