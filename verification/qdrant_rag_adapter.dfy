/**
 * The retrieval adapter over a per-tenant vector collection: the collection
 * naming scheme, the access-control filter a search sends, the search limit,
 * the mapping of search hits to retrieval results, the points an indexing
 * request writes, the filter a document removal sends, and the
 * create-if-missing set-up of a collection.
 *
 * The vector store and the embedding service are not modelled: each client
 * request is recorded in the transcript `calls` of the class
 * `QdrantRagAdapter`, and what the store answers (whether a collection exists,
 * which points a search hits) is a parameter of the method concerned.
 * Vectors, scores and the score threshold are left out.
 */
module QdrantRagAdapter {
  import opened Wrappers
  import opened Rag

  const CollectionPrefix := "tenant_"

  /** Dimension of the vectors a new collection is created for. */
  const VectorSize := 1536

  /** The search limit used when the query gives none (or gives 0). */
  const DefaultLimit := 10

  /** The collection holding one tenant's chunks. */
  function CollectionName(tenantId: string): (name: string)
    ensures |name| == |CollectionPrefix| + |tenantId|
    ensures name[..|CollectionPrefix|] == CollectionPrefix
    ensures name[|CollectionPrefix|..] == tenantId
  {
    CollectionPrefix + tenantId
  }

  /** Distinct tenants never share a collection. */
  lemma CollectionNameInjective(a: string, b: string)
    requires CollectionName(a) == CollectionName(b)
    ensures a == b
  {
  }

  // ---------------------------------------------------------------------------
  // Payloads, points and filters
  // ---------------------------------------------------------------------------

  /** The payload fields the adapter filters on or indexes. */
  datatype FieldKey = DepartmentKey | TagsKey | DocumentVersionKey

  /** The two parts of a payload a field can live in. */
  datatype Section = AccessScopeSection | MetadataSection

  function SectionOf(k: FieldKey): Section {
    if k == DocumentVersionKey then MetadataSection else AccessScopeSection
  }

  /** The field's name inside its section. */
  function FieldName(k: FieldKey): string {
    match k
    case DepartmentKey => "department"
    case TagsKey => "tags"
    case DocumentVersionKey => "documentVersionId"
  }

  /** The payload path of each field, as the store's filters and indexes name it. */
  function KeyPath(k: FieldKey): string {
    (if SectionOf(k) == AccessScopeSection then "accessScope." else "metadata.") + FieldName(k)
  }

  /** Distinct fields have distinct paths, so a condition is fixed by its field. */
  lemma KeyPathInjective(a: FieldKey, b: FieldKey)
    requires KeyPath(a) == KeyPath(b)
    ensures a == b
  {
  }

  /** The order in which search clauses are emitted. */
  function Rank(k: FieldKey): nat {
    match k
    case DepartmentKey => 0
    case TagsKey => 1
    case DocumentVersionKey => 2
  }

  datatype Match = MatchAny(any: seq<string>) | MatchValue(value: string)

  datatype Condition = Condition(key: FieldKey, matching: Match)

  /** A filter whose `must` conditions all have to hold. */
  datatype Filter = Filter(must: seq<Condition>)

  datatype Payload = Payload(text: string, metadata: map<string, string>, accessScope: map<string, seq<string>>)

  /** A stored point (its vector is not modelled); search hits are points too. */
  datatype Point = Point(id: string, payload: Payload)

  /** One chunk of a document handed over for indexing. */
  datatype Chunk = Chunk(chunkId: string, text: string, metadata: map<string, string>,
                         accessScope: map<string, seq<string>>)

  datatype Distance = Cosine

  datatype FieldSchema = Keyword

  /** One request to the vector store; every request names its collection. */
  datatype ClientCall =
    | GetCollection(collection: string)
    | CreateCollection(collection: string, size: nat, distance: Distance)
    | CreatePayloadIndex(collection: string, field: FieldKey, schema: FieldSchema)
    | SearchPoints(collection: string, filter: Option<Filter>, limit: int)
    | UpsertPoints(collection: string, points: seq<Point>)
    | DeletePoints(collection: string, selector: Filter)
    | SetPayload(collection: string, pointIds: seq<string>, accessScope: map<string, seq<string>>)
    | DeleteCollection(collection: string)

  // ---------------------------------------------------------------------------
  // The search filter
  // ---------------------------------------------------------------------------

  /** The list a field is filtered by, if the query has one. */
  function ListFor(filters: Option<RagFilters>, k: FieldKey): Option<seq<string>> {
    if filters.None? then None
    else match k
      case DepartmentKey => filters.value.departments
      case TagsKey => filters.value.tags
      case DocumentVersionKey => filters.value.documentVersionIds
  }

  /** A present, non-empty list: only such a list restricts the search. */
  predicate NonEmpty(list: Option<seq<string>>) {
    list.Some? && |list.value| > 0
  }

  function ClauseFor(filters: Option<RagFilters>, k: FieldKey): seq<Condition> {
    if NonEmpty(ListFor(filters, k)) then [Condition(k, MatchAny(ListFor(filters, k).value))] else []
  }

  predicate HasClause(must: seq<Condition>, k: FieldKey) {
    exists i :: 0 <= i < |must| && must[i].key == k
  }

  /** The `must` clauses of a search, in emission order. */
  function MustClauses(filters: Option<RagFilters>): seq<Condition> {
    ClauseFor(filters, DepartmentKey) + ClauseFor(filters, TagsKey) + ClauseFor(filters, DocumentVersionKey)
  }

  /** At most one clause per field, departments first, then tags, then document versions. */
  lemma MustClausesOrdered(filters: Option<RagFilters>)
    ensures |MustClauses(filters)| <= 3
    ensures forall i, j :: 0 <= i < j < |MustClauses(filters)| ==>
      Rank(MustClauses(filters)[i].key) < Rank(MustClauses(filters)[j].key)
  {
  }

  /** A field has a clause exactly when the query gives it a non-empty list. */
  lemma {:induction false} MustClausesCover(filters: Option<RagFilters>)
    ensures forall k :: HasClause(MustClauses(filters), k) <==> NonEmpty(ListFor(filters, k))
  {
    var must := MustClauses(filters);
    var d, t := ClauseFor(filters, DepartmentKey), ClauseFor(filters, TagsKey);
    MustClausesMatchLists(filters);
    forall k | NonEmpty(ListFor(filters, k))
      ensures HasClause(must, k)
    {
      if k == DepartmentKey {
        assert must[0].key == k;
      } else if k == TagsKey {
        assert must[|d|].key == k;
      } else {
        assert must[|d| + |t|].key == k;
      }
    }
  }

  /** Each clause is a match-any over its field's list. */
  lemma MustClausesMatchLists(filters: Option<RagFilters>)
    ensures forall i :: 0 <= i < |MustClauses(filters)| ==>
      var c := MustClauses(filters)[i];
      NonEmpty(ListFor(filters, c.key)) && c.matching == MatchAny(ListFor(filters, c.key).value)
  {
  }

  /** The filter a search sends: absent (an unfiltered search) when no list restricts it. */
  function SearchFilter(filters: Option<RagFilters>): (r: Option<Filter>)
    ensures r.None? <==> forall k :: !NonEmpty(ListFor(filters, k))
    ensures r.Some? ==> r.value.must == MustClauses(filters)
  {
    var must := MustClauses(filters);
    MustClausesCover(filters);
    if |must| > 0 then
      assert HasClause(must, must[0].key);
      Some(Filter(must))
    else
      assert forall k :: !HasClause(must, k);
      None
  }

  /** The filter as the search builds it: an empty clause list extended in place. */
  method BuildFilter(filters: Option<RagFilters>) returns (filter: Option<Filter>)
    ensures filter == SearchFilter(filters)
  {
    var must: seq<Condition> := [];
    if filters.Some? && NonEmpty(filters.value.departments) {
      must := must + [Condition(DepartmentKey, MatchAny(filters.value.departments.value))];
    }
    if filters.Some? && NonEmpty(filters.value.tags) {
      must := must + [Condition(TagsKey, MatchAny(filters.value.tags.value))];
    }
    if filters.Some? && NonEmpty(filters.value.documentVersionIds) {
      must := must + [Condition(DocumentVersionKey, MatchAny(filters.value.documentVersionIds.value))];
    }
    assert must == MustClauses(filters);
    filter := if |must| > 0 then Some(Filter(must)) else None;
  }

  /** The number of hits asked for: the query's limit unless it is missing or 0. */
  function SearchLimit(limit: Option<int>): (r: int)
    ensures limit.None? || limit.value == 0 ==> r == DefaultLimit
    ensures limit.Some? && limit.value != 0 ==> r == limit.value
    ensures r != 0
  {
    if limit.None? || limit.value == 0 then DefaultLimit else limit.value
  }

  // ---------------------------------------------------------------------------
  // What a filter selects
  // ---------------------------------------------------------------------------

  /** The values a payload holds at a field; a missing field holds none. */
  function FieldValues(p: Payload, k: FieldKey): seq<string> {
    var name := FieldName(k);
    match SectionOf(k)
    case AccessScopeSection => if name in p.accessScope then p.accessScope[name] else []
    case MetadataSection => if name in p.metadata then [p.metadata[name]] else []
  }

  /** A match-any holds when some value of the field is listed; a match-value when the field holds the value. */
  predicate Holds(c: Condition, p: Payload) {
    match c.matching
    case MatchAny(xs) => exists v :: v in FieldValues(p, c.key) && v in xs
    case MatchValue(x) => x in FieldValues(p, c.key)
  }

  /** Whether a search or deletion with this filter selects a point with payload `p`. */
  predicate Admits(filter: Option<Filter>, p: Payload) {
    filter.None? || forall c :: c in filter.value.must ==> Holds(c, p)
  }

  /** The access rule a query states: each non-empty list must share a value with the chunk's field. */
  predicate AclAllows(filters: Option<RagFilters>, p: Payload) {
    forall k :: NonEmpty(ListFor(filters, k)) ==>
      exists v :: v in FieldValues(p, k) && v in ListFor(filters, k).value
  }

  /** The filter a search sends selects exactly the chunks the query's access rule allows. */
  lemma {:induction false} SearchFilterAdmits(filters: Option<RagFilters>, p: Payload)
    ensures Admits(SearchFilter(filters), p) <==> AclAllows(filters, p)
  {
    var filter := SearchFilter(filters);
    if filter.Some? {
      var must := MustClauses(filters);
      MustClausesCover(filters);
      MustClausesMatchLists(filters);
      if Admits(filter, p) {
        forall k | NonEmpty(ListFor(filters, k))
          ensures exists v :: v in FieldValues(p, k) && v in ListFor(filters, k).value
        {
          assert HasClause(must, k);
          var i :| 0 <= i < |must| && must[i].key == k;
          assert Holds(must[i], p);
        }
      }
      if AclAllows(filters, p) {
        forall c | c in must
          ensures Holds(c, p)
        {
          var i :| 0 <= i < |must| && must[i] == c;
          assert NonEmpty(ListFor(filters, c.key));
        }
      }
    }
  }

  /** The selector of a document removal: one equality match on the version id in the metadata. */
  function RemoveFilter(documentVersionId: string): (f: Filter)
    ensures |f.must| == 1 && f.must[0].key == DocumentVersionKey
  {
    Filter([Condition(DocumentVersionKey, MatchValue(documentVersionId))])
  }

  /** A removal selects exactly the points whose metadata names that document version. */
  lemma {:induction false} RemoveFilterSelects(documentVersionId: string, p: Payload)
    ensures Admits(Some(RemoveFilter(documentVersionId)), p) <==>
      "documentVersionId" in p.metadata && p.metadata["documentVersionId"] == documentVersionId
  {
    var c := RemoveFilter(documentVersionId).must[0];
    assert Admits(Some(RemoveFilter(documentVersionId)), p) <==> Holds(c, p);
  }

  // ---------------------------------------------------------------------------
  // Results and points
  // ---------------------------------------------------------------------------

  function MetadataField(metadata: map<string, string>, key: string): Option<string> {
    if key in metadata then Some(metadata[key]) else None
  }

  /** The retrieval result for one search hit. */
  function ToResult(hit: Point): (r: RagResult)
    ensures r.chunkId == hit.id && r.text == hit.payload.text
    ensures r.metadata == hit.payload.metadata && r.accessScope == hit.payload.accessScope
    ensures r.documentId == MetadataField(hit.payload.metadata, "documentId")
    ensures r.documentVersionId == MetadataField(hit.payload.metadata, "documentVersionId")
  {
    RagResult(MetadataField(hit.payload.metadata, "documentId"),
              MetadataField(hit.payload.metadata, "documentVersionId"),
              hit.id, hit.payload.text, hit.payload.metadata, hit.payload.accessScope)
  }

  /** The hits converted one by one: same length, same order. */
  function ToResults(hits: seq<Point>): (r: seq<RagResult>)
    ensures |r| == |hits|
    ensures forall i :: 0 <= i < |hits| ==> r[i] == ToResult(hits[i])
  {
    if hits == [] then [] else [ToResult(hits[0])] + ToResults(hits[1..])
  }

  /** The point written for one chunk: its id is the chunk id, its payload the chunk's text, metadata and scope. */
  function PointOf(chunk: Chunk): Point {
    Point(chunk.chunkId, Payload(chunk.text, chunk.metadata, chunk.accessScope))
  }

  /** One point per chunk, in chunk order. */
  function PointsOf(chunks: seq<Chunk>): (points: seq<Point>)
    ensures |points| == |chunks|
    ensures forall i :: 0 <= i < |chunks| ==> points[i] == PointOf(chunks[i])
  {
    if chunks == [] then [] else [PointOf(chunks[0])] + PointsOf(chunks[1..])
  }

  /** Indexed chunks that a search hits come back with their own id, text, metadata and scope. */
  lemma IndexedChunksComeBack(chunks: seq<Chunk>)
    ensures |ToResults(PointsOf(chunks))| == |chunks|
    ensures forall i :: 0 <= i < |chunks| ==>
      var r := ToResults(PointsOf(chunks))[i];
      r.chunkId == chunks[i].chunkId && r.text == chunks[i].text &&
      r.metadata == chunks[i].metadata && r.accessScope == chunks[i].accessScope &&
      r.documentVersionId == MetadataField(chunks[i].metadata, "documentVersionId")
  {
  }

  /**
   * An indexed chunk is removed with a document version exactly when its own
   * metadata names that version: indexing does not stamp the version it is
   * given into the points.
   */
  lemma {:induction false} RemovalReachesIndexedChunk(documentVersionId: string, chunks: seq<Chunk>, i: nat)
    requires i < |chunks|
    ensures Admits(Some(RemoveFilter(documentVersionId)), PointsOf(chunks)[i].payload) <==>
      MetadataField(chunks[i].metadata, "documentVersionId") == Some(documentVersionId)
  {
    RemoveFilterSelects(documentVersionId, PointsOf(chunks)[i].payload);
  }

  // ---------------------------------------------------------------------------
  // Collection set-up
  // ---------------------------------------------------------------------------

  /**
   * The requests of a collection check: a lookup and, only when the lookup
   * fails, the creation of a cosine collection of VectorSize dimensions and
   * keyword indexes on the department and tags fields.
   */
  function EnsureCalls(name: string, found: bool): (r: seq<ClientCall>)
    ensures |r| > 0 && r[0] == GetCollection(name)
    ensures found <==> |r| == 1
    ensures !found ==> r[1..] == [CreateCollection(name, VectorSize, Cosine),
                                 CreatePayloadIndex(name, DepartmentKey, Keyword),
                                 CreatePayloadIndex(name, TagsKey, Keyword)]
    ensures forall c :: c in r ==> c.collection == name
  {
    [GetCollection(name)] +
    if found then []
    else [CreateCollection(name, VectorSize, Cosine),
          CreatePayloadIndex(name, DepartmentKey, Keyword),
          CreatePayloadIndex(name, TagsKey, Keyword)]
  }

  // ---------------------------------------------------------------------------
  // The adapter
  // ---------------------------------------------------------------------------

  class QdrantRagAdapter {
    /** Every request sent to the vector store, in order. */
    var calls: seq<ClientCall>

    constructor ()
      ensures calls == []
    {
      calls := [];
    }

    method Send(c: ClientCall)
      modifies this
      ensures calls == old(calls) + [c]
    {
      calls := calls + [c];
    }

    /** `found` says whether the store answered the lookup; any failure of it counts as missing. */
    method EnsureCollection(tenantId: string, found: bool)
      modifies this
      ensures calls == old(calls) + EnsureCalls(CollectionName(tenantId), found)
    {
      var name := CollectionName(tenantId);
      Send(GetCollection(name));
      if !found {
        Send(CreateCollection(name, VectorSize, Cosine));
        Send(CreatePayloadIndex(name, DepartmentKey, Keyword));
        Send(CreatePayloadIndex(name, TagsKey, Keyword));
      }
    }

    /** `hits` are the points the store returns for the request. */
    method Search(tenantId: string, query: RagQuery, hits: seq<Point>) returns (results: seq<RagResult>)
      modifies this
      ensures calls == old(calls) + [SearchPoints(CollectionName(tenantId), SearchFilter(query.filters),
                                                  SearchLimit(query.limit))]
      ensures results == ToResults(hits)
    {
      var filter := BuildFilter(query.filters);
      Send(SearchPoints(CollectionName(tenantId), filter, SearchLimit(query.limit)));
      results := ToResults(hits);
    }

    /** `found` is the answer to the collection lookup made first. */
    method IndexDocument(tenantId: string, documentVersionId: string, chunks: seq<Chunk>, found: bool)
      modifies this
      ensures calls == old(calls) + EnsureCalls(CollectionName(tenantId), found) +
                       [UpsertPoints(CollectionName(tenantId), PointsOf(chunks))]
    {
      EnsureCollection(tenantId, found);
      Send(UpsertPoints(CollectionName(tenantId), PointsOf(chunks)));
    }

    method RemoveDocument(tenantId: string, documentVersionId: string)
      modifies this
      ensures calls == old(calls) + [DeletePoints(CollectionName(tenantId), RemoveFilter(documentVersionId))]
    {
      Send(DeletePoints(CollectionName(tenantId), RemoveFilter(documentVersionId)));
    }

    /** Replaces the access scope of one point; the document version is not consulted. */
    method UpdateChunkAccessScope(tenantId: string, documentVersionId: string, chunkId: string,
                                  accessScope: map<string, seq<string>>)
      modifies this
      ensures calls == old(calls) + [SetPayload(CollectionName(tenantId), [chunkId], accessScope)]
    {
      Send(SetPayload(CollectionName(tenantId), [chunkId], accessScope));
    }

    method DeleteCollection(tenantId: string)
      modifies this
      ensures calls == old(calls) + [ClientCall.DeleteCollection(CollectionName(tenantId))]
    {
      Send(ClientCall.DeleteCollection(CollectionName(tenantId)));
    }
  }
}
