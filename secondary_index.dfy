/**
 * Secondary-index descriptors: value objects that parametrise an index query. A global secondary
 * index may omit its sort value; a local secondary index always has one.
 */
module SecondaryIndexes {
  import opened Wrappers

  /** The `SecondaryIndex` interface as the repository reads it. */
  datatype SecondaryIndex<PK, SK> = SecondaryIndex(indexName: string, pk: PK, sk: Option<SK>)

  /** `GSI(indexName, pk, sk = null)`. */
  datatype GSI<PK, SK> = GSI(indexName: string, pk: PK, sk: Option<SK> := None) {
    /** The interface view: every property is exposed unchanged. */
    function AsSecondaryIndex(): (r: SecondaryIndex<PK, SK>)
      ensures r.indexName == indexName && r.pk == pk && r.sk == sk
    {
      SecondaryIndex(indexName, pk, sk)
    }
  }

  /** `LSI(indexName, pk, sk)`. */
  datatype LSI<PK, SK> = LSI(indexName: string, pk: PK, sk: SK) {
    /** The interface view: an LSI always exposes a sort value. */
    function AsSecondaryIndex(): (r: SecondaryIndex<PK, SK>)
      ensures r.indexName == indexName && r.pk == pk && r.sk == Some(sk)
    {
      SecondaryIndex(indexName, pk, Some(sk))
    }
  }

  /** `GSI.withoutSk(indexName, pk)`: a GSI with no sort value. */
  function WithoutSk<PK, SK>(indexName: string, pk: PK): (g: GSI<PK, SK>)
    ensures g == GSI(indexName, pk)
    ensures g.AsSecondaryIndex().sk == None
  {
    GSI(indexName, pk, None)
  }
}
