/**
 * The cross-table repository (`NoSQLEnhancedRepository` / `DynamoDBEnhancedRepository`): one
 * transactional write of items of any entity class, and one batch read over several entity classes.
 */
module EnhancedRepository {
  import opened Wrappers
  import opened Platform
  import opened DynamoDBExtensions
  import opened Repository

  /** `PrimaryKey(pk, sk?)`: one item to read in a batch. */
  datatype PrimaryKey = PrimaryKey(pk: KeyValue, sk: Option<KeyValue>)

  /** `BatchResource(tableEntity, primaryKeys)`: the items to read from one entity class. */
  datatype BatchResource = BatchResource(tableEntity: EntityClass, primaryKeys: seq<PrimaryKey>)

  /** `BatchResponse(items)`: what one resource read. */
  datatype BatchResponse<T> = BatchResponse(items: seq<T>)

  /** The physical table of an entity class under `suffix`. */
  function TableOf(c: EntityClass, suffix: string): string {
    PhysicalTableName(c.tableName, suffix)
  }

  /** The puts of one transaction: each item goes to the physical table of its own class, in list order. */
  function PutsFor<T>(items: seq<T>, classOf: T -> EntityClass, suffix: string): (r: seq<TransactPut<T>>)
    ensures |r| == |items|
    ensures forall i :: 0 <= i < |items| ==> r[i] == TransactPut(TableOf(classOf(items[i]), suffix), items[i])
  {
    if items == [] then []
    else PutsFor(items[..|items| - 1], classOf, suffix) + [TransactPut(TableOf(classOf(items[|items| - 1]), suffix), items[|items| - 1])]
  }

  /** The transaction carries exactly the given items, each once: nothing is dropped, added or reordered. */
  lemma PutsForItems<T>(items: seq<T>, classOf: T -> EntityClass, suffix: string)
    ensures forall p :: p in PutsFor(items, classOf, suffix) ==> p.item in items && p.tableName == TableOf(classOf(p.item), suffix)
    ensures forall i :: 0 <= i < |items| ==> PutsFor(items, classOf, suffix)[i].item == items[i]
  {
    var r := PutsFor(items, classOf, suffix);
    forall p | p in r
      ensures p.item in items && p.tableName == TableOf(classOf(p.item), suffix)
    {
      var i :| 0 <= i < |r| && r[i] == p;
    }
  }

  /** An item of a class bound to `test_table` is written to `test_table_suffix` under suffix `suffix`. */
  lemma TestTableSuffix(c: EntityClass)
    requires c.tableName == "test_table"
    ensures TableOf(c, "suffix") == "test_table_suffix"
  {
  }

  /** An empty item list gives a transaction with no puts. */
  lemma EmptyTransaction<T>(classOf: T -> EntityClass, suffix: string)
    ensures PutsFor([], classOf, suffix) == []
  {
  }

  /** The keys of a resource, built in list order; the first unsupported key value aborts the whole batch. */
  function KeysFor(keys: seq<PrimaryKey>): (r: Result<seq<Key>, KeyError>)
    ensures r.Success? <==> forall i :: 0 <= i < |keys| ==> KeyOf(keys[i].pk, keys[i].sk).Success?
    ensures r.Success? ==> |r.value| == |keys|
    ensures r.Success? ==> forall i :: 0 <= i < |keys| ==> r.value[i] == KeyOf(keys[i].pk, keys[i].sk).value
  {
    if keys == [] then Success([])
    else
      var init :- KeysFor(keys[..|keys| - 1]);
      var last := keys[|keys| - 1];
      var key :- KeyOf(last.pk, last.sk);
      Success(init + [key])
  }

  /** `ReadBatch.builder(tableEntity).mappedTableResource(table)` plus one `addGetItem` per key. */
  function ReadBatchFor(resource: BatchResource, suffix: string): (r: Result<ReadBatch, KeyError>)
    ensures r.Success? <==> KeysFor(resource.primaryKeys).Success?
    ensures r.Success? ==> r.value.entityClass == resource.tableEntity
    ensures r.Success? ==> r.value.tableName == TableOf(resource.tableEntity, suffix)
    ensures r.Success? ==> r.value.gets == KeysFor(resource.primaryKeys).value
  {
    var gets :- KeysFor(resource.primaryKeys);
    Success(ReadBatch(resource.tableEntity, TableOf(resource.tableEntity, suffix), gets))
  }

  /** `resources.map { ... readBatchBuilder.build() }`: one read batch per resource, in order. */
  function ReadBatchesFor(resources: seq<BatchResource>, suffix: string): (r: Result<seq<ReadBatch>, KeyError>)
    ensures r.Success? <==> forall i :: 0 <= i < |resources| ==> ReadBatchFor(resources[i], suffix).Success?
    ensures r.Success? ==> |r.value| == |resources|
    ensures r.Success? ==> forall i :: 0 <= i < |resources| ==> r.value[i] == ReadBatchFor(resources[i], suffix).value
  {
    if resources == [] then Success([])
    else
      var init :- ReadBatchesFor(resources[..|resources| - 1], suffix);
      var batch :- ReadBatchFor(resources[|resources| - 1], suffix);
      Success(init + [batch])
  }

  /** The second `resources.map`: each resource gets whatever the batch returned for its table. */
  function Responses<T>(resources: seq<BatchResource>, result: BatchGetResult<T>, suffix: string): (r: seq<BatchResponse<T>>)
    ensures |r| == |resources|
    ensures forall i :: 0 <= i < |resources| ==> r[i].items == result.ResultsForTable(TableOf(resources[i].tableEntity, suffix))
  {
    seq(|resources|, i requires 0 <= i < |resources| => BatchResponse(result.ResultsForTable(TableOf(resources[i].tableEntity, suffix))))
  }

  /**
   * Results are attributed by table, not by request: two resources of the same entity class receive the
   * same items, each the union of what both asked for.
   */
  lemma SameClassSameResponse<T>(resources: seq<BatchResource>, result: BatchGetResult<T>, suffix: string, i: nat, j: nat)
    requires i < |resources| && j < |resources|
    requires resources[i].tableEntity.tableName == resources[j].tableEntity.tableName
    ensures Responses(resources, result, suffix)[i] == Responses(resources, result, suffix)[j]
  {
  }

  /** A resource whose table the batch did not return reads nothing. */
  lemma MissingTableReadsNothing<T>(resources: seq<BatchResource>, result: BatchGetResult<T>, suffix: string, i: nat)
    requires i < |resources| && TableOf(resources[i].tableEntity, suffix) !in result.byTable
    ensures Responses(resources, result, suffix)[i].items == []
  {
  }

  class DynamoDBEnhancedRepository<T> {
    const client: EnhancedClient<T>
    const tableNameSuffix: string
    /** `item.javaClass`: the entity class of each item. */
    const classOf: T -> EntityClass

    constructor(client: EnhancedClient<T>, tableNameSuffix: string, classOf: T -> EntityClass)
      ensures this.client == client && this.tableNameSuffix == tableNameSuffix && this.classOf == classOf
    {
      this.client, this.tableNameSuffix, this.classOf := client, tableNameSuffix, classOf;
    }

    /** The body of the `transactWriteItems { ... }` lambda: `items.forEach { addPutItem(table, item) }`. */
    method TransactWriteRequestFor(items: seq<T>) returns (request: TransactWriteRequest<T>)
      ensures request.puts == PutsFor(items, classOf, tableNameSuffix)
    {
      var puts: seq<TransactPut<T>> := [];
      var i := 0;
      while i < |items|
        invariant 0 <= i <= |items|
        invariant puts == PutsFor(items[..i], classOf, tableNameSuffix)
      {
        var table := client.Table(PhysicalTableName(classOf(items[i]).tableName, tableNameSuffix));
        puts := puts + [TransactPut(table.name, items[i])];
        assert items[..i + 1][..i] == items[..i];
        i := i + 1;
      }
      assert items[..i] == items;
      request := TransactWriteRequest(puts);
    }

    /** `saveInTransaction(items)`: exactly one transaction, even for an empty list. */
    method SaveInTransaction(items: seq<T>)
      modifies client
      ensures client.transactions == old(client.transactions) + [TransactWriteRequest(PutsFor(items, classOf, tableNameSuffix))]
      ensures client.batchReads == old(client.batchReads)
    {
      var request := TransactWriteRequestFor(items);
      client.TransactWriteItems(request);
    }

    /** The keys of one resource, one fresh `Key.builder()` per primary key. */
    method BuildKeys(keys: seq<PrimaryKey>) returns (r: Result<seq<Key>, KeyError>)
      ensures r == KeysFor(keys)
    {
      var gets: seq<Key> := [];
      var j := 0;
      while j < |keys|
        invariant 0 <= j <= |keys|
        invariant KeysFor(keys[..j]) == Success(gets)
      {
        var key := BuildKey(keys[j].pk, keys[j].sk);
        assert keys[..j + 1][..j] == keys[..j];
        if key.Failure? {
          assert KeysFor(keys[..j + 1]).Failure?;
          assert !KeyOf(keys[..j + 1][j].pk, keys[..j + 1][j].sk).Success?;
          assert KeysFor(keys).Failure? && KeysFor(keys).error == key.error == UnsupportedKeyType;
          return Failure(key.error);
        }
        gets := gets + [key.value];
        j := j + 1;
      }
      assert keys[..j] == keys;
      r := Success(gets);
    }

    /** The first `resources.map`: one read batch per resource, against the table of its class. */
    method BuildReadBatches(resources: seq<BatchResource>) returns (r: Result<seq<ReadBatch>, KeyError>)
      ensures r == ReadBatchesFor(resources, tableNameSuffix)
    {
      var batches: seq<ReadBatch> := [];
      var i := 0;
      while i < |resources|
        invariant 0 <= i <= |resources|
        invariant ReadBatchesFor(resources[..i], tableNameSuffix) == Success(batches)
      {
        var resource := resources[i];
        var table := client.Table(PhysicalTableName(resource.tableEntity.tableName, tableNameSuffix));
        var gets := BuildKeys(resource.primaryKeys);
        assert resources[..i + 1][..i] == resources[..i];
        if gets.Failure? {
          assert ReadBatchesFor(resources[..i + 1], tableNameSuffix).Failure?;
          assert ReadBatchFor(resources[..i + 1][i], tableNameSuffix).Failure?;
          assert ReadBatchesFor(resources, tableNameSuffix).Failure?;
          assert ReadBatchesFor(resources, tableNameSuffix).error == gets.error == UnsupportedKeyType;
          return Failure(gets.error);
        }
        batches := batches + [ReadBatch(resource.tableEntity, table.name, gets.value)];
        i := i + 1;
      }
      assert resources[..i] == resources;
      r := Success(batches);
    }

    /**
     * `batchGetItems(resources)`: all read batches are sent in one `batchGetItem` call; a key error
     * raised while building them propagates before anything is sent.
     */
    method BatchGetItems(resources: seq<BatchResource>) returns (r: Result<seq<BatchResponse<T>>, KeyError>)
      modifies client
      ensures ReadBatchesFor(resources, tableNameSuffix).Failure? ==>
        r.Failure? && client.batchReads == old(client.batchReads)
      ensures ReadBatchesFor(resources, tableNameSuffix).Success? ==>
        var batches := ReadBatchesFor(resources, tableNameSuffix).value;
        client.batchReads == old(client.batchReads) + [batches]
        && r == Success(Responses(resources, old(client.batches(client.batchReads, batches)), tableNameSuffix))
      ensures client.transactions == old(client.transactions)
    {
      var batches := BuildReadBatches(resources);
      if batches.Failure? {
        return Failure(batches.error);
      }
      var result := client.BatchGetItem(batches.value);
      r := Success(Responses(resources, result, tableNameSuffix));
    }
  }
}
