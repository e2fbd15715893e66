/**
 * The generic single-table repository (`NoSQLRepository` / `DynamoDBRepository`): it binds one entity
 * class to its physical table `<tableName>_<suffix>` and turns each finder into one scan, query,
 * index query or item request on that table.
 */
module Repository {
  import opened Wrappers
  import opened Platform
  import opened SecondaryIndexes
  import opened DynamoDBExtensions

  /** The physical table of an entity: `"${tableName}_$tableNameSuffix"`. */
  function PhysicalTableName(tableName: string, suffix: string): (r: string)
    ensures |r| == |tableName| + 1 + |suffix|
    ensures r[..|tableName|] == tableName && r[|tableName|] == '_' && r[|tableName| + 1..] == suffix
  {
    tableName + "_" + suffix
  }

  /** Entities that share a suffix but not a table name never share a physical table. */
  lemma PhysicalTableNameInjectiveInTable(t1: string, t2: string, suffix: string)
    ensures PhysicalTableName(t1, suffix) == PhysicalTableName(t2, suffix) <==> t1 == t2
  {
    if PhysicalTableName(t1, suffix) == PhysicalTableName(t2, suffix) {
      var r := PhysicalTableName(t1, suffix);
      assert |t1| == |t2|;
      assert t1 == r[..|t1|] == t2;
    }
  }

  /** Two environments (suffixes) never share a physical table of the same entity. */
  lemma PhysicalTableNameInjectiveInSuffix(tableName: string, s1: string, s2: string)
    ensures PhysicalTableName(tableName, s1) == PhysicalTableName(tableName, s2) <==> s1 == s2
  {
    if PhysicalTableName(tableName, s1) == PhysicalTableName(tableName, s2) {
      var r := PhysicalTableName(tableName, s1);
      assert s1 == r[|tableName| + 1..] == s2;
    }
  }

  /** `Key.builder().setPrimaryKeys(pk, sk).build()` on a fresh builder. */
  method BuildKey(pk: KeyValue, sk: Option<KeyValue>) returns (r: Result<Key, KeyError>)
    ensures r == KeyOf(pk, sk)
  {
    var builder := new KeyBuilder();
    var b := SetPrimaryKeys(builder, pk, sk);
    if b.Failure? {
      assert b.error == KeyOf(pk, sk).error == UnsupportedKeyType;
      return Failure(b.error);
    }
    var key := b.value.Build();
    return Success(key);
  }

  /** `Key.builder().setPrimaryKeys(secondaryIndex).build()` on a fresh builder. */
  method BuildIndexKey(index: SecondaryIndex<KeyValue, KeyValue>) returns (r: Result<Key, KeyError>)
    ensures r == KeyOf(index.pk, index.sk)
  {
    var builder := new KeyBuilder();
    var b := SetPrimaryKeysOf(builder, index);
    if b.Failure? {
      assert b.error == KeyOf(index.pk, index.sk).error == UnsupportedKeyType;
      return Failure(b.error);
    }
    var key := b.value.Build();
    return Success(key);
  }

  /** `keyEqualTo(Key.builder().setPK(pk).build())`: every item of partition `pk`. */
  function ByPKConditional(pk: KeyValue): (r: Result<QueryConditional, KeyError>)
    ensures r.Success? <==> IsSupported(pk)
    ensures r.Success? ==> r.value == KeyEqualTo(Key(Some(Encode(pk).value), None))
  {
    var key :- KeyOf(pk, None);
    Success(KeyEqualTo(key))
  }

  /** `sortBetween(lower, upper)`, both keys built from the same partition value. */
  function BetweenConditional(pk: KeyValue, startSk: Option<KeyValue>, endSk: Option<KeyValue>): (r: Result<QueryConditional, KeyError>)
    ensures r.Success? <==> KeyOf(pk, startSk).Success? && KeyOf(pk, endSk).Success?
    ensures r.Success? ==> r.value.SortBetween?
    ensures r.Success? ==> r.value.from.partitionValue == r.value.to.partitionValue == Some(Encode(pk).value)
    ensures r.Success? ==> r.value.from == KeyOf(pk, startSk).value && r.value.to == KeyOf(pk, endSk).value
  {
    var lower :- KeyOf(pk, startSk);
    var upper :- KeyOf(pk, endSk);
    Success(SortBetween(lower, upper))
  }

  /** The one-key sort-key comparisons of the query API. */
  datatype Comparison = BeginsWith | GreaterThan | GreaterThanOrEqualTo | LessThan | LessThanOrEqualTo

  /** `sortBeginsWith`, `sortGreaterThan`, ... applied to `Key.builder().setPrimaryKeys(pk, sk).build()`. */
  function ComparisonConditional(op: Comparison, pk: KeyValue, sk: Option<KeyValue>): (r: Result<QueryConditional, KeyError>)
    ensures r.Success? <==> KeyOf(pk, sk).Success?
    ensures r.Success? ==> match op
      case BeginsWith => r.value.SortBeginsWith?
      case GreaterThan => r.value.SortGreaterThan?
      case GreaterThanOrEqualTo => r.value.SortGreaterThanOrEqualTo?
      case LessThan => r.value.SortLessThan?
      case LessThanOrEqualTo => r.value.SortLessThanOrEqualTo?
    ensures r.Success? ==> !r.value.SortBetween? && r.value.key == KeyOf(pk, sk).value
  {
    var key :- KeyOf(pk, sk);
    Success(match op
      case BeginsWith => SortBeginsWith(key)
      case GreaterThan => SortGreaterThan(key)
      case GreaterThanOrEqualTo => SortGreaterThanOrEqualTo(key)
      case LessThan => SortLessThan(key)
      case LessThanOrEqualTo => SortLessThanOrEqualTo(key))
  }

  /** `keyEqualTo(Key.builder().setPrimaryKeys(secondaryIndex).build())`, sent to the named index. */
  function SecondaryIndexConditional(index: SecondaryIndex<KeyValue, KeyValue>): (r: Result<QueryConditional, KeyError>)
    ensures r.Success? <==> KeyOf(index.pk, index.sk).Success?
    ensures r.Success? ==> r.value == KeyEqualTo(KeyOf(index.pk, index.sk).value)
  {
    var key :- KeyOf(index.pk, index.sk);
    Success(KeyEqualTo(key))
  }

  /** `try { getItem(key) } catch (e: Exception) { null }`: a store failure reads as "not found". */
  function AbsentOnFailure<T>(fetched: Result<Option<T>, StoreError>): (r: Option<T>)
    ensures r.Some? ==> fetched == Success(r)
    ensures fetched.Success? ==> r == fetched.value
  {
    match fetched
    case Success(item) => item
    case Failure(_) => None
  }

  /** An index query by partition only asks the same condition of the index as `findAllByPK` asks of the table. */
  lemma IndexWithoutSkIsByPK(indexName: string, pk: KeyValue)
    ensures SecondaryIndexConditional(WithoutSk<KeyValue, KeyValue>(indexName, pk).AsSecondaryIndex()) == ByPKConditional(pk)
  {
  }

  /** A null sort value makes a comparison's key the partition-only key of `findAllByPK`. */
  lemma ComparisonWithoutSkIsPartitionKey(op: Comparison, pk: KeyValue)
    ensures ComparisonConditional(op, pk, None).Success? <==> ByPKConditional(pk).Success?
    ensures ByPKConditional(pk).Success? ==> ComparisonConditional(op, pk, None).value.key == ByPKConditional(pk).value.key
  {
  }

  /** An unsupported partition value fails every query before anything reaches the store. */
  lemma UnsupportedPartitionFailsEveryQuery(pk: KeyValue, sk: Option<KeyValue>, op: Comparison, indexName: string)
    requires !IsSupported(pk)
    ensures ByPKConditional(pk).Failure? && BetweenConditional(pk, sk, sk).Failure?
    ensures ComparisonConditional(op, pk, sk).Failure?
    ensures SecondaryIndexConditional(SecondaryIndex(indexName, pk, sk)).Failure?
  {
  }

  /**
   * The outcome of one query finder on a table served by `service`, whose history went from `before`
   * to `after`: with a condition, the one request `request(c)` is sent and the pages it is answered
   * with are flattened; without one (the key could not be built), nothing is sent and the exception
   * propagates.
   */
  ghost predicate Queried<T>(service: Service<T>, before: seq<Request<T>>, after: seq<Request<T>>,
                             condition: Result<QueryConditional, KeyError>, request: QueryConditional -> Request<T>,
                             r: Result<seq<T>, KeyError>)
  {
    match condition
    case Failure(e) =>
      r == Failure(e) && after == before
    case Success(c) =>
      r == Success(ToEntities(service.pages(before, request(c)))) && after == before + [request(c)]
  }

  /** A table query (not an index query) with condition `c`. */
  function TableQuery<T>(c: QueryConditional): Request<T> {
    QueryRequest(c)
  }

  /** A query of the index `indexName` with condition `c`. */
  function IndexQuery<T>(indexName: string): QueryConditional -> Request<T> {
    c => IndexQueryRequest(indexName, c)
  }

  /** `DynamoDBRepository<Table, PK, SK>`: the entity type is `T`; partition and sort values are run-time typed. */
  class DynamoDBRepository<T> {
    const table: Table<T>

    /**
     * The `init` block: the entity's `tableName`, read from a fresh instance, plus the suffix names the
     * table the client opens.
     */
    constructor(client: EnhancedClient<T>, tableNameSuffix: string, entityClass: EntityClass)
      ensures fresh(table) && table.history == []
      ensures table.name == PhysicalTableName(entityClass.tableName, tableNameSuffix)
      ensures table.service == client.tables(table.name)
    {
      var t := client.Table(PhysicalTableName(entityClass.tableName, tableNameSuffix));
      table := t;
    }

    /** `findAll()`: one unrestricted scan, flattened. */
    method FindAll() returns (items: seq<T>)
      modifies table
      ensures items == ToEntities(old(table.Answer(ScanRequest(None))))
      ensures table.history == old(table.history) + [ScanRequest(None)]
    {
      var pages := table.Scan(None);
      items := ToEntities(pages);
    }

    /** `findAllWithLimit(limit)`: one scan with the page-size limit, flattened. */
    method FindAllWithLimit(limit: Int32) returns (items: seq<T>)
      modifies table
      ensures items == ToEntities(old(table.Answer(ScanRequest(Some(limit)))))
      ensures table.history == old(table.history) + [ScanRequest(Some(limit))]
    {
      var pages := table.Scan(Some(limit));
      items := ToEntities(pages);
    }

    /** Sends `condition` as a table query, or propagates its failure. */
    method QueryTable(condition: Result<QueryConditional, KeyError>) returns (r: Result<seq<T>, KeyError>)
      modifies table
      ensures Queried(table.service, old(table.history), table.history, condition, TableQuery, r)
    {
      if condition.Failure? {
        return Failure(condition.error);
      }
      var pages := table.Query(condition.value);
      r := Success(ToEntities(pages));
    }

    /** `findAllByPK(pk)`. */
    method FindAllByPK(pk: KeyValue) returns (r: Result<seq<T>, KeyError>)
      modifies table
      ensures Queried(table.service, old(table.history), table.history, ByPKConditional(pk), TableQuery, r)
    {
      var key := BuildKey(pk, None);
      if key.Failure? {
        return Failure(key.error);
      }
      r := QueryTable(Success(KeyEqualTo(key.value)));
    }

    /** `findAllByPKAndSKBetween(pk, startSk, endSk)`: the lower key is built before the upper one. */
    method FindAllByPKAndSKBetween(pk: KeyValue, startSk: Option<KeyValue>, endSk: Option<KeyValue>) returns (r: Result<seq<T>, KeyError>)
      modifies table
      ensures Queried(table.service, old(table.history), table.history, BetweenConditional(pk, startSk, endSk), TableQuery, r)
    {
      var lower := BuildKey(pk, startSk);
      if lower.Failure? {
        return Failure(lower.error);
      }
      var upper := BuildKey(pk, endSk);
      if upper.Failure? {
        return Failure(upper.error);
      }
      r := QueryTable(Success(SortBetween(lower.value, upper.value)));
    }

    /** The five one-key finders share this shape: build the key, wrap it in the comparison, query. */
    method FindAllByComparison(op: Comparison, pk: KeyValue, sk: Option<KeyValue>) returns (r: Result<seq<T>, KeyError>)
      modifies table
      ensures Queried(table.service, old(table.history), table.history, ComparisonConditional(op, pk, sk), TableQuery, r)
    {
      var key := BuildKey(pk, sk);
      if key.Failure? {
        return Failure(key.error);
      }
      var condition := match op
        case BeginsWith => SortBeginsWith(key.value)
        case GreaterThan => SortGreaterThan(key.value)
        case GreaterThanOrEqualTo => SortGreaterThanOrEqualTo(key.value)
        case LessThan => SortLessThan(key.value)
        case LessThanOrEqualTo => SortLessThanOrEqualTo(key.value);
      r := QueryTable(Success(condition));
    }

    /** `findAllByPKAndSKBeginsWith(pk, beginningOfSk)`. */
    method FindAllByPKAndSKBeginsWith(pk: KeyValue, beginningOfSk: Option<KeyValue>) returns (r: Result<seq<T>, KeyError>)
      modifies table
      ensures Queried(table.service, old(table.history), table.history, ComparisonConditional(BeginsWith, pk, beginningOfSk), TableQuery, r)
    {
      r := FindAllByComparison(BeginsWith, pk, beginningOfSk);
    }

    /** `findAllByPKAndSKGreaterThan(pk, sk)`. */
    method FindAllByPKAndSKGreaterThan(pk: KeyValue, sk: Option<KeyValue>) returns (r: Result<seq<T>, KeyError>)
      modifies table
      ensures Queried(table.service, old(table.history), table.history, ComparisonConditional(GreaterThan, pk, sk), TableQuery, r)
    {
      r := FindAllByComparison(GreaterThan, pk, sk);
    }

    /** `findAllByPKAndSKGreaterThanOrEqualTo(pk, sk)`. */
    method FindAllByPKAndSKGreaterThanOrEqualTo(pk: KeyValue, sk: Option<KeyValue>) returns (r: Result<seq<T>, KeyError>)
      modifies table
      ensures Queried(table.service, old(table.history), table.history, ComparisonConditional(GreaterThanOrEqualTo, pk, sk), TableQuery, r)
    {
      r := FindAllByComparison(GreaterThanOrEqualTo, pk, sk);
    }

    /** `findAllByPKAndSKLessThan(pk, sk)`. */
    method FindAllByPKAndSKLessThan(pk: KeyValue, sk: Option<KeyValue>) returns (r: Result<seq<T>, KeyError>)
      modifies table
      ensures Queried(table.service, old(table.history), table.history, ComparisonConditional(LessThan, pk, sk), TableQuery, r)
    {
      r := FindAllByComparison(LessThan, pk, sk);
    }

    /** `findAllByPKAndSKLessThanOrEqualTo(pk, sk)`. */
    method FindAllByPKAndSKLessThanOrEqualTo(pk: KeyValue, sk: Option<KeyValue>) returns (r: Result<seq<T>, KeyError>)
      modifies table
      ensures Queried(table.service, old(table.history), table.history, ComparisonConditional(LessThanOrEqualTo, pk, sk), TableQuery, r)
    {
      r := FindAllByComparison(LessThanOrEqualTo, pk, sk);
    }

    /**
     * `findByPrimaryKeys(pk, sk)`: the key is built outside the `try`, so a key error propagates and
     * nothing is sent; once sent, any store failure reads as null.
     */
    method FindByPrimaryKeys(pk: KeyValue, sk: Option<KeyValue>) returns (r: Result<Option<T>, KeyError>)
      modifies table
      ensures KeyOf(pk, sk).Failure? ==> r == Failure(KeyOf(pk, sk).error) && table.history == old(table.history)
      ensures KeyOf(pk, sk).Success? ==>
        var key := KeyOf(pk, sk).value;
        r == Success(AbsentOnFailure(old(table.service.item(table.history, key))))
        && table.history == old(table.history) + [GetItemRequest(key)]
    {
      var key := BuildKey(pk, sk);
      if key.Failure? {
        return Failure(key.error);
      }
      var fetched := table.GetItem(key.value);
      r := Success(AbsentOnFailure(fetched));
    }

    /** The private `findAllBySecondaryIndex`: the key is built, then the named index is queried. */
    method FindAllBySecondaryIndex(index: SecondaryIndex<KeyValue, KeyValue>) returns (r: Result<seq<T>, KeyError>)
      modifies table
      ensures Queried(table.service, old(table.history), table.history, SecondaryIndexConditional(index), IndexQuery(index.indexName), r)
    {
      var key := BuildIndexKey(index);
      if key.Failure? {
        return Failure(key.error);
      }
      var pages := table.QueryIndex(index.indexName, KeyEqualTo(key.value));
      r := Success(ToEntities(pages));
    }

    /** `findAllByGSI(gsi)`. */
    method FindAllByGSI(gsi: SecondaryIndex<KeyValue, KeyValue>) returns (r: Result<seq<T>, KeyError>)
      modifies table
      ensures Queried(table.service, old(table.history), table.history, SecondaryIndexConditional(gsi), IndexQuery(gsi.indexName), r)
    {
      r := FindAllBySecondaryIndex(gsi);
    }

    /** `findAllByLSI(lsi)`. */
    method FindAllByLSI(lsi: SecondaryIndex<KeyValue, KeyValue>) returns (r: Result<seq<T>, KeyError>)
      modifies table
      ensures Queried(table.service, old(table.history), table.history, SecondaryIndexConditional(lsi), IndexQuery(lsi.indexName), r)
    {
      r := FindAllBySecondaryIndex(lsi);
    }

    /** `save(item)`: one put of the item. */
    method Save(item: T)
      modifies table
      ensures table.history == old(table.history) + [PutItemRequest(item)]
    {
      table.PutItem(item);
    }

    /** `delete(item)`: one delete of the item. */
    method Delete(item: T)
      modifies table
      ensures table.history == old(table.history) + [DeleteItemRequest(item)]
    {
      table.DeleteItem(item);
    }
  }
}
