/**
 * Stand-ins for what the core calls but does not define: the DynamoDB enhanced client and its value
 * types, the JVM's `Class` objects as reflection sees them, and Spring's bean factory. Each is given
 * only the behaviour the core relies on; what the store answers is an uninterpreted oracle.
 */
module Platform {
  import opened Wrappers

  /** Kotlin's `Int`. */
  type Int32 = x: int | -0x8000_0000 <= x < 0x8000_0000

  /** `java.time.LocalDateTime`, kept opaque: the core only copies it and hands it to a formatter. */
  datatype LocalDateTime = LocalDateTime(year: int, month: int, day: int, hour: int, minute: int, second: int, nano: int)

  /** The store's native value for a key component: string, number or binary. */
  datatype AttributeValue = S(s: string) | N(n: int) | B(b: seq<bv8>)

  /** What `Key.Builder.build()` yields: the encoded partition value and the optional sort value. */
  datatype Key = Key(partitionValue: Option<AttributeValue>, sortValue: Option<AttributeValue>)

  /** `Key.Builder`: a mutable record of the two key components. */
  class KeyBuilder {
    var partitionValue: Option<AttributeValue>
    var sortValue: Option<AttributeValue>

    /** `Key.builder()`. */
    constructor()
      ensures partitionValue == None && sortValue == None
    {
      partitionValue, sortValue := None, None;
    }

    /** The key `build()` would yield now. */
    function Current(): Key
      reads this
    {
      Key(partitionValue, sortValue)
    }

    /** `partitionValue(v)`. */
    method SetPartitionValue(v: AttributeValue)
      modifies this
      ensures partitionValue == Some(v) && sortValue == old(sortValue)
    {
      partitionValue := Some(v);
    }

    /** `sortValue(v)`. */
    method SetSortValue(v: AttributeValue)
      modifies this
      ensures sortValue == Some(v) && partitionValue == old(partitionValue)
    {
      sortValue := Some(v);
    }

    /** `build()`: reads the builder and changes nothing. */
    method Build() returns (k: Key)
      ensures k.partitionValue == partitionValue && k.sortValue == sortValue
    {
      k := Key(partitionValue, sortValue);
    }
  }

  /** `QueryConditional`: one constructor per factory method of the SDK that the core calls. */
  datatype QueryConditional =
    | KeyEqualTo(key: Key)
    | SortBetween(from: Key, to: Key)
    | SortBeginsWith(key: Key)
    | SortGreaterThan(key: Key)
    | SortGreaterThanOrEqualTo(key: Key)
    | SortLessThan(key: Key)
    | SortLessThanOrEqualTo(key: Key)

  /** One page of a paginated scan or query result. */
  datatype Page<T> = Page(items: seq<T>)

  /** A request handed to one table (`DynamoDbTable<T>`) or to one of its indexes. */
  datatype Request<T> =
    | ScanRequest(limit: Option<Int32>)
    | QueryRequest(conditional: QueryConditional)
    | IndexQueryRequest(indexName: string, conditional: QueryConditional)
    | GetItemRequest(key: Key)
    | PutItemRequest(item: T)
    | DeleteItemRequest(item: T)

  /** Any exception `getItem` throws (throttling, network, malformed request). */
  datatype StoreError = StoreFailure

  /**
   * What the service behind one physical table answers, as a function of every request that table was
   * sent before and of the request itself. Nothing is assumed about it.
   */
  datatype Service<!T> = Service(
    pages: (seq<Request<T>>, Request<T>) -> seq<Page<T>>,
    item: (seq<Request<T>>, Key) -> Result<Option<T>, StoreError>)

  /** `DynamoDbTable<T>`: a handle on one physical table that records what it was sent. */
  class Table<T> {
    const name: string
    const service: Service<T>
    var history: seq<Request<T>>

    constructor(name: string, service: Service<T>)
      ensures this.name == name && this.service == service && history == []
    {
      this.name, this.service, history := name, service, [];
    }

    /** The pages the service answers to `r` now. */
    function Answer(r: Request<T>): seq<Page<T>>
      reads this
    {
      service.pages(history, r)
    }

    /** `scan()` (limit None) or `scan(ScanEnhancedRequest.builder().limit(n).build())`. */
    method Scan(limit: Option<Int32>) returns (pages: seq<Page<T>>)
      modifies this
      ensures pages == old(Answer(ScanRequest(limit)))
      ensures history == old(history) + [ScanRequest(limit)]
    {
      pages := Answer(ScanRequest(limit));
      history := history + [ScanRequest(limit)];
    }

    /** `query(conditional)`. */
    method Query(conditional: QueryConditional) returns (pages: seq<Page<T>>)
      modifies this
      ensures pages == old(Answer(QueryRequest(conditional)))
      ensures history == old(history) + [QueryRequest(conditional)]
    {
      pages := Answer(QueryRequest(conditional));
      history := history + [QueryRequest(conditional)];
    }

    /** `index(indexName).query(conditional)`: the index is selected, then queried. */
    method QueryIndex(indexName: string, conditional: QueryConditional) returns (pages: seq<Page<T>>)
      modifies this
      ensures pages == old(Answer(IndexQueryRequest(indexName, conditional)))
      ensures history == old(history) + [IndexQueryRequest(indexName, conditional)]
    {
      pages := Answer(IndexQueryRequest(indexName, conditional));
      history := history + [IndexQueryRequest(indexName, conditional)];
    }

    /** `getItem(key)`: the item, null, or a thrown exception. */
    method GetItem(key: Key) returns (r: Result<Option<T>, StoreError>)
      modifies this
      ensures r == old(service.item(history, key))
      ensures history == old(history) + [GetItemRequest(key)]
    {
      r := service.item(history, key);
      history := history + [GetItemRequest(key)];
    }

    /** `putItem(item)`. */
    method PutItem(item: T)
      modifies this
      ensures history == old(history) + [PutItemRequest(item)]
    {
      history := history + [PutItemRequest(item)];
    }

    /** `deleteItem(item)`. */
    method DeleteItem(item: T)
      modifies this
      ensures history == old(history) + [DeleteItemRequest(item)]
    {
      history := history + [DeleteItemRequest(item)];
    }
  }

  /**
   * A JVM `Class` as the core inspects it: its names, the `tableName` a fresh instance reports, whether
   * it carries `@DynamoDbBean` and whether it is assignable to `TableEntity`.
   */
  datatype EntityClass = EntityClass(
    name: string,
    simpleName: string,
    tableName: string,
    annotatedWithDynamoDbBean: bool,
    isTableEntity: bool)

  /** One `addPutItem(table, item)` of a transactional write, by physical table name. */
  datatype TransactPut<T> = TransactPut(tableName: string, item: T)

  /** `TransactWriteItemsEnhancedRequest`. */
  datatype TransactWriteRequest<T> = TransactWriteRequest(puts: seq<TransactPut<T>>)

  /** `ReadBatch`: the item class, the physical table it reads and the keys of its `addGetItem` calls. */
  datatype ReadBatch = ReadBatch(entityClass: EntityClass, tableName: string, gets: seq<Key>)

  /** `BatchGetResultPageIterable`, by physical table name. */
  datatype BatchGetResult<T> = BatchGetResult(byTable: map<string, seq<T>>) {
    /** `resultsForTable(table)`: nothing for a table the batch did not return. */
    function ResultsForTable(tableName: string): seq<T> {
      if tableName in byTable then byTable[tableName] else []
    }
  }

  /**
   * `DynamoDbEnhancedClient`: opens table handles by physical name and records the transactional
   * writes and batch reads it was sent. `tables` and `batches` are the service's oracles.
   */
  class EnhancedClient<T> {
    const tables: string -> Service<T>
    const batches: (seq<seq<ReadBatch>>, seq<ReadBatch>) -> BatchGetResult<T>
    var transactions: seq<TransactWriteRequest<T>>
    var batchReads: seq<seq<ReadBatch>>

    constructor(tables: string -> Service<T>, batches: (seq<seq<ReadBatch>>, seq<ReadBatch>) -> BatchGetResult<T>)
      ensures this.tables == tables && this.batches == batches
      ensures transactions == [] && batchReads == []
    {
      this.tables, this.batches := tables, batches;
      transactions, batchReads := [], [];
    }

    /** `table(name, schema)`: a fresh handle on the physical table `name`. */
    method Table(name: string) returns (t: Table<T>)
      ensures fresh(t) && t.name == name && t.service == tables(name) && t.history == []
    {
      t := new Table(name, tables(name));
    }

    /** `transactWriteItems(request)`. */
    method TransactWriteItems(request: TransactWriteRequest<T>)
      modifies this
      ensures transactions == old(transactions) + [request]
      ensures batchReads == old(batchReads)
    {
      transactions := transactions + [request];
    }

    /** `batchGetItem { it.readBatches(readBatches) }`. */
    method BatchGetItem(readBatches: seq<ReadBatch>) returns (result: BatchGetResult<T>)
      modifies this
      ensures result == old(batches(batchReads, readBatches))
      ensures batchReads == old(batchReads) + [readBatches]
      ensures transactions == old(transactions)
    {
      result := batches(batchReads, readBatches);
      batchReads := batchReads + [readBatches];
    }
  }

  /** A repository bean: the entity class it serves and the physical table it is bound to. */
  datatype RepositoryBean = RepositoryBean(entityClass: EntityClass, tableName: string)

  /** `GenericBeanDefinition` with a bean class and an instance supplier returning `instance`. */
  datatype BeanDefinition = BeanDefinition(beanClass: string, instance: RepositoryBean)

  /** Spring's `DefaultListableBeanFactory`: definitions and singletons by bean name. */
  class BeanFactory {
    var definitions: map<string, BeanDefinition>
    var singletons: map<string, RepositoryBean>

    constructor()
      ensures definitions == map[] && singletons == map[]
    {
      definitions, singletons := map[], map[];
    }

    /** `registerBeanDefinition(name, definition)`. */
    method RegisterBeanDefinition(name: string, definition: BeanDefinition)
      modifies this
      ensures definitions == old(definitions)[name := definition]
      ensures singletons == old(singletons)
    {
      definitions := definitions[name := definition];
    }

    /** `registerSingleton(name, bean)`. */
    method RegisterSingleton(name: string, bean: RepositoryBean)
      modifies this
      ensures singletons == old(singletons)[name := bean]
      ensures definitions == old(definitions)
    {
      singletons := singletons[name := bean];
    }
  }
}
