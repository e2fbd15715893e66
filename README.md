# springboot-dynamodb data-access core, in Dafny

This project models the data-access layer of a Spring Boot service that stores orders, users and events in DynamoDB. The layer has seven parts:

- **Key codec.** The extension functions dispatch a key argument on its run-time type and encode it into a `Key.Builder`. A null sort value is omitted, and any other type is rejected. Paginated results are flattened in page order.
- **Generic repository** (`DynamoDBRepository`). It binds an entity class to its physical table `<tableName>_<suffix>`. Each finder becomes exactly one scan, query, index query or item request. The point lookup turns a store failure into "absent".
- **Cross-table repository** (`DynamoDBEnhancedRepository`). It writes one transaction with one put per item. It reads one batch with one read batch per resource, and then hands each resource the results for its table.
- **Secondary-index descriptors** (`GSI`, `LSI`).
- **Entity ↔ domain mappings.** These cover `MainTableEntity` ↔ `Order` / `User`, `EventTableEntity` ↔ `Event`, the `EventType` parser, and the order, user and event repositories built on the generic one.
- **Startup scan** (`DynamoDBEntityScanner`). It turns a package into a resource path and a class file into a class name, loads the class, and applies the annotation filter.
- **Two registration loops.** `DynamicNoSQLRepositoryConfig` and `DynamicDynamoDBRepositoryBeanRegistrar` each put one repository per entity class into the bean factory under a derived bean name.

Inputs and outputs are modelled as follows:

- The AWS SDK, the JVM's reflection and Spring's bean factory are stand-ins in module `Platform`.
- A table records the requests sent to it. What the store answers is an oracle function of the request history and the request.
- The class path is a record of functions: resources, directory test, walk, relativisation and class loading.
- The bean factory is a class holding two maps.
- Properties are stated about the requests built and about how the answers are passed back.

Files:

- `wrappers.dfy`, `strings.dfy`, `collections.dfy`: generic helpers. These are `Option`/`Result`, Kotlin's `replace`, `removeSuffix`, `substringAfterLast` and `replaceFirstChar`, and `flatMap`, `mapNotNull` and `filter` with their membership lemmas.
- `platform.dfy`: the SDK, reflection and Spring stand-ins.
- `extensions.dfy`, `secondary_index.dfy`, `repository.dfy`, `enhanced_repository.dfy`: the key codec, the index descriptors, the generic repository and the cross-table repository.
- `entities.dfy`, `domain_repositories.dfy`: the entities, the domain values and the three domain repositories.
- `entity_scanner.dfy`, `bean_registry.dfy`, `startup.dfy`: the scanner, the registration fold and the two startup configurations.

In the table below, paths are relative to the repository root.

## Model

| member | source | states |
|---|---|---|
| `DynamoDBExtensions.Encode` | src/main/kotlin/com/sjyt/springboot_dynamodb/extension/DynamoDBExtensions.kt:35-44 | Encoding succeeds exactly for String, Number, SdkBytes and AttributeValue keys. A pre-encoded AttributeValue is passed through unchanged. Every other type is the unsupported-type error. |
| `DynamoDBExtensions.Decode` | src/main/kotlin/com/sjyt/springboot_dynamodb/extension/DynamoDBExtensions.kt:36-39 | Every stored attribute value stands for a supported, typed key value (the partner of `Encode`). |
| `DynamoDBExtensions.EncodeDecode` | src/main/kotlin/com/sjyt/springboot_dynamodb/extension/DynamoDBExtensions.kt:36-39 | Encoding the decoded value gives the attribute value back. |
| `DynamoDBExtensions.DecodeEncode` | src/main/kotlin/com/sjyt/springboot_dynamodb/extension/DynamoDBExtensions.kt:36-39 | Decoding the encoding of a String, Number or bytes key gives the key back. |
| `DynamoDBExtensions.KeyOf` | src/main/kotlin/com/sjyt/springboot_dynamodb/extension/DynamoDBExtensions.kt:19-24 | The built key exists iff the partition type is supported and the sort type, when non-null, is too. The partition value is the encoded pk. The sort value is absent iff sk is null, and otherwise is the encoded sk. |
| `DynamoDBExtensions.KeyOfWithoutSortValue` | src/main/kotlin/com/sjyt/springboot_dynamodb/extension/DynamoDBExtensions.kt:46-47 | With a null sort value the key is the partition-only key, with no placeholder sort value. |
| `DynamoDBExtensions.ToEntities` | src/main/kotlin/com/sjyt/springboot_dynamodb/extension/DynamoDBExtensions.kt:11-17 | No pages give no items. |
| `DynamoDBExtensions.ToEntitiesAppend` | src/main/kotlin/com/sjyt/springboot_dynamodb/extension/DynamoDBExtensions.kt:11-17 | Flattening distributes over concatenation: earlier pages' items come first. |
| `DynamoDBExtensions.ToEntitiesSingle` | src/main/kotlin/com/sjyt/springboot_dynamodb/extension/DynamoDBExtensions.kt:11-17 | One page flattens to exactly its items. |
| `DynamoDBExtensions.ToEntitiesAt` | src/main/kotlin/com/sjyt/springboot_dynamodb/extension/DynamoDBExtensions.kt:11-17 | The items of page i sit after those of pages 0..i-1 and before those of the later pages. |
| `DynamoDBExtensions.ToEntitiesMember` | src/main/kotlin/com/sjyt/springboot_dynamodb/extension/DynamoDBExtensions.kt:11-17 | An item is in the result iff it is on some page. |
| `DynamoDBExtensions.SetPK` | src/main/kotlin/com/sjyt/springboot_dynamodb/extension/DynamoDBExtensions.kt:35-44 | Succeeds iff the type is supported. On success it returns the same builder with the encoded partition value. The sort value is never touched. On failure the partition value is unchanged. |
| `DynamoDBExtensions.SetSK` | src/main/kotlin/com/sjyt/springboot_dynamodb/extension/DynamoDBExtensions.kt:46-57 | Null leaves the builder as it was and succeeds. A supported type sets the encoded sort value. An unsupported one fails. The partition value is never touched, and the same builder is returned. |
| `DynamoDBExtensions.SetPrimaryKeys` | src/main/kotlin/com/sjyt/springboot_dynamodb/extension/DynamoDBExtensions.kt:19-24 | It is setPK then setSK on the same builder. It succeeds iff `KeyOf` does, and the partition value is set whenever pk is supported. On success the builder holds `KeyOf(pk, sk)` when sk is non-null or the builder had no sort value. A null sk or a failure leaves the sort value as before. |
| `DynamoDBExtensions.SetPrimaryKeysOf` | src/main/kotlin/com/sjyt/springboot_dynamodb/extension/DynamoDBExtensions.kt:26-33 | The same, for the index's pk and sk. The index name plays no part. |
| `SecondaryIndexes.GSI.AsSecondaryIndex` | src/main/kotlin/com/sjyt/springboot_dynamodb/model/SecondaryIndex.kt:11-15 | A GSI exposes indexName, pk and sk unchanged through the interface. |
| `SecondaryIndexes.LSI.AsSecondaryIndex` | src/main/kotlin/com/sjyt/springboot_dynamodb/model/SecondaryIndex.kt:27-31 | An LSI exposes indexName and pk unchanged, and always a non-null sort value. |
| `SecondaryIndexes.WithoutSk` | src/main/kotlin/com/sjyt/springboot_dynamodb/model/SecondaryIndex.kt:17-22 | `withoutSk(n, p)` equals `GSI(n, p)` with the default sk, and exposes a null sk. |
| `Repository.PhysicalTableName` | src/main/kotlin/com/sjyt/springboot_dynamodb/repository/DynamoDBRepository.kt:53 | The physical name is the table name, then `_`, then the suffix (length and each part). |
| `Repository.PhysicalTableNameInjectiveInTable` | src/main/kotlin/com/sjyt/springboot_dynamodb/repository/DynamoDBRepository.kt:53 | Under one suffix, two entities share a physical table iff they share a table name. |
| `Repository.PhysicalTableNameInjectiveInSuffix` | src/main/kotlin/com/sjyt/springboot_dynamodb/repository/DynamoDBRepository.kt:53 | One entity gets the same physical table under two suffixes iff the suffixes are equal. |
| `Repository.BuildKey` | src/main/kotlin/com/sjyt/springboot_dynamodb/repository/DynamoDBRepository.kt:164-166 | Building a key on a fresh builder yields exactly `KeyOf(pk, sk)`, or its error. |
| `Repository.BuildIndexKey` | src/main/kotlin/com/sjyt/springboot_dynamodb/repository/DynamoDBRepository.kt:198-203 | The same, for an index descriptor. |
| `Repository.ByPKConditional` | src/main/kotlin/com/sjyt/springboot_dynamodb/repository/DynamoDBRepository.kt:66-77 | Key-equality on the partition-only key of pk. It fails iff the pk type is unsupported. |
| `Repository.BetweenConditional` | src/main/kotlin/com/sjyt/springboot_dynamodb/repository/DynamoDBRepository.kt:79-93 | sortBetween whose lower key is (pk, startSk) and whose upper key is (pk, endSk). Both carry the same partition value. It fails iff either key fails. |
| `Repository.ComparisonConditional` | src/main/kotlin/com/sjyt/springboot_dynamodb/repository/DynamoDBRepository.kt:95-161 | Each of begins-with, >, ≥, < and ≤ gives its own named condition over the single key (pk, sk). |
| `Repository.SecondaryIndexConditional` | src/main/kotlin/com/sjyt/springboot_dynamodb/repository/DynamoDBRepository.kt:195-209 | Key-equality on (index pk, optional index sk). |
| `Repository.AbsentOnFailure` | src/main/kotlin/com/sjyt/springboot_dynamodb/repository/DynamoDBRepository.kt:168-172 | A successful getItem is returned as is. Any store failure reads as null. |
| `Repository.IndexWithoutSkIsByPK` | src/main/kotlin/com/sjyt/springboot_dynamodb/repository/DynamoDBRepository.kt:195-209 | An index query by `withoutSk` asks the same condition as `findAllByPK` on that pk. |
| `Repository.ComparisonWithoutSkIsPartitionKey` | src/main/kotlin/com/sjyt/springboot_dynamodb/repository/DynamoDBRepository.kt:95-161 | With a null sk, every comparison's key is the partition-only key. |
| `Repository.UnsupportedPartitionFailsEveryQuery` | src/main/kotlin/com/sjyt/springboot_dynamodb/extension/DynamoDBExtensions.kt:41 | An unsupported pk fails every query shape before anything is sent. |
| `Repository.DynamoDBRepository.constructor` | src/main/kotlin/com/sjyt/springboot_dynamodb/repository/DynamoDBRepository.kt:48-55 | The repository's table is the client's table named `<tableName>_<suffix>`, and starts with no requests. |
| `Repository.DynamoDBRepository.FindAll` | src/main/kotlin/com/sjyt/springboot_dynamodb/repository/DynamoDBRepository.kt:57-59 | One unrestricted scan is sent. The result is its pages flattened. |
| `Repository.DynamoDBRepository.FindAllWithLimit` | src/main/kotlin/com/sjyt/springboot_dynamodb/repository/DynamoDBRepository.kt:61-64 | One scan whose limit is exactly n is sent. The result is its pages flattened. |
| `Repository.DynamoDBRepository.QueryTable` | src/main/kotlin/com/sjyt/springboot_dynamodb/repository/DynamoDBRepository.kt:74-76 | A condition is sent as one table query and its answer flattened. A failed condition sends nothing and propagates. |
| `Repository.DynamoDBRepository.FindAllByPK` | src/main/kotlin/com/sjyt/springboot_dynamodb/repository/DynamoDBRepository.kt:66-77 | Exactly the query `ByPKConditional(pk)` is sent, and its answer flattened. |
| `Repository.DynamoDBRepository.FindAllByPKAndSKBetween` | src/main/kotlin/com/sjyt/springboot_dynamodb/repository/DynamoDBRepository.kt:79-93 | Exactly the query `BetweenConditional(pk, startSk, endSk)` is sent. |
| `Repository.DynamoDBRepository.FindAllByComparison` | src/main/kotlin/com/sjyt/springboot_dynamodb/repository/DynamoDBRepository.kt:95-161 | Exactly the query `ComparisonConditional(op, pk, sk)` is sent. |
| `Repository.DynamoDBRepository.FindAllByPKAndSKBeginsWith` | src/main/kotlin/com/sjyt/springboot_dynamodb/repository/DynamoDBRepository.kt:95-109 | Exactly the begins-with query on (pk, sk) is sent. |
| `Repository.DynamoDBRepository.FindAllByPKAndSKGreaterThan` | src/main/kotlin/com/sjyt/springboot_dynamodb/repository/DynamoDBRepository.kt:111-122 | Exactly the greater-than query on (pk, sk) is sent. |
| `Repository.DynamoDBRepository.FindAllByPKAndSKGreaterThanOrEqualTo` | src/main/kotlin/com/sjyt/springboot_dynamodb/repository/DynamoDBRepository.kt:124-135 | Exactly the greater-than-or-equal query on (pk, sk) is sent. |
| `Repository.DynamoDBRepository.FindAllByPKAndSKLessThan` | src/main/kotlin/com/sjyt/springboot_dynamodb/repository/DynamoDBRepository.kt:137-148 | Exactly the less-than query on (pk, sk) is sent. |
| `Repository.DynamoDBRepository.FindAllByPKAndSKLessThanOrEqualTo` | src/main/kotlin/com/sjyt/springboot_dynamodb/repository/DynamoDBRepository.kt:150-161 | Exactly the less-than-or-equal query on (pk, sk) is sent. |
| `Repository.DynamoDBRepository.FindByPrimaryKeys` | src/main/kotlin/com/sjyt/springboot_dynamodb/repository/DynamoDBRepository.kt:163-173 | A key error propagates and sends nothing. Otherwise one getItem of `KeyOf(pk, sk)` is sent, its item is returned, and a store failure gives null. |
| `Repository.DynamoDBRepository.FindAllBySecondaryIndex` | src/main/kotlin/com/sjyt/springboot_dynamodb/repository/DynamoDBRepository.kt:195-209 | One query of the index named `indexName` is sent, with key-equality on (index pk, index sk). |
| `Repository.DynamoDBRepository.FindAllByGSI` | src/main/kotlin/com/sjyt/springboot_dynamodb/repository/DynamoDBRepository.kt:175-179 | The same request as `findAllBySecondaryIndex(gsi)`. |
| `Repository.DynamoDBRepository.FindAllByLSI` | src/main/kotlin/com/sjyt/springboot_dynamodb/repository/DynamoDBRepository.kt:181-185 | The same request as `findAllBySecondaryIndex(lsi)`. |
| `Repository.DynamoDBRepository.Save` | src/main/kotlin/com/sjyt/springboot_dynamodb/repository/DynamoDBRepository.kt:187-189 | Exactly one putItem of the unchanged item. |
| `Repository.DynamoDBRepository.Delete` | src/main/kotlin/com/sjyt/springboot_dynamodb/repository/DynamoDBRepository.kt:191-193 | Exactly one deleteItem of the unchanged item. |
| `EnhancedRepository.PutsFor` | src/main/kotlin/com/sjyt/springboot_dynamodb/repository/DynamoDBEnhancedRepository.kt:25-36 | One put per item, in item order. Each put targets `<its class's tableName>_<suffix>`. |
| `EnhancedRepository.PutsForItems` | src/main/kotlin/com/sjyt/springboot_dynamodb/repository/DynamoDBEnhancedRepository.kt:27-34 | Every put carries one of the given items, at its own position. Nothing is added or reordered. |
| `EnhancedRepository.TestTableSuffix` | src/test/kotlin/com/sjyt/springboot_dynamodb/repository/DynamoDBEnhancedRepositoryTest.kt:51-61 | An item of a class bound to `test_table` goes to `test_table_suffix` under suffix `suffix`. |
| `EnhancedRepository.EmptyTransaction` | src/test/kotlin/com/sjyt/springboot_dynamodb/repository/DynamoDBEnhancedRepositoryTest.kt:65-76 | An empty item list gives a transaction with no puts. |
| `EnhancedRepository.KeysFor` | src/main/kotlin/com/sjyt/springboot_dynamodb/repository/DynamoDBEnhancedRepository.kt:52-58 | One key per primary key, in order, each `KeyOf(pk, sk)`. It fails iff some key fails. |
| `EnhancedRepository.ReadBatchFor` | src/main/kotlin/com/sjyt/springboot_dynamodb/repository/DynamoDBEnhancedRepository.kt:42-60 | A read batch of the resource's class, against its physical table, holding exactly its keys. |
| `EnhancedRepository.ReadBatchesFor` | src/main/kotlin/com/sjyt/springboot_dynamodb/repository/DynamoDBEnhancedRepository.kt:41-61 | One read batch per resource, in resource order. It fails iff some resource's batch fails. |
| `EnhancedRepository.Responses` | src/main/kotlin/com/sjyt/springboot_dynamodb/repository/DynamoDBEnhancedRepository.kt:67-78 | One response per resource, in resource order. Each holds the batch's results for that resource's table. |
| `EnhancedRepository.SameClassSameResponse` | src/main/kotlin/com/sjyt/springboot_dynamodb/repository/DynamoDBEnhancedRepository.kt:67-78 | Two resources with the same table name receive the same items. |
| `EnhancedRepository.MissingTableReadsNothing` | src/main/kotlin/com/sjyt/springboot_dynamodb/repository/DynamoDBEnhancedRepository.kt:74-76 | A resource whose table the batch did not return gets no items. |
| `EnhancedRepository.DynamoDBEnhancedRepository.constructor` | src/main/kotlin/com/sjyt/springboot_dynamodb/repository/DynamoDBEnhancedRepository.kt:20-24 | Keeps the client and the suffix. |
| `EnhancedRepository.DynamoDBEnhancedRepository.TransactWriteRequestFor` | src/main/kotlin/com/sjyt/springboot_dynamodb/repository/DynamoDBEnhancedRepository.kt:26-35 | The forEach that adds the puts builds exactly `PutsFor(items)`. |
| `EnhancedRepository.DynamoDBEnhancedRepository.SaveInTransaction` | src/main/kotlin/com/sjyt/springboot_dynamodb/repository/DynamoDBEnhancedRepository.kt:25-36 | Exactly one transaction is submitted, even for an empty list, holding `PutsFor(items)`. No batch read is sent. |
| `EnhancedRepository.DynamoDBEnhancedRepository.BuildKeys` | src/main/kotlin/com/sjyt/springboot_dynamodb/repository/DynamoDBEnhancedRepository.kt:52-58 | The forEach that adds the gets builds exactly `KeysFor(keys)`. |
| `EnhancedRepository.DynamoDBEnhancedRepository.BuildReadBatches` | src/main/kotlin/com/sjyt/springboot_dynamodb/repository/DynamoDBEnhancedRepository.kt:41-61 | The first map builds exactly `ReadBatchesFor(resources)`. |
| `EnhancedRepository.DynamoDBEnhancedRepository.BatchGetItems` | src/main/kotlin/com/sjyt/springboot_dynamodb/repository/DynamoDBEnhancedRepository.kt:38-79 | All read batches go in a single batchGetItem call. The result is `Responses` of its answer. A key error sends nothing. No transaction is sent. |
| `MainTableEntities.MainTableEntity.TableName` | src/main/kotlin/com/sjyt/springboot_dynamodb/entity/MainTableEntity.kt:30-31 | Every instance reports `main_table`. |
| `MainTableEntities.Defaults` | src/main/kotlin/com/sjyt/springboot_dynamodb/entity/MainTableEntity.kt:16-28 | The defaults are productName `""`, emailLsiSk `""`, amount null, place null, userName `""` and age null. |
| `MainTableEntities.OrZero` | src/main/kotlin/com/sjyt/springboot_dynamodb/entity/MainTableEntity.kt:39-40 | `x ?: 0`: a present value is kept, and null is 0. |
| `MainTableEntities.ToOrder` | src/main/kotlin/com/sjyt/springboot_dynamodb/entity/MainTableEntity.kt:34-42 | sk→id, productName→productName, emailLsiSk→email. Amount and place are defaulted to 0. |
| `MainTableEntities.ToOrderIgnoresUserAttributes` | src/main/kotlin/com/sjyt/springboot_dynamodb/entity/MainTableEntity.kt:34-42 | Entities differing only in pk, userName and age give the same order. |
| `MainTableEntities.ToOrderConflatesNullAndZero` | src/main/kotlin/com/sjyt/springboot_dynamodb/entity/MainTableEntity.kt:39-40 | A null and a zero amount, or a null and a zero place, read as the same order. |
| `MainTableEntities.ToOrders` | src/main/kotlin/com/sjyt/springboot_dynamodb/entity/MainTableEntity.kt:44-54 | Length is kept, and element i is `toOrder` of entity i. |
| `Users.User.ToMainTableEntity` | src/main/kotlin/com/sjyt/springboot_dynamodb/model/User.kt:10-18 | pk `USER`, sk the e-mail, emailLsiSk `""`, userName the name and age the age. productName, amount and place are left at their defaults. |
| `EventTypes.Name` | src/main/kotlin/com/sjyt/springboot_dynamodb/model/EventType.kt:3-6 | A constant's name is one of `CLICK`, `SEND`, `UNKNOWN`. |
| `EventTypes.Init` | src/main/kotlin/com/sjyt/springboot_dynamodb/model/EventType.kt:9-15 | CLICK iff the string is exactly `CLICK`, SEND iff it is exactly `SEND`, UNKNOWN otherwise (`""` and `click` included). |
| `EventTypes.InitName` | src/main/kotlin/com/sjyt/springboot_dynamodb/model/EventType.kt:3-15 | `init(name(t)) == t` for all three constants. |
| `EventTypes.NameInit` | src/main/kotlin/com/sjyt/springboot_dynamodb/model/EventType.kt:9-15 | A string survives parse-then-name iff it is one of the three names. |
| `EventTypes.NameInjective` | src/main/kotlin/com/sjyt/springboot_dynamodb/model/EventType.kt:3-6 | Distinct constants have distinct names. |
| `Events.EventTableEntity.TableName` | src/main/kotlin/com/sjyt/springboot_dynamodb/entity/EventTableEntity.kt:20-21 | Every instance reports `event_table`. |
| `Events.Event.ToEventTableEntity` | src/main/kotlin/com/sjyt/springboot_dynamodb/model/Event.kt:11-16 | The stored eventType is the enum's name and is one of the three names. The date is copied. `toEvent` of the result is the event again. |
| `Events.ToEvent` | src/main/kotlin/com/sjyt/springboot_dynamodb/entity/EventTableEntity.kt:33-38 | The type is `EventType.init(eventType)`, and the date is copied. |
| `Events.EntityRoundTrip` | src/main/kotlin/com/sjyt/springboot_dynamodb/entity/EventTableEntity.kt:33-38 | Entity→Event→entity is the identity iff the stored eventType is one of the three names. |
| `Events.DefaultKindIsUnknown` | src/main/kotlin/com/sjyt/springboot_dynamodb/entity/EventTableEntity.kt:15 | The default eventType `""` reads as UNKNOWN. |
| `Events.EntityRoundTripNormalises` | src/main/kotlin/com/sjyt/springboot_dynamodb/entity/EventTableEntity.kt:35 | Entity→Event→entity keeps the date. It keeps one of the three names and turns any other string into `UNKNOWN`. |
| `Events.ToEvents` | src/main/kotlin/com/sjyt/springboot_dynamodb/entity/EventTableEntity.kt:24-31 | Length is kept, and element i is `toEvent` of entity i. |
| `OrdersAndEventsModel.MainAndEventTableEntities.ToOrdersAndEvents` | src/main/kotlin/com/sjyt/springboot_dynamodb/model/MainAndEventTableEntities.kt:12-17 | Both lengths are kept. Order i is `toOrder` of main entity i, and event i is `toEvent` of event entity i. |
| `OrderRepositories.ToMainTableEntity` | src/main/kotlin/com/sjyt/springboot_dynamodb/repository/OrderRepository.kt:80-89 | pk `ORDER` and sk the id. Reading the item back gives the order: `toOrderOrNull(toMainTableEntity(o)) == o`. |
| `OrderRepositories.ToOrderOrNull` | src/main/kotlin/com/sjyt/springboot_dynamodb/repository/OrderRepository.kt:57-66 | Null iff the entity is null. Otherwise it agrees with `toOrder`. |
| `OrderRepositories.RepositoryToOrders` | src/main/kotlin/com/sjyt/springboot_dynamodb/repository/OrderRepository.kt:68-78 | The repository's private `toOrders` agrees with the entity module's `toOrders` on every list. |
| `OrderRepositories.EntityRoundTrip` | src/main/kotlin/com/sjyt/springboot_dynamodb/repository/OrderRepository.kt:57-89 | Entity→Order→entity is the identity iff pk is `ORDER`, amount and place are present, and the user attributes are at their defaults. |
| `OrderRepositories.OrderKey` | src/main/kotlin/com/sjyt/springboot_dynamodb/repository/OrderRepository.kt:31-35 | The point key is (`ORDER`, id) and always builds. |
| `OrderRepositories.DefaultOrderRepository.constructor` | src/main/kotlin/com/sjyt/springboot_dynamodb/repository/OrderRepository.kt:19-23 | Keeps the generic repository it delegates to. |
| `OrderRepositories.DefaultOrderRepository.FindAllOrders` | src/main/kotlin/com/sjyt/springboot_dynamodb/repository/OrderRepository.kt:25-29 | One key-equality query on partition `ORDER` is sent. The answer is mapped to orders in order. |
| `OrderRepositories.DefaultOrderRepository.FindOrderById` | src/main/kotlin/com/sjyt/springboot_dynamodb/repository/OrderRepository.kt:31-35 | One getItem of (`ORDER`, id) is sent. It gives null when the item is absent or the read fails. |
| `OrderRepositories.DefaultOrderRepository.FindOrdersByProductName` | src/main/kotlin/com/sjyt/springboot_dynamodb/repository/OrderRepository.kt:37-43 | One query of `ProductNameGSI` with the partition-only key p is sent, from `GSI.withoutSk`. |
| `OrderRepositories.DefaultOrderRepository.FindOrdersByUserEmail` | src/main/kotlin/com/sjyt/springboot_dynamodb/repository/OrderRepository.kt:45-51 | One query of `EmailLSI` with key (`ORDER`, e) is sent. |
| `OrderRepositories.DefaultOrderRepository.SaveOrder` | src/main/kotlin/com/sjyt/springboot_dynamodb/repository/OrderRepository.kt:53-55 | Exactly one put of `toMainTableEntity(o)`. |
| `UserRepositories.ToUserOrNull` | src/main/kotlin/com/sjyt/springboot_dynamodb/repository/UserRepository.kt:33-40 | Null iff the entity is null. Otherwise name is userName or `""`, email is sk, and age is age or 0. |
| `UserRepositories.ToUsers` | src/main/kotlin/com/sjyt/springboot_dynamodb/repository/UserRepository.kt:42-50 | Length is kept, and element i agrees with `toUserOrNull` of entity i. |
| `UserRepositories.UserRoundTrip` | src/main/kotlin/com/sjyt/springboot_dynamodb/repository/UserRepository.kt:33-40 | `toUserOrNull(u.toMainTableEntity()) == u`. |
| `UserRepositories.UsersAndOrdersNeverCollide` | src/main/kotlin/com/sjyt/springboot_dynamodb/model/User.kt:12 | A user's item and an order's item never share a partition. |
| `UserRepositories.DefaultUserRepository.constructor` | src/main/kotlin/com/sjyt/springboot_dynamodb/repository/UserRepository.kt:14-18 | Keeps the generic repository it delegates to. |
| `UserRepositories.DefaultUserRepository.FindAllUsers` | src/main/kotlin/com/sjyt/springboot_dynamodb/repository/UserRepository.kt:20-24 | One key-equality query on partition `USER` is sent. The answer is mapped to users in order. |
| `UserRepositories.DefaultUserRepository.FindUserByEmail` | src/main/kotlin/com/sjyt/springboot_dynamodb/repository/UserRepository.kt:26-30 | One getItem of (`USER`, e) is sent. It gives null when the item is absent or the read fails. |
| `EventRepositories.RepositoryToEvents` | src/main/kotlin/com/sjyt/springboot_dynamodb/repository/EventRepository.kt:44-51 | The repository's private `toEvents` agrees with the entity module's `toEvents` on every list. |
| `EventRepositories.DateRange` | src/main/kotlin/com/sjyt/springboot_dynamodb/repository/EventRepository.kt:35-40 | sortBetween on partition `name(type)`, the start date first and the end date second. It is the condition `BetweenConditional` builds from those arguments. |
| `EventRepositories.DefaultEventRepository.constructor` | src/main/kotlin/com/sjyt/springboot_dynamodb/repository/EventRepository.kt:20-24 | Keeps the generic repository and the date formatter. |
| `EventRepositories.DefaultEventRepository.FindAllEvents` | src/main/kotlin/com/sjyt/springboot_dynamodb/repository/EventRepository.kt:26-28 | One unrestricted scan is sent. The answer is mapped to events in order. |
| `EventRepositories.DefaultEventRepository.FindEventsByEventTypeAndDatesBetween` | src/main/kotlin/com/sjyt/springboot_dynamodb/repository/EventRepository.kt:30-42 | One query `DateRange(type, format(start), format(end))` is sent. The answer is mapped to events in order. |
| `EntityScanner.PackagePath` | src/main/kotlin/com/sjyt/springboot_dynamodb/config/dynamodb/DynamoDBEntityScanner.kt:25 | Every `.` becomes `/` and nothing else changes. No `.` remains. |
| `EntityScanner.FileName` | src/main/kotlin/com/sjyt/springboot_dynamodb/config/dynamodb/DynamoDBEntityScanner.kt:33 | The file name contains no separator. |
| `EntityScanner.Extension` | src/main/kotlin/com/sjyt/springboot_dynamodb/config/dynamodb/DynamoDBEntityScanner.kt:33 | The extension contains neither a dot nor a separator. |
| `EntityScanner.ClassFilesInDirectory` | src/main/kotlin/com/sjyt/springboot_dynamodb/config/dynamodb/DynamoDBEntityScanner.kt:30-34 | A non-directory gives nothing. A path is in the result iff it is walked under the directory and its extension is exactly `class`. |
| `EntityScanner.ToClassName` | src/main/kotlin/com/sjyt/springboot_dynamodb/config/dynamodb/DynamoDBEntityScanner.kt:37-44 | Null iff the file cannot be relativised. Otherwise the name is the package, a dot, then the relative path with a trailing `.class` dropped. Character by character, every separator of that path becomes a dot and every other character is kept. |
| `EntityScanner.ToClassNameExample` | src/main/kotlin/com/sjyt/springboot_dynamodb/config/dynamodb/DynamoDBEntityScanner.kt:40 | `sub/Foo.class` under package `pkg` is `pkg.sub.Foo`. |
| `EntityScanner.ResourceClasses` | src/main/kotlin/com/sjyt/springboot_dynamodb/config/dynamodb/DynamoDBEntityScanner.kt:14-18 | Every class a resource yields is annotated and assignable to TableEntity. |
| `EntityScanner.FindAnnotatedClassesInPackage` | src/main/kotlin/com/sjyt/springboot_dynamodb/config/dynamodb/DynamoDBEntityScanner.kt:11-20 | Every class found is annotated and assignable to TableEntity. |
| `EntityScanner.ResourceClassesSound` | src/main/kotlin/com/sjyt/springboot_dynamodb/config/dynamodb/DynamoDBEntityScanner.kt:14-18 | Every class a resource yields comes from one of its class files that relativises, loads and passes the filter. |
| `EntityScanner.ResourceClassesComplete` | src/main/kotlin/com/sjyt/springboot_dynamodb/config/dynamodb/DynamoDBEntityScanner.kt:14-18 | Every such class file makes the resource yield its class. Unloadable and unrelativisable files are the only ones dropped. |
| `EntityScanner.FindSound` | src/main/kotlin/com/sjyt/springboot_dynamodb/config/dynamodb/DynamoDBEntityScanner.kt:11-20 | Every class found comes from a directory resource of the package and one of its class files, which lead to the class. |
| `EntityScanner.FindComplete` | src/main/kotlin/com/sjyt/springboot_dynamodb/config/dynamodb/DynamoDBEntityScanner.kt:11-20 | Every class that a directory resource of the package and one of its class files lead to is found. |
| `EntityScanner.FindMember` | src/main/kotlin/com/sjyt/springboot_dynamodb/config/dynamodb/DynamoDBEntityScanner.kt:11-20 | A class is found iff some directory resource of the package and some class file under it lead to it. The class must carry `@DynamoDbBean` and be a TableEntity. |
| `EntityScanner.NonDirectoryContributesNothing` | src/main/kotlin/com/sjyt/springboot_dynamodb/config/dynamodb/DynamoDBEntityScanner.kt:32 | A resource that is not a directory yields no classes. |
| `EntityScanner.FindInResourceOrder` | src/main/kotlin/com/sjyt/springboot_dynamodb/config/dynamodb/DynamoDBEntityScanner.kt:13-19 | The output follows resource order: resource i's classes come after those of the earlier resources and before those of the later ones. |
| `EntityScanner.FileClassesLeadsTo` | src/main/kotlin/com/sjyt/springboot_dynamodb/config/dynamodb/DynamoDBEntityScanner.kt:14-18 | A class file contributes at most one class, and contributes `c` iff it leads to `c`. |
| `EntityScanner.ResourceClassesWalk` | src/main/kotlin/com/sjyt/springboot_dynamodb/config/dynamodb/DynamoDBEntityScanner.kt:14-18 | A resource yields its class files' contributions, concatenated in walk order. |
| `EntityScanner.ResourceClassesInWalkOrder` | src/main/kotlin/com/sjyt/springboot_dynamodb/config/dynamodb/DynamoDBEntityScanner.kt:14-18 | Within a resource, file j's class comes after the classes of the files walked before it and before those of the files walked after it. |
| `EntityScanner.FindInWalkOrder` | src/main/kotlin/com/sjyt/springboot_dynamodb/config/dynamodb/DynamoDBEntityScanner.kt:13-19 | The scan output is the per-file contributions, in resource order and, within each resource, in walk order. |
| `BeanRegistry.Register` | src/main/kotlin/com/sjyt/springboot_dynamodb/config/dynamodb/DynamicNoSQLRepositoryConfig.kt:27-41 | After registering the classes in order, the registered names are the old ones plus every class's name. |
| `BeanRegistry.RegisterSnoc` | src/main/kotlin/com/sjyt/springboot_dynamodb/config/dynamodb/DynamicNoSQLRepositoryConfig.kt:27-41 | Registering one more class is one more map update. |
| `BeanRegistry.RegisterElsewhere` | src/main/kotlin/com/sjyt/springboot_dynamodb/config/dynamodb/DynamicNoSQLRepositoryConfig.kt:56-58 | A name no class takes keeps its earlier entry. |
| `BeanRegistry.RegisterLastWins` | src/main/kotlin/com/sjyt/springboot_dynamodb/config/dynamodb/DynamicNoSQLRepositoryConfig.kt:56-58 | The last class registered under a name owns it. |
| `BeanRegistry.RegisterInjective` | src/main/kotlin/com/sjyt/springboot_dynamodb/config/dynamodb/DynamicNoSQLRepositoryConfig.kt:27-41 | With distinct names, every class is registered under its own name with its own value. |
| `NoSQLRepositoryConfig.BeanName` | src/main/kotlin/com/sjyt/springboot_dynamodb/config/dynamodb/DynamicNoSQLRepositoryConfig.kt:37 | A derived bean name always ends with `Repository` and is at most 10 characters longer than the simple name. |
| `NoSQLRepositoryConfig.EntityRemovedAfter` | src/main/kotlin/com/sjyt/springboot_dynamodb/config/dynamodb/DynamicNoSQLRepositoryConfig.kt:37 | When the part before an `Entity` holds no `Entity`, the part is kept, that `Entity` is removed, and removal goes on in the rest. No occurrence can straddle the part and the `Entity`. |
| `NoSQLRepositoryConfig.EntityRemovedBetweenPieces` | src/main/kotlin/com/sjyt/springboot_dynamodb/config/dynamodb/DynamicNoSQLRepositoryConfig.kt:37 | For a name made of `Entity`-free pieces joined by `Entity`, removal gives exactly the pieces, concatenated in order. |
| `NoSQLRepositoryConfig.SplitAtEntity` | src/main/kotlin/com/sjyt/springboot_dynamodb/config/dynamodb/DynamicNoSQLRepositoryConfig.kt:37 | Every simple name splits into pieces holding no `Entity` that, joined by `Entity`, give the name back. |
| `NoSQLRepositoryConfig.BeanNameOfPieces` | src/main/kotlin/com/sjyt/springboot_dynamodb/config/dynamodb/DynamicNoSQLRepositoryConfig.kt:37 | For a name made of `Entity`-free pieces joined by `Entity`, the bean name is the pieces concatenated, first letter lowered, plus `Repository`. |
| `NoSQLRepositoryConfig.BeanNameOfAnyName` | src/main/kotlin/com/sjyt/springboot_dynamodb/config/dynamodb/DynamicNoSQLRepositoryConfig.kt:37 | For every simple name, the bean name is the pieces of its split, concatenated, first letter lowered, plus `Repository`. |
| `NoSQLRepositoryConfig.BeanNameOfEntityName` | src/main/kotlin/com/sjyt/springboot_dynamodb/config/dynamodb/DynamicNoSQLRepositoryConfig.kt:37 | For `<part>Entity<rest>` with no `Entity` in the part, the bean name is the part followed by the rest with its `Entity`s removed, first letter lowered, plus `Repository`. |
| `NoSQLRepositoryConfig.BeanNameWithoutEntity` | src/main/kotlin/com/sjyt/springboot_dynamodb/config/dynamodb/DynamicNoSQLRepositoryConfig.kt:37 | A simple name holding no `Entity` has nothing removed: the bean name is the name with its first letter lowered, plus `Repository`. |
| `NoSQLRepositoryConfig.MainTableBeanName` | src/main/kotlin/com/sjyt/springboot_dynamodb/config/dynamodb/DynamicNoSQLRepositoryConfig.kt:37 | `MainTableEntity` gives `mainTableRepository`. |
| `NoSQLRepositoryConfig.EventTableBeanName` | src/main/kotlin/com/sjyt/springboot_dynamodb/config/dynamodb/DynamicNoSQLRepositoryConfig.kt:37 | `EventTableEntity` gives `eventTableRepository`. |
| `NoSQLRepositoryConfig.EmptyBeanName` | src/main/kotlin/com/sjyt/springboot_dynamodb/config/dynamodb/DynamicNoSQLRepositoryConfig.kt:37 | An empty simple name gives `Repository`. |
| `NoSQLRepositoryConfig.BeanNameCollision` | src/main/kotlin/com/sjyt/springboot_dynamodb/config/dynamodb/DynamicNoSQLRepositoryConfig.kt:37 | `MainTable` and `MainTableEntity` derive the same bean name. |
| `NoSQLRepositoryConfig.BeanNameSinglePass` | src/main/kotlin/com/sjyt/springboot_dynamodb/config/dynamodb/DynamicNoSQLRepositoryConfig.kt:37 | `EntEntityity` gives `entityRepository`. |
| `NoSQLRepositoryConfig.RegisteredEntity` | src/main/kotlin/com/sjyt/springboot_dynamodb/config/dynamodb/DynamicNoSQLRepositoryConfig.kt:27-58 | After the loop, a class whose bean name no other discovered class shares is registered under that name. This holds both as the `DynamoDBRepository` definition and as the singleton. It is bound to `<tableName>_<suffix>`. |
| `NoSQLRepositoryConfig.RegisterStep` | src/main/kotlin/com/sjyt/springboot_dynamodb/config/dynamodb/DynamicNoSQLRepositoryConfig.kt:27-41 | One iteration extends both registrations by one update, under the class's bean name. |
| `NoSQLRepositoryConfig.DynamicNoSQLRepositoryConfig.constructor` | src/main/kotlin/com/sjyt/springboot_dynamodb/config/dynamodb/DynamicNoSQLRepositoryConfig.kt:15-21 | Keeps the class path, the bean factory and the suffix. |
| `NoSQLRepositoryConfig.DynamicNoSQLRepositoryConfig.RegisterNoSQLRepositories` | src/main/kotlin/com/sjyt/springboot_dynamodb/config/dynamodb/DynamicNoSQLRepositoryConfig.kt:23-42 | The classes found in `com.sjyt.springboot_dynamodb.entity` are registered, in scan order, over both maps. An entry maps each bean name to a definition and to a singleton bound to `<tableName>_<suffix>`. |
| `NoSQLRepositoryConfig.DynamicNoSQLRepositoryConfig.RegisterGenericBean` | src/main/kotlin/com/sjyt/springboot_dynamodb/config/dynamodb/DynamicNoSQLRepositoryConfig.kt:44-61 | One definition (bean class `DynamoDBRepository`, supplier the bean), then one singleton, both under the bean name. |
| `BeanRegistrar.BeanName` | src/main/kotlin/com/sjyt/springboot_dynamodb/config/dynamodb/DynamicDynamoDBRepositoryBeanRegistrar.kt:40 | Only the first character is lowered. Length and every later character are kept. A name not starting with an upper-case letter is unchanged. |
| `BeanRegistrar.BeanNameExample` | src/main/kotlin/com/sjyt/springboot_dynamodb/config/dynamodb/DynamicDynamoDBRepositoryBeanRegistrar.kt:40 | `MainTableEntity` gives `mainTableEntity`. |
| `BeanRegistrar.FilterIsInstanceKeepsAll` | src/main/kotlin/com/sjyt/springboot_dynamodb/config/dynamodb/DynamicDynamoDBRepositoryBeanRegistrar.kt:25-27 | As written, the erased `filterIsInstance` keeps every annotated class. |
| `BeanRegistrar.FilterIsInstanceCounterexample` | src/main/kotlin/com/sjyt/springboot_dynamodb/config/dynamodb/DynamicDynamoDBRepositoryBeanRegistrar.kt:25-27 | An annotated class that is not a TableEntity passes that filter. |
| `BeanRegistrar.TableEntityClasses` | src/main/kotlin/com/sjyt/springboot_dynamodb/config/dynamodb/DynamicDynamoDBRepositoryBeanRegistrar.kt:25-27 | The intended filter keeps a class iff it was scanned and is a TableEntity. |
| `BeanRegistrar.TableEntityClassesKeepAll` | src/main/kotlin/com/sjyt/springboot_dynamodb/config/dynamodb/DynamicDynamoDBRepositoryBeanRegistrar.kt:25-27 | The intended filter keeps the whole scan iff every scanned class is a TableEntity. |
| `BeanRegistrar.FilterIsInstanceAgrees` | src/main/kotlin/com/sjyt/springboot_dynamodb/config/dynamodb/DynamicDynamoDBRepositoryBeanRegistrar.kt:25-27 | The filter as written and the intended one agree on a scan iff it finds only TableEntity classes. |
| `BeanRegistrar.RegisterStep` | src/main/kotlin/com/sjyt/springboot_dynamodb/config/dynamodb/DynamicDynamoDBRepositoryBeanRegistrar.kt:29-32 | One more loop iteration adds one definition, under the class's lowered simple name, holding the repository the factory made for that class. |
| `BeanRegistrar.DynamicDynamoDBRepositoryBeanRegistrar.constructor` | src/main/kotlin/com/sjyt/springboot_dynamodb/config/dynamodb/DynamicDynamoDBRepositoryBeanRegistrar.kt:15-19 | Keeps the root package, the annotation scan, the factory and the bean factory. |
| `BeanRegistrar.DynamicDynamoDBRepositoryBeanRegistrar.RegisterRepositories` | src/main/kotlin/com/sjyt/springboot_dynamodb/config/dynamodb/DynamicDynamoDBRepositoryBeanRegistrar.kt:21-33 | As written, every scanned `@DynamoDbBean` class, `TableEntity` or not, is passed to the factory once, in scan order. Each call is followed by one registration of what it produced, so the definitions are the fold over the whole scan. Singletons are untouched. |
| `BeanRegistrar.DynamicDynamoDBRepositoryBeanRegistrar.RegisterRepositoryBean` | src/main/kotlin/com/sjyt/springboot_dynamodb/config/dynamodb/DynamicDynamoDBRepositoryBeanRegistrar.kt:35-48 | One definition under the lowered simple name, with bean class `NoSQLRepository` and a supplier returning exactly the factory's repository. |

## Left out

- **What DynamoDB returns.** The contents of scans, queries, item reads and batch reads, sort-key ordering, upsert and delete semantics, transaction atomicity and batch throttling belong to the store. Each answer is an oracle function of the request history and the request. Properties are stated about the requests built and how answers are passed back.
- **Table schemas.** `TableSchema.fromClass` / `fromBean` and the `DynamoDbTable` object itself are stand-ins. A table is identified by its physical name.
- **Reflection.**
  - The entity class of `DynamoDBRepository` is looked up through the generic superclass. Here it is a constructor argument instead.
  - `getDeclaredConstructor().newInstance()` is modelled as reading the class's `tableName`. Its exceptions are not modelled.
- **The Reflections library and the root package.** `Reflections(rootPackage).getTypesAnnotatedWith` and `RootPackageDetector` are given functions. Their result order is taken as given.
- **The class-loader walk.** `classLoader.getResources`, `File.isDirectory`, `walkTopDown`, `relativeTo` and `Class.forName` are given functions. `File.separator` is `/`.
- **Spring's duplicate bean names.** Registering a second bean under an existing name is modelled as overwriting. Spring may instead reject the duplicate.
- **Constructors that do not exist in this snapshot.**
  - `DynamoDBRepository(table)` in `DynamicNoSQLRepositoryConfig` does not match the repository's constructor. It is modelled as a `RepositoryBean` that records the entity class and the physical table name.
  - The factory's `create(entityClass)` called by the registrar is not defined in this snapshot. It is a given function.
- **`findByPartitionKeys`.** The order and user repositories call `findByPartitionKeys`, which the generic repository does not declare. It is modelled as `findByPrimaryKeys(pk, sk)`, the declared point lookup.
- **Missing type definitions.** `OrdersAndEvents` and `BatchResponse` are not part of this model's source files. They are defined here as plain records of what they are built from.
- **Dates.** `LocalDateTime` is an opaque record. `LocalDateTime.now()`, the default of `EventTableEntity.date`, is not modelled, so the model's entity needs an explicit date. `toString()` is a given formatter function.
- **Numbers.** Numeric key values are integers. Kotlin's `Number` keys may also be `Double` or `Float`, and floating point is not modelled.
- **Case mapping.** `replaceFirstChar { it.lowercase() }` is modelled for ASCII only. Unicode case mapping is not modelled.
- **`println` output** of the registration loop: console I/O.
- **Left out as I/O, framework or pass-through code:** table provisioning (`DynamoDBInitializer`), client construction (`DynamoDBConfig`), the HTTP controllers, the services, the factory and per-table config one-liners, request bodies and test doubles.
- `Repository.DynamoDBRepository.FindByPrimaryKeys`: both arguments are key values and the sort value may be null, whereas the declared interface takes a non-null `SK`. The model handles the wider input.
- `NoSQLRepositoryConfig.DynamicNoSQLRepositoryConfig.RegisterNoSQLRepositories`: the result is stated as the fold `Register` over the scan result. That a class's own entry survives is the separate lemma `RegisteredEntity`, and it holds only when no later class derives the same bean name.

## Findings

| source | as written | input that shows it | evidently intended | confidence | as-written member | corrected member |
|---|---|---|---|---|---|---|
| src/main/kotlin/com/sjyt/springboot_dynamodb/config/dynamodb/DynamicDynamoDBRepositoryBeanRegistrar.kt:25-27 | `filterIsInstance<Class<TableEntity>>()`: the type argument of `Class` is erased at run time, so the check only asks "is a `Class`", which every scanned element is | a `@DynamoDbBean` class `OrderDto` that does not implement `TableEntity` is kept and handed to the repository factory | keep only the annotated classes assignable to `TableEntity`, as the scanner's `hasValidAnnotationAndType` does | not executed; rests on the erasure of the reified type argument | `BeanRegistrar.FilterIsInstanceCounterexample` | `BeanRegistrar.TableEntityClasses` |

`BeanRegistrar.DynamicDynamoDBRepositoryBeanRegistrar.RegisterRepositories` keeps the behaviour as written, and so registers such classes too. `BeanRegistrar.FilterIsInstanceAgrees` shows that the written filter and the corrected one give the same loop exactly when the scan finds only `TableEntity` classes.
