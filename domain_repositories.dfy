/**
 * Orders in the single main table: partition `ORDER`, sort key the order id, the product name in the
 * `ProductNameGSI` index and the customer e-mail in the `EmailLSI` index.
 */
module OrderRepositories {
  import opened Wrappers
  import opened Platform
  import opened SecondaryIndexes
  import opened DynamoDBExtensions
  import opened Repository
  import opened Orders
  import opened MainTableEntities

  /** The partition every order is stored in. */
  const OrderPartition := "ORDER"

  /** The private `Order.toMainTableEntity()`: the inverse of reading an order back. */
  function ToMainTableEntity(o: Order): (e: MainTableEntity)
    ensures e.pk == OrderPartition && e.sk == o.id
    ensures ToOrderOrNull(Some(e)) == Some(o)
  {
    MainTableEntity(pk := OrderPartition, sk := o.id, productName := o.productName, emailLsiSk := o.email,
                    amount := Some(o.amount), place := Some(o.place))
  }

  /** The private `MainTableEntity?.toOrderOrNull()`: null stays null; otherwise as `toOrder`. */
  function ToOrderOrNull(e: Option<MainTableEntity>): (o: Option<Order>)
    ensures o.Some? <==> e.Some?
    ensures e.Some? ==> o.value == ToOrder(e.value)
  {
    match e
    case None => None
    case Some(x) => Some(Order(x.sk, x.productName, x.emailLsiSk, OrZero(x.amount), OrZero(x.place)))
  }

  /** The private `List<MainTableEntity>.toOrders()`: agrees item by item with the entity module's `toOrders`. */
  function RepositoryToOrders(es: seq<MainTableEntity>): (os: seq<Order>)
    ensures os == MainTableEntities.ToOrders(es)
  {
    seq(|es|, i requires 0 <= i < |es| =>
      Order(es[i].sk, es[i].productName, es[i].emailLsiSk, OrZero(es[i].amount), OrZero(es[i].place)))
  }

  /**
   * Storing an item read as an order gives back the same item exactly when it is an order item whose
   * amount and place are present and whose user attributes are at their defaults.
   */
  lemma EntityRoundTrip(e: MainTableEntity)
    ensures ToMainTableEntity(ToOrder(e)) == e <==>
      e.pk == OrderPartition && e.amount.Some? && e.place.Some? && e.userName == Some("") && e.age == None
  {
  }

  /** The key of the item `saveOrder` writes, as `findOrderById` builds it. */
  function OrderKey(id: string): (k: Result<Key, KeyError>)
    ensures k == Success(Key(Some(S(OrderPartition)), Some(S(id))))
  {
    KeyOf(StringKey(OrderPartition), Some(StringKey(id)))
  }

  class DefaultOrderRepository {
    /** `dynamoDBRepositoryFactory.build<MainTableEntity>()`. */
    const dynamoDBRepository: DynamoDBRepository<MainTableEntity>

    constructor(dynamoDBRepository: DynamoDBRepository<MainTableEntity>)
      ensures this.dynamoDBRepository == dynamoDBRepository
    {
      this.dynamoDBRepository := dynamoDBRepository;
    }

    /** `findAllOrders()`: every item of partition `ORDER`, read as orders. */
    method FindAllOrders() returns (orders: seq<Order>)
      modifies dynamoDBRepository.table
      ensures var req := QueryRequest(KeyEqualTo(Key(Some(S(OrderPartition)), None)));
        orders == ToOrders(ToEntities(old(dynamoDBRepository.table.Answer(req))))
        && dynamoDBRepository.table.history == old(dynamoDBRepository.table.history) + [req]
    {
      var r := dynamoDBRepository.FindAllByPK(StringKey(OrderPartition));
      orders := RepositoryToOrders(r.value);
    }

    /** `findOrderById(id)`: the item with key (`ORDER`, id), or null when absent or when the read fails. */
    method FindOrderById(id: string) returns (order: Option<Order>)
      modifies dynamoDBRepository.table
      ensures var key := OrderKey(id).value;
        order == ToOrderOrNull(AbsentOnFailure(old(dynamoDBRepository.table.service.item(dynamoDBRepository.table.history, key))))
        && dynamoDBRepository.table.history == old(dynamoDBRepository.table.history) + [GetItemRequest(key)]
    {
      var r := dynamoDBRepository.FindByPrimaryKeys(StringKey(OrderPartition), Some(StringKey(id)));
      order := ToOrderOrNull(r.value);
    }

    /** `findOrdersByProductName(p)`: the items of `ProductNameGSI` partition `p`. */
    method FindOrdersByProductName(productName: string) returns (orders: seq<Order>)
      modifies dynamoDBRepository.table
      ensures var req := IndexQueryRequest("ProductNameGSI", KeyEqualTo(Key(Some(S(productName)), None)));
        orders == ToOrders(ToEntities(old(dynamoDBRepository.table.Answer(req))))
        && dynamoDBRepository.table.history == old(dynamoDBRepository.table.history) + [req]
    {
      var gsi := WithoutSk<KeyValue, KeyValue>("ProductNameGSI", StringKey(productName));
      var r := dynamoDBRepository.FindAllByGSI(gsi.AsSecondaryIndex());
      orders := RepositoryToOrders(r.value);
    }

    /** `findOrdersByUserEmail(email)`: the items of `EmailLSI` with partition `ORDER` and sort key `email`. */
    method FindOrdersByUserEmail(email: string) returns (orders: seq<Order>)
      modifies dynamoDBRepository.table
      ensures var req := IndexQueryRequest("EmailLSI", KeyEqualTo(Key(Some(S(OrderPartition)), Some(S(email)))));
        orders == ToOrders(ToEntities(old(dynamoDBRepository.table.Answer(req))))
        && dynamoDBRepository.table.history == old(dynamoDBRepository.table.history) + [req]
    {
      var lsi := LSI("EmailLSI", StringKey(OrderPartition), StringKey(email));
      var r := dynamoDBRepository.FindAllByLSI(lsi.AsSecondaryIndex());
      orders := RepositoryToOrders(r.value);
    }

    /** `saveOrder(order)`: one put of the order's item. */
    method SaveOrder(order: Order)
      modifies dynamoDBRepository.table
      ensures dynamoDBRepository.table.history == old(dynamoDBRepository.table.history) + [PutItemRequest(ToMainTableEntity(order))]
    {
      dynamoDBRepository.Save(ToMainTableEntity(order));
    }
  }
}

/** Users in the single main table: partition `USER`, sort key the e-mail. */
module UserRepositories {
  import opened Wrappers
  import opened Platform
  import opened DynamoDBExtensions
  import opened Repository
  import opened MainTableEntities
  import opened Orders
  import opened Users
  import OrderRepositories

  /** The partition every user is stored in. */
  const UserPartition := "USER"

  /** The private `MainTableEntity?.toUserOrNull()`: a missing name reads as "" and a missing age as 0. */
  function ToUserOrNull(e: Option<MainTableEntity>): (u: Option<User>)
    ensures u.Some? <==> e.Some?
    ensures e.Some? ==> u.value.email == e.value.sk && u.value.age == OrZero(e.value.age)
    ensures e.Some? ==> u.value.name == if e.value.userName.Some? then e.value.userName.value else ""
  {
    match e
    case None => None
    case Some(x) => Some(User(if x.userName.Some? then x.userName.value else "", x.sk, OrZero(x.age)))
  }

  /** The private `List<MainTableEntity>.toUsers()`: agrees item by item with `toUserOrNull`. */
  function ToUsers(es: seq<MainTableEntity>): (us: seq<User>)
    ensures |us| == |es|
    ensures forall i :: 0 <= i < |es| ==> Some(us[i]) == ToUserOrNull(Some(es[i]))
  {
    seq(|es|, i requires 0 <= i < |es| =>
      User(if es[i].userName.Some? then es[i].userName.value else "", es[i].sk, OrZero(es[i].age)))
  }

  /** A stored user reads back as the same user. */
  lemma UserRoundTrip(u: User)
    ensures ToUserOrNull(Some(u.ToMainTableEntity())) == Some(u)
  {
  }

  /** Users and orders share the main table but never an item key: their partitions differ. */
  lemma UsersAndOrdersNeverCollide(u: User, o: Order)
    ensures u.ToMainTableEntity().pk != OrderRepositories.ToMainTableEntity(o).pk
  {
    assert UserPartition[0] != OrderRepositories.OrderPartition[0];
  }

  class DefaultUserRepository {
    /** `dynamoDBRepositoryFactory.build<MainTableEntity>()`. */
    const dynamoDBRepository: DynamoDBRepository<MainTableEntity>

    constructor(dynamoDBRepository: DynamoDBRepository<MainTableEntity>)
      ensures this.dynamoDBRepository == dynamoDBRepository
    {
      this.dynamoDBRepository := dynamoDBRepository;
    }

    /** `findAllUsers()`: every item of partition `USER`, read as users. */
    method FindAllUsers() returns (users: seq<User>)
      modifies dynamoDBRepository.table
      ensures var req := QueryRequest(KeyEqualTo(Key(Some(S(UserPartition)), None)));
        users == ToUsers(ToEntities(old(dynamoDBRepository.table.Answer(req))))
        && dynamoDBRepository.table.history == old(dynamoDBRepository.table.history) + [req]
    {
      var r := dynamoDBRepository.FindAllByPK(StringKey(UserPartition));
      users := ToUsers(r.value);
    }

    /** `findUserByEmail(email)`: the item with key (`USER`, email), or null when absent or when the read fails. */
    method FindUserByEmail(email: string) returns (user: Option<User>)
      modifies dynamoDBRepository.table
      ensures var key := Key(Some(S(UserPartition)), Some(S(email)));
        user == ToUserOrNull(AbsentOnFailure(old(dynamoDBRepository.table.service.item(dynamoDBRepository.table.history, key))))
        && dynamoDBRepository.table.history == old(dynamoDBRepository.table.history) + [GetItemRequest(key)]
    {
      var r := dynamoDBRepository.FindByPrimaryKeys(StringKey(UserPartition), Some(StringKey(email)));
      user := ToUserOrNull(r.value);
    }
  }
}

/** Events in the event table: partition the kind's name, sort key the date's string form. */
module EventRepositories {
  import opened Wrappers
  import opened Platform
  import opened DynamoDBExtensions
  import opened Repository
  import opened EventTypes
  import opened Events

  /** The private `List<EventTableEntity>.toEvents()`: agrees with the entity module's `toEvents`. */
  function RepositoryToEvents(es: seq<EventTableEntity>): (evs: seq<Event>)
    ensures evs == Events.ToEvents(es)
  {
    seq(|es|, i requires 0 <= i < |es| => Event(Init(es[i].eventType), es[i].date))
  }

  /** The range condition of `findEventsByEventTypeAndDatesBetween`: one partition, two date strings. */
  function DateRange(eventType: EventType, start: string, end: string): (c: QueryConditional)
    ensures c.SortBetween? && c.from.partitionValue == c.to.partitionValue == Some(S(Name(eventType)))
    ensures c.from.sortValue == Some(S(start)) && c.to.sortValue == Some(S(end))
    ensures BetweenConditional(StringKey(Name(eventType)), Some(StringKey(start)), Some(StringKey(end))) == Success(c)
  {
    SortBetween(Key(Some(S(Name(eventType))), Some(S(start))), Key(Some(S(Name(eventType))), Some(S(end))))
  }

  class DefaultEventRepository {
    /** `dynamoDBRepositoryFactory.build<EventTableEntity>()`. */
    const dynamoDBRepository: DynamoDBRepository<EventTableEntity>
    /** `LocalDateTime.toString()`, which fixes how dates are compared as sort keys. */
    const formatDate: LocalDateTime -> string

    constructor(dynamoDBRepository: DynamoDBRepository<EventTableEntity>, formatDate: LocalDateTime -> string)
      ensures this.dynamoDBRepository == dynamoDBRepository && this.formatDate == formatDate
    {
      this.dynamoDBRepository, this.formatDate := dynamoDBRepository, formatDate;
    }

    /** `findAllEvents()`: one unrestricted scan, read as events. */
    method FindAllEvents() returns (events: seq<Event>)
      modifies dynamoDBRepository.table
      ensures events == ToEvents(ToEntities(old(dynamoDBRepository.table.Answer(ScanRequest(None)))))
      ensures dynamoDBRepository.table.history == old(dynamoDBRepository.table.history) + [ScanRequest(None)]
    {
      var items := dynamoDBRepository.FindAll();
      events := ToEvents(items);
    }

    /**
     * `findEventsByEventTypeAndDatesBetween(type, start, end)`: the items of the type's partition whose
     * date string lies between the two formatted dates.
     */
    method FindEventsByEventTypeAndDatesBetween(eventType: EventType, startDate: LocalDateTime, endDate: LocalDateTime)
      returns (events: seq<Event>)
      modifies dynamoDBRepository.table
      ensures var req := QueryRequest(DateRange(eventType, formatDate(startDate), formatDate(endDate)));
        events == ToEvents(ToEntities(old(dynamoDBRepository.table.Answer(req))))
        && dynamoDBRepository.table.history == old(dynamoDBRepository.table.history) + [req]
    {
      var r := dynamoDBRepository.FindAllByPKAndSKBetween(
        StringKey(Name(eventType)), Some(StringKey(formatDate(startDate))), Some(StringKey(formatDate(endDate))));
      events := RepositoryToEvents(r.value);
    }
  }
}
