/** The domain value `Order` (`model/Order.kt`). */
module Orders {
  import opened Platform

  datatype Order = Order(id: string, productName: string, email: string, amount: Int32, place: Int32)
}

/** The single-table item `MainTableEntity`, which stores both orders and users, and its mapping to orders. */
module MainTableEntities {
  import opened Wrappers
  import opened Platform
  import opened Orders

  /** The table every `MainTableEntity` instance reports. */
  const MainTableName := "main_table"

  /**
   * `MainTableEntity(pk, sk, productName = "", emailLsiSk = "", amount = null, place = null,
   * userName = "", age = null)`. `productName` is the partition key of the `ProductNameGSI` index and
   * `emailLsiSk` the sort key of the `EmailLSI` index.
   */
  datatype MainTableEntity = MainTableEntity(
    pk: string,
    sk: string,
    productName: string := "",
    emailLsiSk: string := "",
    amount: Option<Int32> := None,
    place: Option<Int32> := None,
    userName: Option<string> := Some(""),
    age: Option<Int32> := None)
  {
    /** `tableName`: the same for every instance. */
    function TableName(): (r: string)
      ensures r == MainTableName && |r| == 10
    {
      MainTableName
    }
  }

  /** An entity built from its two keys alone carries the declared defaults. */
  lemma Defaults(pk: string, sk: string)
    ensures var e := MainTableEntity(pk, sk);
      && e.productName == "" && e.emailLsiSk == "" && e.amount == None && e.place == None
      && e.userName == Some("") && e.age == None
  {
  }

  /** The `Class` object of `MainTableEntity`: annotated, a `TableEntity`, bound to `main_table`. */
  const MainTableEntityClass := EntityClass(
    "com.sjyt.springboot_dynamodb.entity.MainTableEntity", "MainTableEntity", MainTableName, true, true)

  /** Kotlin's `x ?: 0` on an `Int?`. */
  function OrZero(x: Option<Int32>): (r: Int32)
    ensures x.Some? ==> r == x.value
    ensures x.None? ==> r == 0
  {
    if x.Some? then x.value else 0
  }

  /**
   * `MainTableEntity.toOrder()`: the order id is the sort key, the e-mail is the LSI sort key and a
   * missing amount or place reads as 0. Partition key, user name and age are not consulted.
   */
  function ToOrder(e: MainTableEntity): (o: Order)
    ensures o.id == e.sk && o.productName == e.productName && o.email == e.emailLsiSk
    ensures o.amount == OrZero(e.amount) && o.place == OrZero(e.place)
  {
    Order(e.sk, e.productName, e.emailLsiSk, OrZero(e.amount), OrZero(e.place))
  }

  /** Entities that differ only in the attributes an order does not carry give the same order. */
  lemma ToOrderIgnoresUserAttributes(e: MainTableEntity, pk: string, userName: Option<string>, age: Option<Int32>)
    ensures ToOrder(e.(pk := pk, userName := userName, age := age)) == ToOrder(e)
  {
  }

  /** A stored null amount and a stored zero amount read back as the same order. */
  lemma ToOrderConflatesNullAndZero(e: MainTableEntity)
    ensures ToOrder(e.(amount := None)) == ToOrder(e.(amount := Some(0)))
    ensures ToOrder(e.(place := None)) == ToOrder(e.(place := Some(0)))
  {
  }

  /** `List<MainTableEntity>.toOrders()`, which writes the mapping out inline: it agrees with `toOrder` item by item. */
  function ToOrders(es: seq<MainTableEntity>): (os: seq<Order>)
    ensures |os| == |es|
    ensures forall i :: 0 <= i < |es| ==> os[i] == ToOrder(es[i])
  {
    seq(|es|, i requires 0 <= i < |es| =>
      Order(es[i].sk, es[i].productName, es[i].emailLsiSk,
            if es[i].amount.Some? then es[i].amount.value else 0,
            if es[i].place.Some? then es[i].place.value else 0))
  }
}

/** The domain value `User` and its mapping into the main table. */
module Users {
  import opened Wrappers
  import opened Platform
  import opened MainTableEntities

  datatype User = User(name: string, email: string, age: Int32) {
    /**
     * `toMainTableEntity()`: a user is stored in partition `USER` under its e-mail, with an empty LSI sort
     * key, no product, amount or place.
     */
    function ToMainTableEntity(): (e: MainTableEntity)
      ensures e.pk == "USER" && e.sk == email && e.emailLsiSk == "" && e.productName == ""
      ensures e.userName == Some(name) && e.age == Some(age)
      ensures e.amount == None && e.place == None
    {
      MainTableEntity(pk := "USER", sk := email, emailLsiSk := "", userName := Some(name), age := Some(age))
    }
  }
}

/** The event kinds, and their string form in the event table's partition key. */
module EventTypes {
  datatype EventType = CLICK | SEND | UNKNOWN

  /** `toString()` of the enum constant: its name. */
  function Name(t: EventType): (r: string)
    ensures r in {"CLICK", "SEND", "UNKNOWN"}
  {
    match t
    case CLICK => "CLICK"
    case SEND => "SEND"
    case UNKNOWN => "UNKNOWN"
  }

  /** `EventType.init(s)`: an exact, case-sensitive match of the two known names; anything else is UNKNOWN. */
  function Init(s: string): (t: EventType)
    ensures t == CLICK <==> s == "CLICK"
    ensures t == SEND <==> s == "SEND"
    ensures t == UNKNOWN <==> s != "CLICK" && s != "SEND"
  {
    if s == "CLICK" then CLICK
    else if s == "SEND" then SEND
    else UNKNOWN
  }

  /** Parsing a name gives the constant back, UNKNOWN included. */
  lemma InitName(t: EventType)
    ensures Init(Name(t)) == t
  {
  }

  /** A string survives parse-then-print exactly when it is one of the three names. */
  lemma NameInit(s: string)
    ensures Name(Init(s)) == s <==> s in {"CLICK", "SEND", "UNKNOWN"}
  {
  }

  /** Distinct kinds have distinct names, so each kind owns its own partition. */
  lemma NameInjective(t1: EventType, t2: EventType)
    ensures Name(t1) == Name(t2) <==> t1 == t2
  {
    InitName(t1);
    InitName(t2);
  }
}

/** The domain value `Event` and the event table's item `EventTableEntity`, which map onto each other. */
module Events {
  import opened Platform
  import opened EventTypes

  /** The table every `EventTableEntity` instance reports. */
  const EventTableName := "event_table"

  /** `EventTableEntity(eventType = "", date)`: partition key the kind's name, sort key the date. */
  datatype EventTableEntity = EventTableEntity(eventType: string := "", date: LocalDateTime) {
    /** `tableName`: the same for every instance. */
    function TableName(): (r: string)
      ensures r == EventTableName && |r| == 11
    {
      EventTableName
    }
  }

  /** The `Class` object of `EventTableEntity`. */
  const EventTableEntityClass := EntityClass(
    "com.sjyt.springboot_dynamodb.entity.EventTableEntity", "EventTableEntity", EventTableName, true, true)

  datatype Event = Event(eventType: EventType, date: LocalDateTime) {
    /** `toEventTableEntity()`: the kind is stored by name. */
    function ToEventTableEntity(): (e: EventTableEntity)
      ensures e.eventType == Name(eventType) && e.date == date
      ensures e.eventType in {"CLICK", "SEND", "UNKNOWN"}
      ensures ToEvent(e) == this
    {
      InitName(eventType);
      EventTableEntity(Name(eventType), date)
    }
  }

  /** `EventTableEntity.toEvent()`: the stored name is parsed back with `EventType.init`. */
  function ToEvent(e: EventTableEntity): (ev: Event)
    ensures ev.eventType == Init(e.eventType) && ev.date == e.date
  {
    Event(Init(e.eventType), e.date)
  }

  /** An item survives the trip through `Event` exactly when its stored kind is one of the three names. */
  lemma EntityRoundTrip(e: EventTableEntity)
    ensures ToEvent(e).ToEventTableEntity() == e <==> e.eventType in {"CLICK", "SEND", "UNKNOWN"}
  {
    NameInit(e.eventType);
  }

  /** An item whose kind was left at its default `""` reads as UNKNOWN. */
  lemma DefaultKindIsUnknown(date: LocalDateTime)
    ensures ToEvent(EventTableEntity(date := date)).eventType == UNKNOWN
  {
  }

  /** Through `Event` and back, a stored kind that is not one of the three names becomes `"UNKNOWN"`. */
  lemma EntityRoundTripNormalises(e: EventTableEntity)
    ensures ToEvent(e).ToEventTableEntity().date == e.date
    ensures ToEvent(e).ToEventTableEntity().eventType
         == if e.eventType in {"CLICK", "SEND", "UNKNOWN"} then e.eventType else "UNKNOWN"
  {
  }

  /** `List<EventTableEntity>.toEvents()`, written out inline: it agrees with `toEvent` item by item. */
  function ToEvents(es: seq<EventTableEntity>): (evs: seq<Event>)
    ensures |evs| == |es|
    ensures forall i :: 0 <= i < |es| ==> evs[i] == ToEvent(es[i])
  {
    seq(|es|, i requires 0 <= i < |es| => Event(Init(es[i].eventType), es[i].date))
  }
}

/** The pair of item lists a batch read of both tables returns, and its conversion to domain values. */
module OrdersAndEventsModel {
  import opened Orders
  import opened MainTableEntities
  import opened Events

  datatype OrdersAndEvents = OrdersAndEvents(orders: seq<Order>, events: seq<Event>)

  datatype MainAndEventTableEntities = MainAndEventTableEntities(
    mainTableEntities: seq<MainTableEntity>,
    eventTableEntities: seq<EventTableEntity>)
  {
    /** `toOrdersAndEvents()`: each list is converted on its own, order and length kept. */
    function ToOrdersAndEvents(): (r: OrdersAndEvents)
      ensures |r.orders| == |mainTableEntities| && |r.events| == |eventTableEntities|
      ensures forall i :: 0 <= i < |mainTableEntities| ==> r.orders[i] == ToOrder(mainTableEntities[i])
      ensures forall i :: 0 <= i < |eventTableEntities| ==> r.events[i] == ToEvent(eventTableEntities[i])
    {
      OrdersAndEvents(ToOrders(mainTableEntities), ToEvents(eventTableEntities))
    }
  }
}
