/**
 * The key codec and page flattening of the DynamoDB extension functions: key arguments are dispatched
 * on their run-time type, encoded into a `Key.Builder`, and paginated results are flattened.
 */
module DynamoDBExtensions {
  import opened Wrappers
  import opened Platform
  import opened Collections
  import opened SecondaryIndexes

  /**
   * A key argument as the extension functions receive it: the generic `PK` / `SK` erased to its
   * run-time type. `UnsupportedKey` is every other type; for a partition key that includes null.
   */
  datatype KeyValue =
    | StringKey(s: string)
    | NumberKey(n: int)
    | BytesKey(bytes: seq<bv8>)
    | AttributeKey(value: AttributeValue)
    | UnsupportedKey(typeName: string)

  /** `IllegalArgumentException("Unsupported type for primary key")`. */
  datatype KeyError = UnsupportedKeyType

  /** A run-time type the codec can encode. */
  predicate IsSupported(v: KeyValue) {
    !v.UnsupportedKey?
  }

  /** The `when (pk) { is String -> ...; is Number -> ...; ... else -> throw }` dispatch. */
  function Encode(v: KeyValue): (r: Result<AttributeValue, KeyError>)
    ensures r.Success? <==> IsSupported(v)
    ensures v.AttributeKey? ==> r == Success(v.value)
  {
    match v
    case StringKey(s) => Success(S(s))
    case NumberKey(n) => Success(N(n))
    case BytesKey(b) => Success(B(b))
    case AttributeKey(a) => Success(a)
    case UnsupportedKey(_) => Failure(UnsupportedKeyType)
  }

  /** The typed key value an attribute value stands for. */
  function Decode(a: AttributeValue): (v: KeyValue)
    ensures IsSupported(v) && !v.AttributeKey?
  {
    match a
    case S(s) => StringKey(s)
    case N(n) => NumberKey(n)
    case B(b) => BytesKey(b)
  }

  /** Encoding inverts decoding. */
  lemma EncodeDecode(a: AttributeValue)
    ensures Encode(Decode(a)) == Success(a)
  {
  }

  /** Decoding inverts encoding for every typed (not pre-encoded) key value. */
  lemma DecodeEncode(v: KeyValue)
    requires IsSupported(v) && !v.AttributeKey?
    ensures Decode(Encode(v).value) == v
  {
  }

  /**
   * The key that `Key.builder().setPrimaryKeys(pk, sk).build()` yields, or the exception: the
   * partition is encoded first, then the sort value unless it is null.
   */
  function KeyOf(pk: KeyValue, sk: Option<KeyValue>): (r: Result<Key, KeyError>)
    ensures r.Success? <==> IsSupported(pk) && (sk.Some? ==> IsSupported(sk.value))
    ensures r.Success? ==> r.value.partitionValue == Some(Encode(pk).value)
    ensures r.Success? ==> r.value.sortValue == if sk.None? then None else Some(Encode(sk.value).value)
  {
    match Encode(pk)
    case Failure(e) => Failure(e)
    case Success(p) =>
      match sk
      case None => Success(Key(Some(p), None))
      case Some(s) =>
        match Encode(s)
        case Failure(e) => Failure(e)
        case Success(q) => Success(Key(Some(p), Some(q)))
  }

  /** A null sort value is omitted: the key is the partition-only key of `setPK(pk)`. */
  lemma KeyOfWithoutSortValue(pk: KeyValue)
    requires IsSupported(pk)
    ensures KeyOf(pk, None) == Success(Key(Some(Encode(pk).value), None))
  {
  }

  /** The items of one page. */
  function ItemsOf<T>(p: Page<T>): seq<T> {
    p.items
  }

  /** `toEntities()` on a `PageIterable` or an `SdkIterable<Page>`: `flatMap { it.items() }`. */
  function ToEntities<T>(pages: seq<Page<T>>): (r: seq<T>)
    ensures pages == [] ==> r == []
  {
    FlatMap(pages, ItemsOf)
  }

  /** Pages are flattened in order: the items of earlier pages come first. */
  lemma ToEntitiesAppend<T>(a: seq<Page<T>>, b: seq<Page<T>>)
    ensures ToEntities(a + b) == ToEntities(a) + ToEntities(b)
  {
    FlatMapAppend(a, b, ItemsOf);
  }

  /** A single page flattens to its own items, unchanged. */
  lemma ToEntitiesSingle<T>(p: Page<T>)
    ensures ToEntities([p]) == p.items
  {
    assert [p][1..] == [];
    assert FlatMap([p], ItemsOf) == ItemsOf(p) + FlatMap([p][1..], ItemsOf);
  }

  /** Page `i` sits in the flattened list right after the items of pages `0..i`. */
  lemma ToEntitiesAt<T>(pages: seq<Page<T>>, i: nat)
    requires i < |pages|
    ensures ToEntities(pages) == ToEntities(pages[..i]) + pages[i].items + ToEntities(pages[i + 1..])
  {
    FlatMapAt(pages, ItemsOf, i);
  }

  /** Nothing is invented or dropped: an item is in the result exactly when it is on some page. */
  lemma ToEntitiesMember<T>(pages: seq<Page<T>>, x: T)
    ensures x in ToEntities(pages) <==> exists i :: 0 <= i < |pages| && x in pages[i].items
  {
    FlatMapMember(pages, ItemsOf, x);
  }

  /** `Key.Builder.setPK(pk)`: sets the encoded partition value and returns the same builder. */
  method SetPK(builder: KeyBuilder, pk: KeyValue) returns (r: Result<KeyBuilder, KeyError>)
    modifies builder
    ensures r.Success? <==> IsSupported(pk)
    ensures r.Success? ==> r.value == builder && builder.partitionValue == Some(Encode(pk).value)
    ensures r.Failure? ==> builder.partitionValue == old(builder.partitionValue)
    ensures builder.sortValue == old(builder.sortValue)
  {
    match pk {
      case StringKey(s) => builder.SetPartitionValue(S(s));
      case NumberKey(n) => builder.SetPartitionValue(N(n));
      case BytesKey(b) => builder.SetPartitionValue(B(b));
      case AttributeKey(a) => builder.SetPartitionValue(a);
      case UnsupportedKey(_) => return Failure(UnsupportedKeyType);
    }
    return Success(builder);
  }

  /** `Key.Builder.setSK(sk)`: null leaves the builder alone; otherwise as `setPK`, for the sort value. */
  method SetSK(builder: KeyBuilder, sk: Option<KeyValue>) returns (r: Result<KeyBuilder, KeyError>)
    modifies builder
    ensures r.Success? <==> (sk.Some? ==> IsSupported(sk.value))
    ensures r.Success? ==> r.value == builder
    ensures sk.None? ==> builder.sortValue == old(builder.sortValue)
    ensures sk.Some? && r.Success? ==> builder.sortValue == Some(Encode(sk.value).value)
    ensures r.Failure? ==> builder.sortValue == old(builder.sortValue)
    ensures builder.partitionValue == old(builder.partitionValue)
  {
    if sk.None? {
      return Success(builder);
    }
    match sk.value {
      case StringKey(s) => builder.SetSortValue(S(s));
      case NumberKey(n) => builder.SetSortValue(N(n));
      case BytesKey(b) => builder.SetSortValue(B(b));
      case AttributeKey(a) => builder.SetSortValue(a);
      case UnsupportedKey(_) => return Failure(UnsupportedKeyType);
    }
    return Success(builder);
  }

  /**
   * `Key.Builder.setPrimaryKeys(pk, sk)`: `setPK` then `setSK` on the same builder. With a null `sk` the
   * effect is that of `setPK(pk)` alone; a failing `sk` leaves the partition value already set.
   */
  method SetPrimaryKeys(builder: KeyBuilder, pk: KeyValue, sk: Option<KeyValue>) returns (r: Result<KeyBuilder, KeyError>)
    modifies builder
    ensures r.Success? <==> KeyOf(pk, sk).Success?
    ensures r.Success? ==> r.value == builder
    ensures IsSupported(pk) ==> builder.partitionValue == Some(Encode(pk).value)
    ensures !IsSupported(pk) ==> builder.partitionValue == old(builder.partitionValue)
    ensures sk.None? || r.Failure? ==> builder.sortValue == old(builder.sortValue)
    ensures r.Success? && sk.Some? ==> builder.Current() == KeyOf(pk, sk).value
    ensures r.Success? && old(builder.sortValue) == None ==> builder.Current() == KeyOf(pk, sk).value
  {
    var p := SetPK(builder, pk);
    if p.Failure? {
      return Failure(p.error);
    }
    r := SetSK(p.value, sk);
    if r.Success? {
      r := Success(builder);
    }
  }

  /**
   * `Key.Builder.setPrimaryKeys(secondaryIndex)`: `setPK(index.pk)` then `setSK(index.sk)`. The index
   * name plays no part: the effect is stated in terms of `pk` and `sk` only.
   */
  method SetPrimaryKeysOf(builder: KeyBuilder, index: SecondaryIndex<KeyValue, KeyValue>) returns (r: Result<KeyBuilder, KeyError>)
    modifies builder
    ensures r.Success? <==> KeyOf(index.pk, index.sk).Success?
    ensures r.Success? ==> r.value == builder
    ensures IsSupported(index.pk) ==> builder.partitionValue == Some(Encode(index.pk).value)
    ensures !IsSupported(index.pk) ==> builder.partitionValue == old(builder.partitionValue)
    ensures index.sk.None? || r.Failure? ==> builder.sortValue == old(builder.sortValue)
    ensures r.Success? && index.sk.Some? ==> builder.Current() == KeyOf(index.pk, index.sk).value
    ensures r.Success? && old(builder.sortValue) == None ==> builder.Current() == KeyOf(index.pk, index.sk).value
  {
    var p := SetPK(builder, index.pk);
    if p.Failure? {
      return Failure(p.error);
    }
    var s := SetSK(p.value, index.sk);
    if s.Failure? {
      return Failure(s.error);
    }
    return Success(builder);
  }
}
