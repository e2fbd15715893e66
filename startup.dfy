/**
 * `DynamicNoSQLRepositoryConfig`: at start-up, one table-bound repository per entity class found in the
 * entity package, registered as a bean definition and as a singleton.
 */
module NoSQLRepositoryConfig {
  import opened Platform
  import opened Strings
  import opened Repository
  import opened EntityScanner
  import opened BeanRegistry

  /** The only package searched for entity classes. */
  const PackageToScan := "com.sjyt.springboot_dynamodb.entity"

  /** The bean class every definition names. */
  const DefinitionBeanClass := "DynamoDBRepository"

  /**
   * `"${simpleName.replace("Entity", "").replaceFirstChar { it.lowercase() }}Repository"`: remove every
   * `Entity`, lower-case the first character, append `Repository`.
   */
  function BeanName(simpleName: string): (r: string)
    ensures EndsWith(r, "Repository")
    ensures |r| <= |simpleName| + 10
  {
    var stem := LowerFirst(ReplaceAll(simpleName, "Entity", ""));
    assert (stem + "Repository")[|stem|..] == "Repository";
    stem + "Repository"
  }

  /**
   * Before an `Entity` that follows a part holding none, no `Entity` starts: not inside the part, and not
   * straddling into the `Entity`, because no later letter of `Entity` is an `E`.
   */
  lemma NoEntityBefore(part: string, rest: string)
    requires Absent(part, "Entity")
    ensures forall i :: 0 <= i < |part| ==> !OccursAt(part + ("Entity" + rest), "Entity", i)
  {
    var s := part + ("Entity" + rest);
    assert s[|part|] == 'E';
    forall i | 0 <= i < |part|
      ensures !OccursAt(s, "Entity", i)
    {
      if i + 6 <= |part| {
        assert s[i..i + 6] == part[i..i + 6];
        assert !OccursAt(part, "Entity", i);
      } else if i + 6 <= |s| {
        var d := |part| - i;
        assert 1 <= d < 6;
        assert s[i..i + 6][d] == 'E';
        assert "Entity"[d] != 'E';
      }
    }
  }

  /** An `Entity` after a part that holds none: the part is kept, that `Entity` removed, and the search resumes after it. */
  lemma {:induction false} EntityRemovedAfter(part: string, rest: string)
    requires Absent(part, "Entity")
    ensures ReplaceAll(part + "Entity" + rest, "Entity", "") == part + ReplaceAll(rest, "Entity", "")
  {
    var m := "Entity" + rest;
    var s := part + m;
    assert part + "Entity" + rest == s;
    NoEntityBefore(part, rest);
    ReplaceAllSkipsUpTo(s, "Entity", "", |part|);
    assert s[..|part|] == part && s[|part|..] == m;
    assert m[..6] == "Entity" && m[6..] == rest;
    ReplaceAllAtMatch(m, "Entity", "");
  }

  /** A name built from its pieces with an `Entity` between each two: `[p0, p1, p2]` is `p0Entityp1Entityp2`. */
  function JoinedByEntity(pieces: seq<string>): string
    requires pieces != []
  {
    if |pieces| == 1 then pieces[0] else pieces[0] + "Entity" + JoinedByEntity(pieces[1..])
  }

  /** The pieces, concatenated in order. */
  function Concat(pieces: seq<string>): string {
    if pieces == [] then "" else pieces[0] + Concat(pieces[1..])
  }

  /** No piece holds an `Entity`. */
  predicate EntityFreePieces(pieces: seq<string>) {
    forall k :: 0 <= k < |pieces| ==> Absent(pieces[k], "Entity")
  }

  /**
   * When a name is split at `Entity`s into pieces that hold none, `replace("Entity", "")` removes
   * exactly those `Entity`s: every piece survives whole and in order.
   */
  lemma {:induction false} EntityRemovedBetweenPieces(pieces: seq<string>)
    requires pieces != [] && EntityFreePieces(pieces)
    ensures ReplaceAll(JoinedByEntity(pieces), "Entity", "") == Concat(pieces)
  {
    if |pieces| == 1 {
      ReplaceAllAbsent(pieces[0], "Entity", "");
      assert pieces[1..] == [];
    } else {
      var rest := pieces[1..];
      assert EntityFreePieces(rest) by {
        forall k | 0 <= k < |rest|
          ensures Absent(rest[k], "Entity")
        {
          assert rest[k] == pieces[k + 1];
        }
      }
      EntityRemovedAfter(pieces[0], JoinedByEntity(rest));
      EntityRemovedBetweenPieces(rest);
    }
  }

  /** A joined name begins with its first piece. */
  lemma {:induction false} JoinedStartsWithFirst(pieces: seq<string>)
    requires pieces != []
    ensures |pieces[0]| <= |JoinedByEntity(pieces)| && JoinedByEntity(pieces)[..|pieces[0]|] == pieces[0]
  {
    if |pieces| > 1 {
      var j := JoinedByEntity(pieces);
      assert j == pieces[0] + ("Entity" + JoinedByEntity(pieces[1..]));
    }
  }

  /** A leading `Entity` adds an empty first piece. */
  lemma {:induction false} SplitAfterEntity(p: seq<string>)
    requires p != [] && EntityFreePieces(p)
    ensures JoinedByEntity([""] + p) == "Entity" + JoinedByEntity(p) && EntityFreePieces([""] + p)
  {
    var pieces := [""] + p;
    assert pieces[1..] == p;
    forall k | 0 <= k < |pieces|
      ensures Absent(pieces[k], "Entity")
    {
      if k > 0 {
        assert pieces[k] == p[k - 1];
      }
    }
  }

  /** A leading character that starts no `Entity` joins the first piece. */
  lemma {:induction false} SplitKeepsFirst(c: char, p: seq<string>)
    requires p != [] && EntityFreePieces(p) && !StartsWith([c] + JoinedByEntity(p), "Entity")
    ensures var pieces := [[c] + p[0]] + p[1..];
      JoinedByEntity(pieces) == [c] + JoinedByEntity(p) && EntityFreePieces(pieces)
  {
    var first := [c] + p[0];
    var pieces := [first] + p[1..];
    JoinedStartsWithFirst(p);
    assert first == ([c] + JoinedByEntity(p))[..|first|];
    AbsentCons(c, p[0], "Entity");
    if |p| > 1 {
      assert pieces[1..] == p[1..];
      assert JoinedByEntity(pieces) == first + "Entity" + JoinedByEntity(p[1..]);
    }
    forall k | 0 <= k < |pieces|
      ensures Absent(pieces[k], "Entity")
    {
      if k > 0 {
        assert pieces[k] == p[k];
      }
    }
  }

  /**
   * Every simple name splits, at the `Entity`s the left-to-right search finds, into pieces that hold no
   * `Entity`.
   */
  function SplitAtEntity(s: string): (pieces: seq<string>)
    ensures pieces != [] && JoinedByEntity(pieces) == s && EntityFreePieces(pieces)
    decreases |s|
  {
    if |s| < 6 then
      [s]
    else if s[..6] == "Entity" then
      var p := SplitAtEntity(s[6..]);
      SplitAfterEntity(p);
      assert s == "Entity" + s[6..];
      [""] + p
    else
      var p := SplitAtEntity(s[1..]);
      assert s == [s[0]] + s[1..];
      SplitKeepsFirst(s[0], p);
      [[s[0]] + p[0]] + p[1..]
  }

  /** The bean name of a name split into `Entity`-free pieces: the pieces, first letter lowered, then `Repository`. */
  lemma {:induction false} BeanNameOfPieces(pieces: seq<string>)
    requires pieces != [] && EntityFreePieces(pieces)
    ensures BeanName(JoinedByEntity(pieces)) == LowerFirst(Concat(pieces)) + "Repository"
  {
    EntityRemovedBetweenPieces(pieces);
  }

  /** Every simple name's bean name: the pieces between its `Entity`s, first letter lowered, then `Repository`. */
  lemma {:induction false} BeanNameOfAnyName(simpleName: string)
    ensures BeanName(simpleName) == LowerFirst(Concat(SplitAtEntity(simpleName))) + "Repository"
  {
    BeanNameOfPieces(SplitAtEntity(simpleName));
  }

  /** The bean name of a name with an `Entity` after a part that holds none. */
  lemma {:induction false} BeanNameOfEntityName(part: string, rest: string)
    requires Absent(part, "Entity")
    ensures BeanName(part + "Entity" + rest) == LowerFirst(part + ReplaceAll(rest, "Entity", "")) + "Repository"
  {
    EntityRemovedAfter(part, rest);
  }

  /** A simple name without any `Entity` only has its first letter lowered. */
  lemma {:induction false} BeanNameWithoutEntity(simpleName: string)
    requires Absent(simpleName, "Entity")
    ensures BeanName(simpleName) == LowerFirst(simpleName) + "Repository"
  {
    ReplaceAllAbsent(simpleName, "Entity", "");
  }

  /** `MainTableEntity` split around its `Entity`. */
  lemma {:induction false} MainTableParts(simpleName: string)
    requires simpleName == "MainTableEntity"
    ensures simpleName == "MainTable" + "Entity" + "" && Absent("MainTable", "Entity")
  {
    AbsentWithoutFirst("MainTable", "Entity");
  }

  /** `MainTable`, lowered and suffixed. */
  lemma {:induction false} MainTableLowered(stem: string)
    requires stem == "MainTable" + ""
    ensures LowerFirst(stem) + "Repository" == "mainTableRepository"
  {
    assert LowerAscii('M') == 'm';
  }

  /** The main table's entity class is registered as `mainTableRepository`. */
  lemma {:induction false} MainTableBeanName(simpleName: string)
    requires simpleName == "MainTableEntity"
    ensures BeanName(simpleName) == "mainTableRepository"
  {
    MainTableParts(simpleName);
    BeanNameOfEntityName("MainTable", "");
    ReplaceAllShort("", "Entity", "");
    MainTableLowered("MainTable" + "");
  }

  /** `EventTableEntity` split around its trailing `Entity`: the leading `E` starts no match. */
  lemma {:induction false} EventTableParts(simpleName: string)
    requires simpleName == "EventTableEntity"
    ensures simpleName == "EventTable" + "Entity" + "" && Absent("EventTable", "Entity")
  {
    AbsentWithoutFirst("ventTable", "Entity");
    assert "EventTable" == ['E'] + "ventTable";
    assert "EventTable"[1] != "Entity"[1];
    AbsentCons('E', "ventTable", "Entity");
  }

  /** `EventTable`, lowered and suffixed. */
  lemma {:induction false} EventTableLowered(stem: string)
    requires stem == "EventTable" + ""
    ensures LowerFirst(stem) + "Repository" == "eventTableRepository"
  {
    assert LowerAscii('E') == 'e';
  }

  /** The event table's entity class is registered as `eventTableRepository`. */
  lemma {:induction false} EventTableBeanName(simpleName: string)
    requires simpleName == "EventTableEntity"
    ensures BeanName(simpleName) == "eventTableRepository"
  {
    EventTableParts(simpleName);
    BeanNameOfEntityName("EventTable", "");
    ReplaceAllShort("", "Entity", "");
    EventTableLowered("EventTable" + "");
  }

  /** An empty simple name gives the bare suffix. */
  lemma EmptyBeanName()
    ensures BeanName("") == "Repository"
  {
  }

  /** Names can collide: a class `MainTable` and a class `MainTableEntity` get the same bean name. */
  lemma {:induction false} BeanNameCollision(a: string, b: string)
    requires a == "MainTable" && b == "MainTableEntity"
    ensures BeanName(a) == BeanName(b)
  {
    MainTableBeanName(b);
    AbsentWithoutFirst(a, "Entity");
    BeanNameWithoutEntity(a);
    MainTableLowered(a);
  }

  /** `EntEntityity` split around its inner `Entity`: `Ent` is too short to hold one. */
  lemma {:induction false} SinglePassParts(simpleName: string)
    requires simpleName == "EntEntityity"
    ensures simpleName == "Ent" + "Entity" + "ity" && Absent("Ent", "Entity")
  {
  }

  /** `Entity`, lowered and suffixed. */
  lemma {:induction false} SinglePassLowered(stem: string)
    requires stem == "Ent" + "ity"
    ensures LowerFirst(stem) + "Repository" == "entityRepository"
  {
    assert LowerAscii('E') == 'e';
  }

  /**
   * Removal is a single left-to-right pass: `EntEntityity` loses its inner `Entity`, and the `Entity`
   * this leaves behind survives into the bean name.
   */
  lemma {:induction false} BeanNameSinglePass(simpleName: string)
    requires simpleName == "EntEntityity"
    ensures BeanName(simpleName) == "entityRepository"
  {
    SinglePassParts(simpleName);
    BeanNameOfEntityName("Ent", "ity");
    ReplaceAllShort("ity", "Entity", "");
    SinglePassLowered("Ent" + "ity");
  }

  /** The bean name of an entity class. */
  function BeanNameOf(c: EntityClass): string {
    BeanName(c.simpleName)
  }

  /** The repository bean of an entity class: bound to `"${tableName}_$suffix"`. */
  function RepositoryBeanFor(tableNameSuffix: string): EntityClass -> RepositoryBean {
    (c: EntityClass) => RepositoryBean(c, PhysicalTableName(c.tableName, tableNameSuffix))
  }

  /** The definition registered with it: bean class `DynamoDBRepository`, supplier returning the bean. */
  function DefinitionFor(tableNameSuffix: string): EntityClass -> BeanDefinition {
    (c: EntityClass) => BeanDefinition(DefinitionBeanClass, RepositoryBeanFor(tableNameSuffix)(c))
  }

  /**
   * After registration, an entity class whose bean name no other discovered class shares is registered
   * under that name, both as a definition and as a singleton, bound to its own physical table.
   */
  lemma {:induction false} RegisteredEntity(defs: map<string, BeanDefinition>, singletons: map<string, RepositoryBean>,
                         entities: seq<EntityClass>, tableNameSuffix: string, j: nat)
    requires j < |entities|
    requires forall k :: 0 <= k < |entities| && k != j ==> BeanNameOf(entities[k]) != BeanNameOf(entities[j])
    ensures var name := BeanName(entities[j].simpleName);
      var bean := RepositoryBean(entities[j], PhysicalTableName(entities[j].tableName, tableNameSuffix));
      && Register(defs, entities, BeanNameOf, DefinitionFor(tableNameSuffix))[name] == BeanDefinition(DefinitionBeanClass, bean)
      && Register(singletons, entities, BeanNameOf, RepositoryBeanFor(tableNameSuffix))[name] == bean
  {
    RegisterLastWins(defs, entities, BeanNameOf, DefinitionFor(tableNameSuffix), j);
    RegisterLastWins(singletons, entities, BeanNameOf, RepositoryBeanFor(tableNameSuffix), j);
  }

  /** One more iteration of the registration loop: the fold over the first `i + 1` classes, by one update. */
  lemma {:induction false} RegisterStep(definitions: map<string, BeanDefinition>, singletons: map<string, RepositoryBean>,
                     entities: seq<EntityClass>, i: nat, tableNameSuffix: string)
    requires i < |entities|
    ensures var c := entities[i];
      var bean := RepositoryBean(c, PhysicalTableName(c.tableName, tableNameSuffix));
      && Register(definitions, entities[..i + 1], BeanNameOf, DefinitionFor(tableNameSuffix))
         == Register(definitions, entities[..i], BeanNameOf, DefinitionFor(tableNameSuffix))[BeanName(c.simpleName) := BeanDefinition(DefinitionBeanClass, bean)]
      && Register(singletons, entities[..i + 1], BeanNameOf, RepositoryBeanFor(tableNameSuffix))
         == Register(singletons, entities[..i], BeanNameOf, RepositoryBeanFor(tableNameSuffix))[BeanName(c.simpleName) := bean]
  {
    assert entities[..i + 1] == entities[..i] + [entities[i]];
    RegisterSnoc(definitions, entities[..i], entities[i], BeanNameOf, DefinitionFor(tableNameSuffix));
    RegisterSnoc(singletons, entities[..i], entities[i], BeanNameOf, RepositoryBeanFor(tableNameSuffix));
  }

  class DynamicNoSQLRepositoryConfig {
    /** What `dynamoDBEntityScanner` sees of the class path. */
    const classPath: ClassPath
    /** `applicationContext.beanFactory`. */
    const beanFactory: BeanFactory
    const tableNameSuffix: string

    constructor(classPath: ClassPath, beanFactory: BeanFactory, tableNameSuffix: string)
      ensures this.classPath == classPath && this.beanFactory == beanFactory && this.tableNameSuffix == tableNameSuffix
    {
      this.classPath, this.beanFactory, this.tableNameSuffix := classPath, beanFactory, tableNameSuffix;
    }

    /**
     * `registerNoSQLRepositories()`: every class the scan finds, in scan order, is registered under its
     * bean name, as a definition and as a singleton; a later class overwrites an earlier one's name.
     */
    method RegisterNoSQLRepositories()
      modifies beanFactory
      ensures var entities := FindAnnotatedClassesInPackage(classPath, PackageToScan);
        && beanFactory.definitions == Register(old(beanFactory.definitions), entities, BeanNameOf, DefinitionFor(tableNameSuffix))
        && beanFactory.singletons == Register(old(beanFactory.singletons), entities, BeanNameOf, RepositoryBeanFor(tableNameSuffix))
    {
      var tableEntities := FindAnnotatedClassesInPackage(classPath, PackageToScan);
      ghost var definitions0, singletons0 := beanFactory.definitions, beanFactory.singletons;
      var i := 0;
      while i < |tableEntities|
        invariant 0 <= i <= |tableEntities|
        invariant beanFactory.definitions == Register(definitions0, tableEntities[..i], BeanNameOf, DefinitionFor(tableNameSuffix))
        invariant beanFactory.singletons == Register(singletons0, tableEntities[..i], BeanNameOf, RepositoryBeanFor(tableNameSuffix))
      {
        var entityClass := tableEntities[i];
        var tableName := PhysicalTableName(entityClass.tableName, tableNameSuffix);
        var repositoryBean := RepositoryBean(entityClass, tableName);
        var beanName := BeanName(entityClass.simpleName);
        RegisterGenericBean(entityClass, repositoryBean, beanName);
        RegisterStep(definitions0, singletons0, tableEntities, i, tableNameSuffix);
        i := i + 1;
      }
      assert tableEntities[..i] == tableEntities;
    }

    /** `registerGenericBean(entityClass, repositoryBean, beanName)`: one definition, then one singleton. */
    method RegisterGenericBean(entityClass: EntityClass, repositoryBean: RepositoryBean, beanName: string)
      modifies beanFactory
      ensures beanFactory.definitions == old(beanFactory.definitions)[beanName := BeanDefinition(DefinitionBeanClass, repositoryBean)]
      ensures beanFactory.singletons == old(beanFactory.singletons)[beanName := repositoryBean]
    {
      var beanDefinition := BeanDefinition(DefinitionBeanClass, repositoryBean);
      beanFactory.RegisterBeanDefinition(beanName, beanDefinition);
      beanFactory.RegisterSingleton(beanName, repositoryBean);
    }
  }
}

/**
 * `DynamicDynamoDBRepositoryBeanRegistrar`: at start-up, one repository from the factory per
 * `@DynamoDbBean` class under the root package, registered as a bean definition.
 */
module BeanRegistrar {
  import opened Platform
  import opened Strings
  import opened Collections
  import opened BeanRegistry

  /** The bean class every definition names. */
  const DefinitionBeanClass := "NoSQLRepository"

  /** `simpleName.replaceFirstChar { it.lowercase() }`. */
  function BeanName(simpleName: string): (r: string)
    ensures |r| == |simpleName|
    ensures simpleName != [] ==> r[0] == LowerAscii(simpleName[0]) && r[1..] == simpleName[1..]
    ensures simpleName != [] && !('A' <= simpleName[0] <= 'Z') ==> r == simpleName
  {
    LowerFirst(simpleName)
  }

  /** `MainTableEntity` is registered as `mainTableEntity`. */
  lemma BeanNameExample()
    ensures BeanName("MainTableEntity") == "mainTableEntity"
  {
    assert BeanName("MainTableEntity") == ['m'] + "ainTableEntity";
  }

  /** The bean name of an entity class. */
  function BeanNameOf(c: EntityClass): string {
    BeanName(c.simpleName)
  }

  /**
   * The run-time test `filterIsInstance<Class<TableEntity>>()` performs: the type argument is erased, so
   * it only asks whether the element is a `Class`, which every element of the scan is.
   */
  predicate IsInstanceOfErasedClass(c: EntityClass) {
    true
  }

  /** `filterIsInstance<Class<TableEntity>>()` as written. */
  function FilterIsInstanceAsWritten(cs: seq<EntityClass>): seq<EntityClass> {
    Filter(cs, IsInstanceOfErasedClass)
  }

  /** As written, the filter keeps every class, `TableEntity` or not. */
  lemma {:induction false} FilterIsInstanceKeepsAll(cs: seq<EntityClass>)
    ensures FilterIsInstanceAsWritten(cs) == cs
  {
    if cs != [] {
      FilterIsInstanceKeepsAll(cs[1..]);
      assert cs == [cs[0]] + cs[1..];
    }
  }

  /** An annotated class that is not a `TableEntity` gets through, and would be handed to the factory. */
  lemma FilterIsInstanceCounterexample()
    ensures var dto := EntityClass("com.example.OrderDto", "OrderDto", "", true, false);
      dto in FilterIsInstanceAsWritten([dto]) && !dto.isTableEntity
  {
    var dto := EntityClass("com.example.OrderDto", "OrderDto", "", true, false);
    FilterIsInstanceKeepsAll([dto]);
  }

  /** Whether the class is assignable to `TableEntity`. */
  predicate IsTableEntityClass(c: EntityClass) {
    c.isTableEntity
  }

  /** The intended filter: the annotated classes that are assignable to `TableEntity`, in scan order. */
  function TableEntityClasses(cs: seq<EntityClass>): (r: seq<EntityClass>)
    ensures |r| <= |cs|
    ensures forall c :: c in r <==> c in cs && c.isTableEntity
  {
    var r := Filter(cs, IsTableEntityClass);
    assert forall c :: c in r <==> c in cs && c.isTableEntity by {
      forall c { FilterMember(cs, IsTableEntityClass, c); }
    }
    r
  }

  /** The intended filter keeps everything only when every scanned class is a `TableEntity`. */
  lemma {:induction false} TableEntityClassesKeepAll(cs: seq<EntityClass>)
    ensures TableEntityClasses(cs) == cs <==> forall c :: c in cs ==> c.isTableEntity
  {
    if cs != [] {
      TableEntityClassesKeepAll(cs[1..]);
      assert cs == [cs[0]] + cs[1..];
      if forall c :: c in cs ==> c.isTableEntity {
        assert cs[0] in cs;
      }
      if TableEntityClasses(cs) == cs {
        assert forall c :: c in cs ==> c in TableEntityClasses(cs);
      }
    }
  }

  /**
   * The filter as written and the intended one agree on a scan exactly when it finds table entities only;
   * otherwise the classes that are not `TableEntity`s reach the factory.
   */
  lemma FilterIsInstanceAgrees(cs: seq<EntityClass>)
    ensures FilterIsInstanceAsWritten(cs) == TableEntityClasses(cs) <==> forall c :: c in cs ==> c.isTableEntity
  {
    FilterIsInstanceKeepsAll(cs);
    TableEntityClassesKeepAll(cs);
  }

  /** The definition of a repository: bean class `NoSQLRepository`, supplier returning that repository. */
  function DefinitionFor(create: EntityClass -> RepositoryBean): EntityClass -> BeanDefinition {
    (c: EntityClass) => BeanDefinition(DefinitionBeanClass, create(c))
  }

  /** One more iteration of the registration loop: the fold over the first `i + 1` classes, by one update. */
  lemma {:induction false} RegisterStep(definitions: map<string, BeanDefinition>, entities: seq<EntityClass>,
                                        i: nat, create: EntityClass -> RepositoryBean)
    requires i < |entities|
    ensures Register(definitions, entities[..i + 1], BeanNameOf, DefinitionFor(create))
         == Register(definitions, entities[..i], BeanNameOf, DefinitionFor(create))[BeanName(entities[i].simpleName) := BeanDefinition(DefinitionBeanClass, create(entities[i]))]
  {
    assert entities[..i + 1] == entities[..i] + [entities[i]];
    RegisterSnoc(definitions, entities[..i], entities[i], BeanNameOf, DefinitionFor(create));
  }

  class DynamicDynamoDBRepositoryBeanRegistrar {
    /** `rootPackageDetector.getRootPackage()`. */
    const rootPackage: string
    /** `Reflections(rootPackage).getTypesAnnotatedWith(DynamoDbBean)`. */
    const typesAnnotatedWith: string -> seq<EntityClass>
    /** `dynamoDBRepositoryFactory.create(entityClass)`. */
    const create: EntityClass -> RepositoryBean
    /** `applicationContext.beanFactory`. */
    const beanFactory: BeanFactory

    constructor(rootPackage: string, typesAnnotatedWith: string -> seq<EntityClass>,
                create: EntityClass -> RepositoryBean, beanFactory: BeanFactory)
      ensures this.rootPackage == rootPackage && this.typesAnnotatedWith == typesAnnotatedWith
      ensures this.create == create && this.beanFactory == beanFactory
    {
      this.rootPackage, this.typesAnnotatedWith, this.create, this.beanFactory :=
        rootPackage, typesAnnotatedWith, create, beanFactory;
    }

    /**
     * `registerRepositories()` as written: the erased `filterIsInstance` keeps every annotated class, so
     * the factory is called once per scanned class, `TableEntity` or not, in scan order, and each call is
     * followed by the registration of what it produced. Singletons are not touched.
     */
    method RegisterRepositories() returns (created: seq<RepositoryBean>)
      modifies beanFactory
      ensures var entities := typesAnnotatedWith(rootPackage);
        && |created| == |entities|
        && (forall i :: 0 <= i < |entities| ==> created[i] == create(entities[i]))
        && beanFactory.definitions == Register(old(beanFactory.definitions), entities, BeanNameOf, DefinitionFor(create))
      ensures beanFactory.singletons == old(beanFactory.singletons)
    {
      var entities := FilterIsInstanceAsWritten(typesAnnotatedWith(rootPackage));
      FilterIsInstanceKeepsAll(typesAnnotatedWith(rootPackage));
      ghost var definitions0 := beanFactory.definitions;
      created := [];
      var i := 0;
      while i < |entities|
        invariant 0 <= i <= |entities|
        invariant |created| == i && forall k :: 0 <= k < i ==> created[k] == create(entities[k])
        invariant beanFactory.definitions == Register(definitions0, entities[..i], BeanNameOf, DefinitionFor(create))
        invariant beanFactory.singletons == old(beanFactory.singletons)
      {
        var entityClass := entities[i];
        var repositoryBean := create(entityClass);
        RegisterRepositoryBean(entityClass, repositoryBean);
        created := created + [repositoryBean];
        RegisterStep(definitions0, entities, i, create);
        i := i + 1;
      }
      assert entities[..i] == entities;
    }

    /** `registerRepositoryBean(entityClass, repositoryBean)`: one definition under the class's bean name. */
    method RegisterRepositoryBean(entityClass: EntityClass, repositoryBean: RepositoryBean)
      modifies beanFactory
      ensures beanFactory.definitions == old(beanFactory.definitions)[BeanName(entityClass.simpleName) := BeanDefinition(DefinitionBeanClass, repositoryBean)]
      ensures beanFactory.singletons == old(beanFactory.singletons)
    {
      var beanName := BeanName(entityClass.simpleName);
      var beanDefinition := BeanDefinition(DefinitionBeanClass, repositoryBean);
      beanFactory.RegisterBeanDefinition(beanName, beanDefinition);
    }
  }
}
