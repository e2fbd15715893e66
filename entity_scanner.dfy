/**
 * `DynamoDBEntityScanner`: finds the entity classes of a package on the class path. The class loader's
 * resources, the file system and class loading are given as functions.
 */
module EntityScanner {
  import opened Wrappers
  import opened Platform
  import opened Strings
  import opened Collections

  /** `File.separator` on a platform whose separator is `/`. */
  const Separator: char := '/'

  /**
   * What the scanner asks of its environment: `classLoader.getResources(path)` (each resource's file
   * path), `File.isDirectory`, `File.walkTopDown` (every path under a directory, in walk order),
   * `File.relativeTo` (None where it throws IllegalArgumentException) and `Class.forName` (None where it
   * throws ClassNotFoundException).
   */
  datatype ClassPath = ClassPath(
    getResources: string -> seq<string>,
    isDirectory: string -> bool,
    walkTopDown: string -> seq<string>,
    relativeTo: (string, string) -> Option<string>,
    forName: string -> Option<EntityClass>)

  /** `packageName.replace('.', '/')`: the resource path of a package. */
  function PackagePath(packageName: string): (r: string)
    ensures |r| == |packageName| && '.' !in r
    ensures forall i :: 0 <= i < |packageName| ==> r[i] == if packageName[i] == '.' then '/' else packageName[i]
  {
    ReplaceChar(packageName, '.', '/')
  }

  /** `File.name`: the path after its last separator. */
  function FileName(path: string): (r: string)
    ensures Separator !in r
  {
    SubstringAfterLast(path, Separator, path)
  }

  /** `File.extension`: the file name after its last dot, or "" when it has none. */
  function Extension(path: string): (r: string)
    ensures '.' !in r && Separator !in r
  {
    SubstringAfterLast(FileName(path), '.', "")
  }

  /** `it.extension == "class"`. */
  predicate IsClassFile(path: string) {
    Extension(path) == "class"
  }

  /** `findClassFilesInDirectory(dir)`: the class files under a directory, in walk order; none for a non-directory. */
  function ClassFilesInDirectory(cp: ClassPath, directory: string): (r: seq<string>)
    ensures !cp.isDirectory(directory) ==> r == []
    ensures forall f :: f in r <==> cp.isDirectory(directory) && f in cp.walkTopDown(directory) && IsClassFile(f)
  {
    if !cp.isDirectory(directory) then []
    else
      var r := Filter(cp.walkTopDown(directory), IsClassFile);
      assert forall f :: f in r <==> f in cp.walkTopDown(directory) && IsClassFile(f) by {
        forall f { FilterMember(cp.walkTopDown(directory), IsClassFile, f); }
      }
      r
  }

  /**
   * `toClassName(packageName, baseDir, classFile)`: the package, a dot, then the path relative to the
   * resource with `.class` dropped and separators turned into dots; null when the file cannot be
   * relativised.
   */
  function ToClassName(cp: ClassPath, packageName: string, baseDir: string, classFile: string): (r: Option<string>)
    ensures r.None? <==> cp.relativeTo(classFile, baseDir).None?
    ensures r.Some? ==> StartsWith(r.value, packageName + ".")
    ensures r.Some? ==> Separator !in r.value[|packageName| + 1..]
    ensures r.Some? ==> |r.value| == |packageName| + 1 + |RemoveSuffix(cp.relativeTo(classFile, baseDir).value, ".class")|
    ensures r.Some? ==> var relativePath := cp.relativeTo(classFile, baseDir).value;
      forall i :: 0 <= i < |RemoveSuffix(relativePath, ".class")| ==>
        r.value[|packageName| + 1 + i] == if relativePath[i] == Separator then '.' else relativePath[i]
  {
    match cp.relativeTo(classFile, baseDir)
    case None => None
    case Some(relativePath) =>
      var name := packageName + "." + ReplaceChar(RemoveSuffix(relativePath, ".class"), Separator, '.');
      assert name[..|packageName + "."|] == packageName + ".";
      assert name[|packageName| + 1..] == ReplaceChar(RemoveSuffix(relativePath, ".class"), Separator, '.');
      Some(name)
  }

  /** The class file `sub/Foo.class` of package `pkg` is the class `pkg.sub.Foo`. */
  lemma ToClassNameExample(cp: ClassPath)
    requires cp.relativeTo("/classes/pkg/sub/Foo.class", "/classes/pkg") == Some("sub/Foo.class")
    ensures ToClassName(cp, "pkg", "/classes/pkg", "/classes/pkg/sub/Foo.class") == Some("pkg.sub.Foo")
  {
    assert EndsWith("sub/Foo.class", ".class");
    assert RemoveSuffix("sub/Foo.class", ".class") == "sub/Foo";
    var dotted := ReplaceChar("sub/Foo", Separator, '.');
    forall i | 0 <= i < 7
      ensures dotted[i] == "sub.Foo"[i]
    {
    }
    assert dotted == "sub.Foo";
    assert "pkg" + "." + dotted == "pkg.sub.Foo";
    assert ToClassName(cp, "pkg", "/classes/pkg", "/classes/pkg/sub/Foo.class")
        == Some("pkg" + "." + ReplaceChar(RemoveSuffix("sub/Foo.class", ".class"), Separator, '.'));
  }

  /** `toClassName` with the package and base directory fixed, as the call chain applies it. */
  function ToClassNameIn(cp: ClassPath, packageName: string, baseDir: string): string -> Option<string> {
    classFile => ToClassName(cp, packageName, baseDir, classFile)
  }

  /** `hasValidAnnotationAndType(clazz)`: annotated with `@DynamoDbBean` and assignable to `TableEntity`. */
  predicate HasValidAnnotationAndType(c: EntityClass) {
    c.annotatedWithDynamoDbBean && c.isTableEntity
  }

  /** The chain applied to one resource: class files, to names, to loaded classes, to valid classes. */
  function ResourceClasses(cp: ClassPath, packageName: string, resource: string): (r: seq<EntityClass>)
    ensures forall c :: c in r ==> HasValidAnnotationAndType(c)
  {
    var r := Filter(MapNotNull(MapNotNull(ClassFilesInDirectory(cp, resource), ToClassNameIn(cp, packageName, resource)),
                               cp.forName),
                    HasValidAnnotationAndType);
    assert forall c :: c in r ==> HasValidAnnotationAndType(c) by {
      forall c | c in r
        ensures HasValidAnnotationAndType(c)
      {
        var k :| 0 <= k < |r| && r[k] == c;
      }
    }
    r
  }

  /** `ResourceClasses` with the package fixed, as the outer `flatMap` applies it. */
  function ClassesInResource(cp: ClassPath, packageName: string): string -> seq<EntityClass> {
    resource => ResourceClasses(cp, packageName, resource)
  }

  /** `findAnnotatedClassesInPackage(packageName)`: the chain for every resource, concatenated in resource order. */
  function FindAnnotatedClassesInPackage(cp: ClassPath, packageName: string): (r: seq<EntityClass>)
    ensures forall c :: c in r ==> HasValidAnnotationAndType(c)
  {
    var r := FlatMap(cp.getResources(PackagePath(packageName)), ClassesInResource(cp, packageName));
    assert forall c :: c in r ==> HasValidAnnotationAndType(c) by {
      forall c | c in r
        ensures HasValidAnnotationAndType(c)
      {
        var rs := cp.getResources(PackagePath(packageName));
        FlatMapMember(rs, ClassesInResource(cp, packageName), c);
        var i :| 0 <= i < |rs| && c in ClassesInResource(cp, packageName)(rs[i]);
      }
    }
    r
  }

  /** The class file `file` of `resource` names a class that loads as `c` and passes the filter. */
  predicate LeadsTo(cp: ClassPath, packageName: string, resource: string, file: string, c: EntityClass) {
    && ToClassName(cp, packageName, resource, file).Some?
    && cp.forName(ToClassName(cp, packageName, resource, file).value) == Some(c)
    && HasValidAnnotationAndType(c)
  }

  /**
   * One discovery: `resource` is a directory resource of the package, `file` a class file under it, and
   * the file leads to `c`.
   */
  predicate Discovers(cp: ClassPath, packageName: string, resource: string, file: string, c: EntityClass) {
    && resource in cp.getResources(PackagePath(packageName))
    && cp.isDirectory(resource)
    && file in cp.walkTopDown(resource)
    && IsClassFile(file)
    && LeadsTo(cp, packageName, resource, file, c)
  }

  /** Every class a resource yields comes from one of its class files. */
  lemma {:induction false} ResourceClassesSound(cp: ClassPath, packageName: string, resource: string, c: EntityClass)
    requires c in ResourceClasses(cp, packageName, resource)
    ensures exists file :: file in ClassFilesInDirectory(cp, resource) && LeadsTo(cp, packageName, resource, file, c)
  {
    var files := ClassFilesInDirectory(cp, resource);
    var toName := ToClassNameIn(cp, packageName, resource);
    var names := MapNotNull(files, toName);
    var loaded := MapNotNull(names, cp.forName);
    FilterMember(loaded, HasValidAnnotationAndType, c);
    MapNotNullMember(names, cp.forName, c);
    var i :| 0 <= i < |names| && cp.forName(names[i]) == Some(c);
    MapNotNullMember(files, toName, names[i]);
    var j :| 0 <= j < |files| && toName(files[j]) == Some(names[i]);
    assert LeadsTo(cp, packageName, resource, files[j], c);
  }

  /** Every class file of a resource that leads to a class makes the resource yield it. */
  lemma {:induction false} ResourceClassesComplete(cp: ClassPath, packageName: string, resource: string, file: string, c: EntityClass)
    requires file in ClassFilesInDirectory(cp, resource) && LeadsTo(cp, packageName, resource, file, c)
    ensures c in ResourceClasses(cp, packageName, resource)
  {
    var files := ClassFilesInDirectory(cp, resource);
    var toName := ToClassNameIn(cp, packageName, resource);
    var names := MapNotNull(files, toName);
    var loaded := MapNotNull(names, cp.forName);
    var j :| 0 <= j < |files| && files[j] == file;
    var n := ToClassName(cp, packageName, resource, file).value;
    assert toName(files[j]) == Some(n);
    MapNotNullMember(files, toName, n);
    var i :| 0 <= i < |names| && names[i] == n;
    MapNotNullMember(names, cp.forName, c);
    assert c in loaded;
    FilterMember(loaded, HasValidAnnotationAndType, c);
  }

  /** Every class the scan finds comes from a directory resource of the package and one of its class files. */
  lemma {:induction false} FindSound(cp: ClassPath, packageName: string, c: EntityClass)
    requires c in FindAnnotatedClassesInPackage(cp, packageName)
    ensures exists resource, file :: Discovers(cp, packageName, resource, file, c)
  {
    var rs := cp.getResources(PackagePath(packageName));
    var f := ClassesInResource(cp, packageName);
    FlatMapMember(rs, f, c);
    var i :| 0 <= i < |rs| && c in f(rs[i]);
    var resource := rs[i];
    assert c in ResourceClasses(cp, packageName, resource);
    ResourceClassesSound(cp, packageName, resource, c);
    var file :| file in ClassFilesInDirectory(cp, resource) && LeadsTo(cp, packageName, resource, file, c);
    assert Discovers(cp, packageName, resource, file, c);
  }

  /** Every discovery is found by the scan. */
  lemma {:induction false} FindComplete(cp: ClassPath, packageName: string, resource: string, file: string, c: EntityClass)
    requires Discovers(cp, packageName, resource, file, c)
    ensures c in FindAnnotatedClassesInPackage(cp, packageName)
  {
    var rs := cp.getResources(PackagePath(packageName));
    var f := ClassesInResource(cp, packageName);
    assert file in ClassFilesInDirectory(cp, resource);
    ResourceClassesComplete(cp, packageName, resource, file, c);
    var i :| 0 <= i < |rs| && rs[i] == resource;
    assert c in f(rs[i]);
    FlatMapMember(rs, f, c);
  }

  /** The scan finds a class exactly when some resource and class file of the package lead to it. */
  lemma {:induction false} FindMember(cp: ClassPath, packageName: string, c: EntityClass)
    ensures c in FindAnnotatedClassesInPackage(cp, packageName) <==> exists resource, file :: Discovers(cp, packageName, resource, file, c)
  {
    if c in FindAnnotatedClassesInPackage(cp, packageName) {
      FindSound(cp, packageName, c);
    }
    if exists resource, file :: Discovers(cp, packageName, resource, file, c) {
      var resource, file :| Discovers(cp, packageName, resource, file, c);
      FindComplete(cp, packageName, resource, file, c);
    }
  }

  /** A resource that is not a directory contributes nothing. */
  lemma NonDirectoryContributesNothing(cp: ClassPath, packageName: string, resource: string)
    requires !cp.isDirectory(resource)
    ensures ClassesInResource(cp, packageName)(resource) == []
  {
    assert MapNotNull(MapNotNull(ClassFilesInDirectory(cp, resource), ToClassNameIn(cp, packageName, resource)), cp.forName) == [];
  }

  /** Output follows resource order: what resource `i` yields sits between the yields of the earlier and later ones. */
  lemma FindInResourceOrder(cp: ClassPath, packageName: string, i: nat)
    requires i < |cp.getResources(PackagePath(packageName))|
    ensures var rs := cp.getResources(PackagePath(packageName));
      var f := ClassesInResource(cp, packageName);
      FindAnnotatedClassesInPackage(cp, packageName) == FlatMap(rs[..i], f) + f(rs[i]) + FlatMap(rs[i + 1..], f)
  {
    FlatMapAt(cp.getResources(PackagePath(packageName)), ClassesInResource(cp, packageName), i);
  }

  /** What one class file of a resource contributes: the class it leads to, or nothing. */
  function FileClasses(cp: ClassPath, packageName: string, resource: string): string -> seq<EntityClass> {
    Chain(ToClassNameIn(cp, packageName, resource), cp.forName, HasValidAnnotationAndType)
  }

  /** A class file contributes at most one class: exactly the one it leads to. */
  lemma FileClassesLeadsTo(cp: ClassPath, packageName: string, resource: string, file: string, c: EntityClass)
    ensures |FileClasses(cp, packageName, resource)(file)| <= 1
    ensures FileClasses(cp, packageName, resource)(file) == [c] <==> LeadsTo(cp, packageName, resource, file, c)
  {
    assert ToClassNameIn(cp, packageName, resource)(file) == ToClassName(cp, packageName, resource, file);
  }

  /** The classes of one resource, as the per-file contributions in walk order. */
  function WalkClasses(cp: ClassPath, packageName: string): string -> seq<EntityClass> {
    resource => FlatMap(ClassFilesInDirectory(cp, resource), FileClasses(cp, packageName, resource))
  }

  /** A resource yields its class files' contributions, concatenated in walk order. */
  lemma ResourceClassesWalk(cp: ClassPath, packageName: string, resource: string)
    ensures ResourceClasses(cp, packageName, resource) == WalkClasses(cp, packageName)(resource)
  {
    ChainFlatMap(ClassFilesInDirectory(cp, resource), ToClassNameIn(cp, packageName, resource), cp.forName,
                 HasValidAnnotationAndType);
  }

  /** Within a resource, file `j`'s class sits between the classes of the files walked before and after it. */
  lemma ResourceClassesInWalkOrder(cp: ClassPath, packageName: string, resource: string, j: nat)
    requires j < |ClassFilesInDirectory(cp, resource)|
    ensures var files := ClassFilesInDirectory(cp, resource);
      var y := FileClasses(cp, packageName, resource);
      ResourceClasses(cp, packageName, resource) == FlatMap(files[..j], y) + y(files[j]) + FlatMap(files[j + 1..], y)
  {
    ResourceClassesWalk(cp, packageName, resource);
    FlatMapAt(ClassFilesInDirectory(cp, resource), FileClasses(cp, packageName, resource), j);
  }

  /** The whole scan in one equation: resources in the class loader's order, and within each, files in walk order. */
  lemma FindInWalkOrder(cp: ClassPath, packageName: string)
    ensures FindAnnotatedClassesInPackage(cp, packageName)
         == FlatMap(cp.getResources(PackagePath(packageName)), WalkClasses(cp, packageName))
  {
    var rs := cp.getResources(PackagePath(packageName));
    forall i | 0 <= i < |rs|
      ensures ClassesInResource(cp, packageName)(rs[i]) == WalkClasses(cp, packageName)(rs[i])
    {
      ResourceClassesWalk(cp, packageName, rs[i]);
    }
    FlatMapPointwise(rs, ClassesInResource(cp, packageName), WalkClasses(cp, packageName));
  }
}
