/**
 * The component registry: a static table of component records, and
 * `getComponent`, which finds a record by name and loads each of its
 * files, one after the other, into a `{name, content}` list.
 *
 * The dynamic `import` is the parameter `load`: given a module path it
 * yields the module's exports or the reason it failed.
 */
module Registry {
  import opened Wrappers

  datatype ComponentType = UI | Example | Block

  /** A `ComponentRegistry` record. */
  datatype ComponentRegistry = ComponentRegistry(
    name: string,
    kind: ComponentType,
    registryDependencies: Option<seq<string>>,
    dependencies: Option<seq<string>>,
    devDependencies: Option<seq<string>>,
    files: seq<string>)

  /** A `ComponentFile` record. */
  datatype ComponentFile = ComponentFile(name: string, content: string)

  /** The `default` and `content` exports of a loaded module, each absent or a string. */
  datatype ModuleExports = ModuleExports(defaultExport: Option<string>, contentExport: Option<string>)

  /** Why `getComponent` threw. */
  datatype RegistryError =
    | NotFound(component: string)
    | LoadFailed(path: string, reason: string)

  /** The text of the thrown `Error`; a failed import rethrows its own reason. */
  function Message(e: RegistryError): (r: string)
    ensures e.NotFound? ==>
      && |r| == 10 + |e.component| + 22
      && r[..10] == "Component "
      && r[10..10 + |e.component|] == e.component
      && r[10 + |e.component|..] == " not found in registry"
    ensures e.LoadFailed? ==> r == e.reason
  {
    match e
    case NotFound(n) => "Component " + n + " not found in registry"
    case LoadFailed(_, reason) => reason
  }

  /** The shipped table: declared empty, and nothing appends to it. */
  const registry: seq<ComponentRegistry> := []

  /** `registry.find((c) => c.name === name)` */
  function Find(table: seq<ComponentRegistry>, name: string): (r: Option<ComponentRegistry>)
    ensures r.None? <==> forall i :: 0 <= i < |table| ==> table[i].name != name
    ensures r.Some? ==> r.value.name == name && r.value in table
  {
    if table == [] then None
    else if table[0].name == name then Some(table[0])
    else Find(table[1..], name)
  }

  /** The record found is the first one carrying the name. */
  lemma {:induction false} FindFirst(table: seq<ComponentRegistry>, name: string, i: int)
    requires 0 <= i < |table| && table[i].name == name
    requires forall j :: 0 <= j < i ==> table[j].name != name
    ensures Find(table, name) == Some(table[i])
  {
    if i > 0 {
      FindFirst(table[1..], name, i - 1);
    }
  }

  /** The module path of one file of a component. */
  function ModulePath(component: string, file: string): (r: string)
    ensures |r| == 13 + |component| + 1 + |file|
    ensures r[..13] == "./components/"
    ensures r[13..13 + |component|] == component
    ensures r[13 + |component|] == '/'
    ensures r[13 + |component| + 1..] == file
  {
    "./components/" + component + "/" + file
  }

  /** `module.default || module.content || ""` */
  function ContentOf(m: ModuleExports): (r: string)
    ensures TruthyText(m.defaultExport) ==> r == m.defaultExport.value
    ensures !TruthyText(m.defaultExport) && TruthyText(m.contentExport) ==> r == m.contentExport.value
    ensures r == "" <==> !TruthyText(m.defaultExport) && !TruthyText(m.contentExport)
  {
    if TruthyText(m.defaultExport) then m.defaultExport.value
    else if TruthyText(m.contentExport) then m.contentExport.value
    else ""
  }

  /** The file list, loaded front to back; the first failed load ends it. */
  function LoadAll(component: string, files: seq<string>, load: string -> Result<ModuleExports, string>)
    : (r: Result<seq<ComponentFile>, RegistryError>)
    ensures r.Ok? ==> |r.value| == |files| && forall i :: 0 <= i < |files| ==> r.value[i].name == files[i]
    ensures r.Err? ==> r.error.LoadFailed? && exists i :: 0 <= i < |files| && r.error.path == ModulePath(component, files[i])
    decreases |files|
  {
    if files == [] then Ok([])
    else
      var path := ModulePath(component, files[0]);
      match load(path)
      case Err(reason) => Err(LoadFailed(path, reason))
      case Ok(m) =>
        match LoadAll(component, files[1..], load)
        case Ok(rest) => Ok([ComponentFile(files[0], ContentOf(m))] + rest)
        case Err(e) => Err(e)
  }

  /** What `getComponent(name)` resolves to or throws. */
  function Resolve(table: seq<ComponentRegistry>, name: string, load: string -> Result<ModuleExports, string>)
    : (r: Result<seq<ComponentFile>, RegistryError>)
    ensures (r.Err? && r.error.NotFound?) <==> Find(table, name).None?
    ensures r.Err? && r.error.NotFound? ==> r.error.component == name
    ensures r.Ok? ==> |r.value| == |Find(table, name).value.files|
  {
    match Find(table, name)
    case None => Err(NotFound(name))
    case Some(c) => LoadAll(name, c.files, load)
  }

  /** Every load of the file list succeeds. */
  predicate AllLoad(component: string, files: seq<string>, load: string -> Result<ModuleExports, string>)
  {
    forall i :: 0 <= i < |files| ==> load(ModulePath(component, files[i])).Ok?
  }

  /**
   * On success there is one entry per file, in file order, named after
   * the file and holding the content fallback of its module; success
   * happens exactly when every load succeeds.
   */
  lemma {:induction false} LoadAllShape(component: string, files: seq<string>, load: string -> Result<ModuleExports, string>)
    ensures LoadAll(component, files, load).Ok? <==> AllLoad(component, files, load)
    ensures LoadAll(component, files, load).Ok? ==>
      var r := LoadAll(component, files, load).value;
      && |r| == |files|
      && forall i :: 0 <= i < |files| ==>
           r[i] == ComponentFile(files[i], ContentOf(load(ModulePath(component, files[i])).value))
    decreases |files|
  {
    if files != [] {
      LoadAllShape(component, files[1..], load);
      assert forall i :: 1 <= i < |files| ==> files[1..][i - 1] == files[i];
      if load(ModulePath(component, files[0])).Ok? && AllLoad(component, files[1..], load) {
        assert AllLoad(component, files, load) by {
          forall i | 0 <= i < |files|
            ensures load(ModulePath(component, files[i])).Ok?
          {
            if i > 0 { assert files[1..][i - 1] == files[i]; }
          }
        }
      }
    }
  }

  /** The load of file `i` fails and every earlier load succeeds. */
  predicate FirstFailureAt(component: string, files: seq<string>, load: string -> Result<ModuleExports, string>, i: int)
    requires 0 <= i < |files|
  {
    && load(ModulePath(component, files[i])).Err?
    && forall j :: 0 <= j < i ==> load(ModulePath(component, files[j])).Ok?
  }

  /**
   * On failure the error names the first file whose load failed, with
   * that load's reason; every earlier load succeeded.
   */
  lemma {:induction false} LoadAllFailure(component: string, files: seq<string>, load: string -> Result<ModuleExports, string>)
    requires LoadAll(component, files, load).Err?
    ensures exists i :: (
      && 0 <= i < |files|
      && FirstFailureAt(component, files, load, i)
      && LoadAll(component, files, load).error
         == LoadFailed(ModulePath(component, files[i]), load(ModulePath(component, files[i])).error))
    decreases |files|
  {
    var first := ModulePath(component, files[0]);
    if load(first).Err? {
      assert FirstFailureAt(component, files, load, 0);
    } else {
      var rest := files[1..];
      LoadAllFailure(component, rest, load);
      var k :| 0 <= k < |rest| && FirstFailureAt(component, rest, load, k)
        && LoadAll(component, rest, load).error
           == LoadFailed(ModulePath(component, rest[k]), load(ModulePath(component, rest[k])).error);
      assert rest[k] == files[k + 1];
      assert FirstFailureAt(component, files, load, k + 1) by {
        forall j | 0 <= j < k + 1
          ensures load(ModulePath(component, files[j])).Ok?
        {
          if j > 0 { assert rest[j - 1] == files[j]; }
        }
      }
      assert LoadAll(component, files, load).error == LoadAll(component, rest, load).error;
    }
  }

  /** An unknown name fails with the not-found error and no file list. */
  lemma ResolveUnknown(table: seq<ComponentRegistry>, name: string, load: string -> Result<ModuleExports, string>)
    requires forall i :: 0 <= i < |table| ==> table[i].name != name
    ensures Resolve(table, name, load) == Err(NotFound(name))
    ensures Message(Resolve(table, name, load).error) == "Component " + name + " not found in registry"
  {
  }

  /** With the shipped, empty table every call fails with the not-found error. */
  lemma ShippedTableNotFound(name: string, load: string -> Result<ModuleExports, string>)
    ensures Resolve(registry, name, load) == Err(NotFound(name))
  {
  }

  /** The value `LoadAll` has once `done` is already loaded and `rest` is left. */
  function Prepend(done: seq<ComponentFile>, rest: Result<seq<ComponentFile>, RegistryError>)
    : Result<seq<ComponentFile>, RegistryError>
  {
    match rest
    case Ok(files) => Ok(done + files)
    case Err(e) => Err(e)
  }

  /** Nothing loaded yet: the outcome is that of the whole list. */
  lemma PrependNothing(rest: Result<seq<ComponentFile>, RegistryError>)
    ensures Prepend([], rest) == rest
  {
    if rest.Ok? {
      assert [] + rest.value == rest.value;
    }
  }

  /** Loading `a` and then `b` is loading `a + b`. */
  lemma PrependTwice(a: seq<ComponentFile>, b: seq<ComponentFile>, rest: Result<seq<ComponentFile>, RegistryError>)
    ensures Prepend(a, Prepend(b, rest)) == Prepend(a + b, rest)
  {
    if rest.Ok? {
      assert a + (b + rest.value) == (a + b) + rest.value;
    }
  }

  /**
   * `getComponent(name)`: looks the name up, then awaits one import per
   * file, in file order, pushing one entry per file. `imported` lists the
   * module paths imported, in the order the imports were awaited.
   */
  method GetComponent(table: seq<ComponentRegistry>, name: string, load: string -> Result<ModuleExports, string>)
    returns (r: Result<seq<ComponentFile>, RegistryError>, imported: seq<string>)
    ensures r == Resolve(table, name, load)
    ensures Find(table, name).None? ==> imported == []
    ensures Find(table, name).Some? ==>
      var files := Find(table, name).value.files;
      && |imported| <= |files|
      && (forall i :: 0 <= i < |imported| ==> imported[i] == ModulePath(name, files[i]))
      && (r.Ok? ==> |imported| == |files|)
      && (r.Err? ==> imported != [] && r.error.LoadFailed? && r.error.path == imported[|imported| - 1])
  {
    imported := [];
    var component := Find(table, name);
    if component.None? {
      r := Err(NotFound(name));
      return;
    }
    var files := component.value.files;
    var acc: seq<ComponentFile> := [];
    var i := 0;
    assert files[i..] == files;
    PrependNothing(LoadAll(name, files, load));
    while i < |files|
      invariant 0 <= i <= |files|
      invariant |imported| == i
      invariant forall j :: 0 <= j < i ==> imported[j] == ModulePath(name, files[j])
      invariant LoadAll(name, files, load) == Prepend(acc, LoadAll(name, files[i..], load))
    {
      var path := ModulePath(name, files[i]);
      imported := imported + [path];
      var loaded := load(path);
      assert files[i..][0] == files[i] && files[i..][1..] == files[i + 1..];
      if loaded.Err? {
        r := Err(LoadFailed(path, loaded.error));
        return;
      }
      var entry := ComponentFile(files[i], ContentOf(loaded.value));
      assert LoadAll(name, files[i..], load) == Prepend([entry], LoadAll(name, files[i + 1..], load));
      PrependTwice(acc, [entry], LoadAll(name, files[i + 1..], load));
      acc := acc + [entry];
      i := i + 1;
    }
    assert files[i..] == [];
    assert acc + [] == acc;
    r := Ok(acc);
  }
}
