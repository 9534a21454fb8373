/**
 * The extension manager (extensions/extension_manager.py): discovery of the
 * extension modules of a directory, and dispatch of a lifecycle hook to the
 * registered extensions. What a hook does is abstract: the outcome of the
 * call to the extension at position `i` is `outcome(i)`. Importing a module
 * is abstract too: `modules(stem)` says what importing it yields.
 */
module ExtensionManager {
  import opened Wrappers
  import opened Text
  import opened JsonValues
  import Sorting

  /** A registered extension: its name, its `enabled` flag and the `on_<hook>` methods it has, inherited ones included. */
  datatype Extension = Extension(name: string, enabled: bool, hooks: set<string>)

  /** A hook call returns a value (None included) or raises. */
  datatype HookOutcome = Returned(value: Option<Json>) | Raised(message: string)

  // ===========================================================================
  // Dispatch

  /** `dispatch` calls the hook of an enabled extension that has it. */
  predicate Calls(e: Extension, hook: string) {
    e.enabled && "on_" + hook in e.hooks
  }

  /** The positions whose hook `dispatch` calls, in registration order. */
  function CalledIndices(exts: seq<Extension>, hook: string): (r: seq<nat>)
    ensures forall i :: i in r <==> 0 <= i < |exts| && Calls(exts[i], hook)
    ensures forall j, k :: 0 <= j < k < |r| ==> r[j] < r[k]
  {
    if exts == [] then []
    else
      var n := |exts| - 1;
      var init := CalledIndices(exts[..n], hook);
      assert forall i :: 0 <= i < n ==> exts[..n][i] == exts[i];
      assert forall j :: 0 <= j < |init| ==> init[j] in init && init[j] < n;
      var r := init + (if Calls(exts[n], hook) then [n] else []);
      assert forall i :: i in r <==> i in init || (i == n && Calls(exts[n], hook));
      r
  }

  /** An extension whose hook `dispatch` calls and whose call returns something other than None. */
  predicate Contributes(exts: seq<Extension>, hook: string, outcome: nat -> HookOutcome, i: nat) {
    i < |exts| && Calls(exts[i], hook) && outcome(i).Returned? && outcome(i).value.Some?
  }

  /** The result of `dispatch`: the value of the last call returning something other than None. */
  function Dispatched(exts: seq<Extension>, hook: string, outcome: nat -> HookOutcome): Option<Json> {
    if exts == [] then None
    else
      var n := |exts| - 1;
      if Calls(exts[n], hook) && outcome(n).Returned? && outcome(n).value.Some? then outcome(n).value
      else Dispatched(exts[..n], hook, outcome)
  }

  /**
   * `dispatch` returns a value exactly when some called hook returns one, and
   * then it is the value of the LAST such hook, although the method's doc
   * comment says "first". Raising hooks never contribute.
   */
  lemma {:induction false} DispatchedLast(exts: seq<Extension>, hook: string, outcome: nat -> HookOutcome)
    ensures Dispatched(exts, hook, outcome).None? <==> forall i :: 0 <= i < |exts| ==> !Contributes(exts, hook, outcome, i)
    ensures Dispatched(exts, hook, outcome).Some? ==>
      exists i :: 0 <= i < |exts| && Contributes(exts, hook, outcome, i)
        && outcome(i).value == Dispatched(exts, hook, outcome)
        && forall j :: i < j < |exts| ==> !Contributes(exts, hook, outcome, j)
  {
    if exts != [] {
      var n := |exts| - 1;
      var init := exts[..n];
      DispatchedLast(init, hook, outcome);
      assert forall i :: 0 <= i < n ==> init[i] == exts[i];
      assert forall i :: 0 <= i < n ==> (Contributes(init, hook, outcome, i) <==> Contributes(exts, hook, outcome, i));
      if !Contributes(exts, hook, outcome, n) && Dispatched(init, hook, outcome).Some? {
        var i :| 0 <= i < |init| && Contributes(init, hook, outcome, i)
          && outcome(i).value == Dispatched(init, hook, outcome)
          && forall j :: i < j < |init| ==> !Contributes(init, hook, outcome, j);
        assert Contributes(exts, hook, outcome, i);
      }
    }
  }

  /** A hook that raises is swallowed: had it returned None instead, the result would be the same. */
  lemma {:induction false} RaisingHookIgnored(exts: seq<Extension>, hook: string, outcome: nat -> HookOutcome,
                                             outcome': nat -> HookOutcome, k: nat)
    requires outcome(k).Raised? && outcome'(k) == Returned(None)
    requires forall i :: i != k ==> outcome'(i) == outcome(i)
    ensures Dispatched(exts, hook, outcome) == Dispatched(exts, hook, outcome')
  {
    if exts != [] {
      RaisingHookIgnored(exts[..|exts| - 1], hook, outcome, outcome', k);
    }
  }

  /** The manager: its registered extensions, in registration order. */
  class Manager {
    var extensions: seq<Extension>

    constructor()
      ensures extensions == []
    {
      extensions := [];
    }

    /** `dispatch(hook_name)`: the result, and the positions whose hook was called. */
    method Dispatch(hook: string, outcome: nat -> HookOutcome) returns (result: Option<Json>, called: seq<nat>)
      ensures result == Dispatched(extensions, hook, outcome)
      ensures called == CalledIndices(extensions, hook)
    {
      result := None;
      called := [];
      var i := 0;
      while i < |extensions|
        invariant 0 <= i <= |extensions|
        invariant result == Dispatched(extensions[..i], hook, outcome)
        invariant called == CalledIndices(extensions[..i], hook)
      {
        assert extensions[..i + 1][..i] == extensions[..i];
        var ext := extensions[i];
        if ext.enabled && "on_" + hook in ext.hooks {
          called := called + [i];
          var ret := outcome(i);
          if ret.Returned? && ret.value.Some? {
            result := ret.value;
          }
        }
        i := i + 1;
      }
      assert extensions[..i] == extensions;
    }

    /** `discover_extensions`: the enabled extensions of the directory's modules are appended in file-name order. */
    method DiscoverExtensions(dirExists: bool, listing: seq<string>, modules: string -> ModuleInfo)
      modifies this
      ensures extensions == old(extensions) + Discovered(dirExists, listing, modules)
    {
      if !dirExists {
        return;
      }
      var names := Sorting.SortBy(listing, StrLe);
      var i := 0;
      ghost var start := extensions;
      while i < |names|
        invariant 0 <= i <= |names|
        invariant start + FromFiles(names, modules) == extensions + FromFiles(names[i..], modules)
      {
        assert names[i..][1..] == names[i + 1..];
        var filename := names[i];
        if EndsWith(filename, ".py") && !StartsWith(filename, "_") {
          match modules(Stem(filename))
          case ImportFails =>
          case Classes(classes) =>
            var found := LoadClasses(classes);
            AppendAssoc(extensions, found, FromFiles(names[i + 1..], modules));
            extensions := extensions + found;
        }
        i := i + 1;
      }
      assert extensions + FromFiles(names[i..], modules) == extensions + [];
    }
  }

  // ===========================================================================
  // Discovery

  /** A class of an extension module, in `inspect.getmembers` order, and whether instantiating it raises. */
  datatype ClassInfo = ClassInfo(isExtension: bool, isBase: bool, name: string, enabled: bool, hooks: set<string>,
                                 constructorRaises: bool)

  /** What importing a module gives: an exception, or its classes. */
  datatype ModuleInfo = ImportFails | Classes(classes: seq<ClassInfo>)

  /** Only `.py` files whose name does not start with "_" are imported. */
  predicate Candidate(filename: string) {
    EndsWith(filename, ".py") && !StartsWith(filename, "_")
  }

  /** `filename[:-3]` */
  function Stem(filename: string): string {
    if |filename| >= 3 then filename[..|filename| - 3] else []
  }

  /** A subclass of Extension other than the base, with a non-empty name. */
  predicate Registers(c: ClassInfo) {
    c.isExtension && !c.isBase && c.name != []
  }

  /** The extensions one module contributes: an exception while instantiating ends the module, keeping what came before. */
  function FromClasses(cs: seq<ClassInfo>): (r: seq<Extension>)
    ensures forall e :: e in r ==> e.enabled && e.name != []
  {
    if cs == [] then []
    else if !Registers(cs[0]) then FromClasses(cs[1..])
    else if cs[0].constructorRaises then []
    else (if cs[0].enabled then [Extension(cs[0].name, true, cs[0].hooks)] else []) + FromClasses(cs[1..])
  }

  function FromModule(m: ModuleInfo): (r: seq<Extension>)
    ensures forall e :: e in r ==> e.enabled && e.name != []
  {
    match m
    case ImportFails => []
    case Classes(cs) => FromClasses(cs)
  }

  function FromFiles(names: seq<string>, modules: string -> ModuleInfo): (r: seq<Extension>)
    ensures forall e :: e in r ==> e.enabled && e.name != []
  {
    if names == [] then []
    else (if Candidate(names[0]) then FromModule(modules(Stem(names[0]))) else []) + FromFiles(names[1..], modules)
  }

  /** What `discover_extensions` registers: nothing for a missing directory, else the modules of the sorted listing. */
  function Discovered(dirExists: bool, listing: seq<string>, modules: string -> ModuleInfo): seq<Extension> {
    if !dirExists then [] else FromFiles(Sorting.SortBy(listing, StrLe), modules)
  }

  lemma StrLeTotalPreorder()
    ensures Sorting.TotalPreorder(StrLe)
  {
    forall a: string, b: string
      ensures StrLe(a, b) || StrLe(b, a)
    {
      StrLeTotal(a, b);
    }
    forall a: string, b: string, c: string | StrLe(a, b) && StrLe(b, c)
      ensures StrLe(a, c)
    {
      StrLeTransitive(a, b, c);
    }
  }

  /** Every extension comes from a candidate file of the listing. */
  lemma {:induction false} FromFilesSources(names: seq<string>, modules: string -> ModuleInfo, e: Extension)
    requires e in FromFiles(names, modules)
    ensures exists n :: n in names && Candidate(n) && e in FromModule(modules(Stem(n)))
  {
    if e !in (if Candidate(names[0]) then FromModule(modules(Stem(names[0]))) else []) {
      FromFilesSources(names[1..], modules, e);
      var n :| n in names[1..] && Candidate(n) && e in FromModule(modules(Stem(n)));
      assert n in names;
    }
  }

  /**
   * `discover_extensions` registers only enabled, named extensions from
   * `.py` files not starting with "_", visiting the listing in sorted order.
   */
  lemma DiscoveredProperties(dirExists: bool, listing: seq<string>, modules: string -> ModuleInfo)
    ensures forall e :: e in Discovered(dirExists, listing, modules) ==> e.enabled && e.name != []
    ensures !dirExists ==> Discovered(dirExists, listing, modules) == []
    ensures forall e :: e in Discovered(dirExists, listing, modules) ==>
      exists n :: n in listing && Candidate(n) && e in FromModule(modules(Stem(n)))
    ensures var names := Sorting.SortBy(listing, StrLe);
      Sorting.SortedBy(names, StrLe) && multiset(names) == multiset(listing)
  {
    var names := Sorting.SortBy(listing, StrLe);
    StrLeTotalPreorder();
    Sorting.SortBySorted(listing, StrLe);
    if dirExists {
      forall e | e in Discovered(dirExists, listing, modules)
        ensures exists n :: n in listing && Candidate(n) && e in FromModule(modules(Stem(n)))
      {
        FromFilesSources(names, modules, e);
        var n :| n in names && Candidate(n) && e in FromModule(modules(Stem(n)));
        assert n in multiset(names);
      }
    }
  }

  /** The class loop of one imported module. */
  method LoadClasses(classes: seq<ClassInfo>) returns (found: seq<Extension>)
    ensures found == FromClasses(classes)
  {
    found := [];
    var i := 0;
    var raised := false;
    while i < |classes| && !raised
      invariant 0 <= i <= |classes|
      invariant raised ==> found == FromClasses(classes)
      invariant !raised ==> found + FromClasses(classes[i..]) == FromClasses(classes)
    {
      assert classes[i..][1..] == classes[i + 1..];
      var c := classes[i];
      if c.isExtension && !c.isBase && c.name != [] {
        if c.constructorRaises {
          raised := true;
          assert found + [] == found;
        } else if c.enabled {
          AppendAssoc(found, [Extension(c.name, true, c.hooks)], FromClasses(classes[i + 1..]));
          found := found + [Extension(c.name, true, c.hooks)];
        }
      }
      i := i + 1;
    }
    if !raised {
      assert found + [] == found;
    }
  }
}
