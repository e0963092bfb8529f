/**
 * Route registration of src/config/routes.ts: `registerRoutes` turns one controller's
 * metadata into registrations on the Express app, and `registerControllers` walks a
 * directory tree and registers every controller file it finds.
 */
module Routes {
  import opened Metadata
  import opened Seqs
  import Text

  /** One `app[verb](fullPath, ...middlewares, handler)` call. */
  datatype Registration = Registration(verb: string, path: string, chain: seq<Handler>)

  /** What one method name contributes. */
  datatype Outcome = Skip | Register(reg: Registration) | Warn(message: string)

  /** Registrations and warnings, each in the order they are made. */
  datatype Plan = Plan(registrations: seq<Registration>, warnings: seq<string>)

  /** The `HttpMethod` union of the source. */
  const HttpMethods: set<string> := {"get", "post", "put", "delete", "patch", "options", "head"}

  function WarningText(verb: string, path: string): string {
    "Unsupported method '" + verb + "' for route " + path
  }

  /**
   * One pass of the `forEach` body for `name`: an absent or empty path or verb is skipped
   * (both are falsy), a verb that is not a function of the app gives one warning, and
   * otherwise the method is registered at `basePath + path` behind its middlewares.
   */
  function Step(m: Metadata, functions: set<string>, cls: string, name: string): Outcome
  {
    var k := (cls, name);
    var path := if k in m.route then m.route[k] else "";
    var verb := if k in m.verb then m.verb[k] else "";
    if path == "" || verb == "" then Skip
    else if verb in functions then
      Register(Registration(verb, BasePathOf(m, cls) + path, MiddlewaresOf(m, k) + [HandlerOf(m, k)]))
    else Warn(WarningText(verb, path))
  }

  /** What `Step` yields, case by case. */
  lemma StepSpec(m: Metadata, functions: set<string>, cls: string, name: string)
    ensures var o := Step(m, functions, cls, name); var k := (cls, name);
      var named := k in m.route && m.route[k] != "" && k in m.verb && m.verb[k] != "";
      && (o.Skip? <==> !named)
      && (o.Warn? <==> named && m.verb[k] !in functions)
      && (o.Warn? ==> o.message == WarningText(m.verb[k], m.route[k]))
      && (o.Register? ==>
            (&& named && m.verb[k] in functions
             && o.reg.verb == m.verb[k]
             && o.reg.path == BasePathOf(m, cls) + m.route[k]
             && o.reg.chain == MiddlewaresOf(m, k) + [HandlerOf(m, k)]))
  {
  }

  function Add(p: Plan, o: Outcome): Plan {
    match o
    case Skip => p
    case Register(r) => Plan(p.registrations + [r], p.warnings)
    case Warn(w) => Plan(p.registrations, p.warnings + [w])
  }

  function Join(p: Plan, q: Plan): Plan {
    Plan(p.registrations + q.registrations, p.warnings + q.warnings)
  }

  /** The outcomes of all names, in enumeration order. */
  function PlanRoutes(m: Metadata, functions: set<string>, cls: string, names: seq<string>): Plan
    decreases |names|
  {
    if names == [] then Plan([], [])
    else Add(PlanRoutes(m, functions, cls, names[..|names| - 1]), Step(m, functions, cls, names[|names| - 1]))
  }

  /** Enumeration order is registration order: the plan of a concatenation is the concatenation of plans. */
  lemma {:induction false} PlanConcat(m: Metadata, functions: set<string>, cls: string, a: seq<string>, b: seq<string>)
    ensures PlanRoutes(m, functions, cls, a + b)
      == Join(PlanRoutes(m, functions, cls, a), PlanRoutes(m, functions, cls, b))
    decreases |b|
  {
    if b == [] {
      assert a + b == a;
    } else {
      var b' := b[..|b| - 1];
      var o := Step(m, functions, cls, b[|b| - 1]);
      assert (a + b)[..|a + b| - 1] == a + b';
      assert (a + b)[|a + b| - 1] == b[|b| - 1];
      assert PlanRoutes(m, functions, cls, a + b) == Add(PlanRoutes(m, functions, cls, a + b'), o);
      PlanConcat(m, functions, cls, a, b');
      JoinAdd(PlanRoutes(m, functions, cls, a), PlanRoutes(m, functions, cls, b'), o);
    }
  }

  lemma JoinAdd(p: Plan, q: Plan, o: Outcome)
    ensures Add(Join(p, q), o) == Join(p, Add(q, o))
  {
    match o
    case Skip =>
    case Register(r) => Associative(p.registrations, q.registrations, [r]);
    case Warn(w) => Associative(p.warnings, q.warnings, [w]);
  }

  /** Each name yields at most one registration or one warning. */
  lemma {:induction false} PlanBound(m: Metadata, functions: set<string>, cls: string, names: seq<string>)
    ensures |PlanRoutes(m, functions, cls, names).registrations|
          + |PlanRoutes(m, functions, cls, names).warnings| <= |names|
    decreases |names|
  {
    if names != [] {
      PlanBound(m, functions, cls, names[..|names| - 1]);
    }
  }

  /**
   * Every registration comes from some enumerated name whose metadata has a non-empty path
   * and a verb that is a function of the app; its path is the base path plus that path and
   * its chain is that name's middlewares in stored order, then its handler.
   */
  lemma {:induction false} PlanRegistrationOrigin(m: Metadata, functions: set<string>, cls: string,
                                                  names: seq<string>, r: Registration)
    requires r in PlanRoutes(m, functions, cls, names).registrations
    ensures exists j :: 0 <= j < |names| && Step(m, functions, cls, names[j]) == Register(r)
    ensures exists name :: (
      && name in names
      && (cls, name) in m.route && m.route[(cls, name)] != ""
      && (cls, name) in m.verb && m.verb[(cls, name)] == r.verb && r.verb in functions
      && r.path == BasePathOf(m, cls) + m.route[(cls, name)]
      && r.chain == MiddlewaresOf(m, (cls, name)) + [HandlerOf(m, (cls, name))])
    decreases |names|
  {
    var init := names[..|names| - 1];
    var last := names[|names| - 1];
    if r in PlanRoutes(m, functions, cls, init).registrations {
      PlanRegistrationOrigin(m, functions, cls, init, r);
      var j :| 0 <= j < |init| && Step(m, functions, cls, init[j]) == Register(r);
      assert names[j] == init[j];
    } else {
      assert Step(m, functions, cls, last) == Register(r);
    }
    var j :| 0 <= j < |names| && Step(m, functions, cls, names[j]) == Register(r);
    StepSpec(m, functions, cls, names[j]);
    assert names[j] in names;
  }

  /**
   * A name whose metadata has a path and a verb of the app is registered, and one whose
   * verb is not a function of the app gives exactly one warning and no registration.
   */
  lemma NameRegisteredOrWarned(m: Metadata, functions: set<string>, cls: string,
                               names: seq<string>, name: string)
    ensures var k := (cls, name);
      var p := PlanRoutes(m, functions, cls, names);
      var q := PlanRoutes(m, functions, cls, names + [name]);
      && (k in m.route && m.route[k] != "" && k in m.verb && m.verb[k] in functions && m.verb[k] != "" ==>
            q.registrations == p.registrations
              + [Registration(m.verb[k], BasePathOf(m, cls) + m.route[k], MiddlewaresOf(m, k) + [HandlerOf(m, k)])]
            && q.warnings == p.warnings)
      && (k in m.route && m.route[k] != "" && k in m.verb && m.verb[k] !in functions && m.verb[k] != "" ==>
            q.registrations == p.registrations
            && q.warnings == p.warnings + [WarningText(m.verb[k], m.route[k])])
      && (k !in m.route || m.route[k] == "" || k !in m.verb || m.verb[k] == "" ==> q == p)
  {
    var names' := names + [name];
    assert names'[..|names'| - 1] == names;
    StepSpec(m, functions, cls, name);
  }

  /**
   * There is no duplicate detection: two names that yield the same verb and path are both
   * registered, in order, with whatever the names between them yield in between.
   */
  lemma KeepsDuplicates(m: Metadata, functions: set<string>, cls: string,
                        pre: seq<string>, a: string, mid: seq<string>, b: string, post: seq<string>)
    requires Step(m, functions, cls, a).Register? && Step(m, functions, cls, b).Register?
    ensures PlanRoutes(m, functions, cls, pre + [a] + mid + [b] + post).registrations
      == PlanRoutes(m, functions, cls, pre).registrations + [Step(m, functions, cls, a).reg]
         + PlanRoutes(m, functions, cls, mid).registrations + [Step(m, functions, cls, b).reg]
         + PlanRoutes(m, functions, cls, post).registrations
  {
    PlanConcat(m, functions, cls, pre + [a] + mid + [b], post);
    PlanConcat(m, functions, cls, pre + [a] + mid, [b]);
    PlanConcat(m, functions, cls, pre + [a], mid);
    PlanConcat(m, functions, cls, pre, [a]);
    assert [a][..0] == [] && [b][..0] == [];
  }

  /**
   * A method decorated with a verb decorator of the source (path `path`) and then with
   * `Middleware` once per element of `mws` is registered on an Express app at the base
   * path plus `path`, behind those middlewares in application order.
   */
  lemma DecoratedMethodRegisters(m: Metadata, functions: set<string>, verb: string, path: string,
                                 mws: seq<Handler>, cls: string, name: string)
    requires path != "" && verb in {"get", "post", "put", "delete", "patch"} && HttpMethods <= functions
    ensures var k := (cls, name);
      Step(WithMiddlewares(WithRoute(m, verb, path, k), mws, k), functions, cls, name)
        == Register(Registration(verb, BasePathOf(m, cls) + path, MiddlewaresOf(m, k) + mws + [HandlerOf(m, k)]))
  {
    var k := (cls, name);
    WithMiddlewaresAppends(WithRoute(m, verb, path, k), mws, k, k);
  }

  /** The Express application: its function-valued members, and the calls made on it. */
  class App {
    const functions: set<string>
    var routes: seq<Registration>
    /** The `console.warn` lines printed while registering. */
    var warnings: seq<string>

    constructor (functions: set<string>)
      ensures this.functions == functions && routes == [] && warnings == []
    {
      this.functions := functions;
      routes := [];
      warnings := [];
    }
  }

  /** `registerRoutes(app, controllerInstance)` for an instance of `cls` whose prototype has `names`. */
  method RegisterRoutes(app: App, store: MetadataStore, cls: string, names: seq<string>)
    modifies app
    ensures app.routes == old(app.routes) + PlanRoutes(store.View(), app.functions, cls, names).registrations
    ensures app.warnings == old(app.warnings) + PlanRoutes(store.View(), app.functions, cls, names).warnings
  {
    var basePath := if cls in store.basePath then store.basePath[cls] else "";
    ghost var m := store.View();
    var i := 0;
    while i < |names|
      invariant 0 <= i <= |names|
      invariant app.routes == old(app.routes) + PlanRoutes(m, app.functions, cls, names[..i]).registrations
      invariant app.warnings == old(app.warnings) + PlanRoutes(m, app.functions, cls, names[..i]).warnings
    {
      var name := names[i];
      var k := (cls, name);
      var handler := if k in store.handlers then store.handlers[k] else Method(cls, name);
      var path := if k in store.route then store.route[k] else "";
      var verb := if k in store.verb then store.verb[k] else "";
      var middlewares := if k in store.middlewares then store.middlewares[k] else [];
      ghost var prev := PlanRoutes(m, app.functions, cls, names[..i]);
      ghost var o := Step(m, app.functions, cls, name);
      assert names[..i + 1][..i] == names[..i];
      assert PlanRoutes(m, app.functions, cls, names[..i + 1]) == Add(prev, o);
      if path != "" && verb != "" {
        if verb in app.functions {
          var r := Registration(verb, basePath + path, middlewares + [handler]);
          assert o == Register(r);
          app.routes := app.routes + [r];
          Associative(old(app.routes), prev.registrations, [r]);
        } else {
          var w := WarningText(verb, path);
          assert o == Warn(w);
          app.warnings := app.warnings + [w];
          Associative(old(app.warnings), prev.warnings, [w]);
        }
      } else {
        assert o == Skip;
      }
      i := i + 1;
    }
    assert names[..|names|] == names;
  }

  // ----- registerControllers -----

  /** A directory entry as `readdirSync` and `lstatSync` see it. */
  datatype Entry = File(name: string) | Directory(name: string, entries: seq<Entry>)

  /** The first exported class of a required module, and its prototype's own property names. */
  datatype ControllerModule = ControllerModule(cls: string, names: seq<string>)

  /** The check `registerControllers` applies to a file path. */
  predicate IsControllerFile(path: string) {
    Text.EndsWith(path, ".controller.ts") || Text.EndsWith(path, ".controller.js")
  }

  /** The paths `registerControllers(app, path)` requires, depth first, in directory order. */
  function LoadedPaths(path: string, entries: seq<Entry>): seq<string>
    decreases entries
  {
    if entries == [] then []
    else LoadedPaths(path, entries[..|entries| - 1]) + EntryPaths(path, entries[|entries| - 1])
  }

  /** What one entry of the directory at `path` contributes. */
  function EntryPaths(path: string, e: Entry): seq<string>
    decreases e
  {
    var filePath := path + "/" + e.name;
    match e
    case Directory(_, children) => LoadedPaths(filePath, children)
    case File(_) => if IsControllerFile(filePath) then [filePath] else []
  }

  /** The check is on the joined path, but it comes to the same as checking the file name. */
  lemma ControllerFileByName(dir: string, name: string)
    ensures IsControllerFile(dir + "/" + name)
      <==> Text.EndsWith(name, ".controller.ts") || Text.EndsWith(name, ".controller.js")
  {
    Text.EndsWithAfterSeparator(dir, name, ".controller.ts");
    Text.EndsWithAfterSeparator(dir, name, ".controller.js");
  }

  /**
   * Only controller files are loaded: a file entry contributes its path exactly when its
   * name ends in `.controller.ts` or `.controller.js`, a directory contributes what its
   * own entries do, and everything is in entry order.
   */
  lemma LoadedPathsByEntry(path: string, entries: seq<Entry>, e: Entry)
    ensures LoadedPaths(path, entries + [e]) == LoadedPaths(path, entries) +
      match e
      case Directory(n, children) => LoadedPaths(path + "/" + n, children)
      case File(n) =>
        if Text.EndsWith(n, ".controller.ts") || Text.EndsWith(n, ".controller.js")
        then [path + "/" + n] else []
  {
    ControllerFileByName(path, e.name);
    assert (entries + [e])[..|entries|] == entries;
  }

  /** Every loaded path passes the file-name check. */
  lemma {:induction false} LoadedPathsAreControllers(path: string, entries: seq<Entry>, p: string)
    requires p in LoadedPaths(path, entries)
    ensures IsControllerFile(p)
    decreases entries
  {
    var e := entries[|entries| - 1];
    if p in LoadedPaths(path, entries[..|entries| - 1]) {
      LoadedPathsAreControllers(path, entries[..|entries| - 1], p);
    } else if e.Directory? {
      assert p in LoadedPaths(path + "/" + e.name, e.entries);
      LoadedPathsAreControllers(path + "/" + e.name, e.entries, p);
    }
  }

  /** What registering the controller module of `path` yields (nothing if there is none). */
  function ModulePlan(m: Metadata, functions: set<string>, path: string,
                      modules: map<string, ControllerModule>): Plan
  {
    if path in modules then PlanRoutes(m, functions, modules[path].cls, modules[path].names)
    else Plan([], [])
  }

  /** The registrations and warnings of loading `paths` in order. */
  function LoadPlan(m: Metadata, functions: set<string>, paths: seq<string>,
                    modules: map<string, ControllerModule>): Plan
    decreases |paths|
  {
    if paths == [] then Plan([], [])
    else Join(LoadPlan(m, functions, paths[..|paths| - 1], modules), ModulePlan(m, functions, paths[|paths| - 1], modules))
  }

  lemma {:induction false} LoadPlanConcat(m: Metadata, functions: set<string>, a: seq<string>, b: seq<string>,
                                          modules: map<string, ControllerModule>)
    ensures LoadPlan(m, functions, a + b, modules)
      == Join(LoadPlan(m, functions, a, modules), LoadPlan(m, functions, b, modules))
    decreases |b|
  {
    if b == [] {
      assert a + b == a;
    } else {
      var b' := b[..|b| - 1];
      assert (a + b)[..|a + b| - 1] == a + b';
      assert (a + b)[|a + b| - 1] == b[|b| - 1];
      var last := ModulePlan(m, functions, b[|b| - 1], modules);
      assert LoadPlan(m, functions, a + b, modules) == Join(LoadPlan(m, functions, a + b', modules), last);
      LoadPlanConcat(m, functions, a, b', modules);
      JoinAssociative(LoadPlan(m, functions, a, modules), LoadPlan(m, functions, b', modules), last);
    }
  }

  lemma JoinAssociative(p: Plan, q: Plan, r: Plan)
    ensures Join(Join(p, q), r) == Join(p, Join(q, r))
  {
    Associative(p.registrations, q.registrations, r.registrations);
    Associative(p.warnings, q.warnings, r.warnings);
  }

  /**
   * `registerControllers(app, path)` over the listed entries; `modules` gives what
   * `require` returns for each controller file (the source crashes if one is missing).
   */
  method RegisterControllers(app: App, store: MetadataStore, path: string, entries: seq<Entry>,
                             modules: map<string, ControllerModule>)
    requires forall p :: p in LoadedPaths(path, entries) ==> p in modules
    modifies app
    ensures app.routes == old(app.routes) + LoadPlan(store.View(), app.functions, LoadedPaths(path, entries), modules).registrations
    ensures app.warnings == old(app.warnings) + LoadPlan(store.View(), app.functions, LoadedPaths(path, entries), modules).warnings
    decreases entries
  {
    ghost var m := store.View();
    ghost var fns := app.functions;
    ghost var plan := Plan([], []);
    var i := 0;
    while i < |entries|
      invariant 0 <= i <= |entries|
      invariant forall p :: p in LoadedPaths(path, entries[..i]) ==> p in modules
      invariant plan == LoadPlan(m, fns, LoadedPaths(path, entries[..i]), modules)
      invariant app.routes == old(app.routes) + plan.registrations
      invariant app.warnings == old(app.warnings) + plan.warnings
    {
      ghost var step := LoadPlan(m, fns, EntryPaths(path, entries[i]), modules);
      LoadedStep(path, entries, i, modules);
      LoadPlanStep(m, fns, path, entries, i, modules);
      ghost var routes0, warnings0 := app.routes, app.warnings;
      RegisterEntry(app, store, path, entries[i], modules);
      Associative(old(app.routes), plan.registrations, step.registrations);
      Associative(old(app.warnings), plan.warnings, step.warnings);
      plan := Join(plan, step);
      i := i + 1;
    }
    assert entries[..|entries|] == entries;
  }

  /** One pass of the loop of `registerControllers`: a directory is walked, a controller file registered. */
  method RegisterEntry(app: App, store: MetadataStore, path: string, e: Entry,
                       modules: map<string, ControllerModule>)
    requires forall p :: p in EntryPaths(path, e) ==> p in modules
    modifies app
    ensures app.routes == old(app.routes) + LoadPlan(store.View(), app.functions, EntryPaths(path, e), modules).registrations
    ensures app.warnings == old(app.warnings) + LoadPlan(store.View(), app.functions, EntryPaths(path, e), modules).warnings
    decreases e
  {
    var filePath := path + "/" + e.name;
    if e.Directory? {
      RegisterControllers(app, store, filePath, e.entries, modules);
    } else if IsControllerFile(filePath) {
      var controller := modules[filePath];
      RegisterRoutes(app, store, controller.cls, controller.names);
      LoadPlanSingle(store.View(), app.functions, filePath, modules);
    }
  }

  /** One more entry adds the plan of its own paths. */
  lemma LoadPlanStep(m: Metadata, functions: set<string>, path: string, entries: seq<Entry>, i: nat,
                     modules: map<string, ControllerModule>)
    requires i < |entries|
    ensures LoadPlan(m, functions, LoadedPaths(path, entries[..i + 1]), modules)
      == Join(LoadPlan(m, functions, LoadedPaths(path, entries[..i]), modules),
              LoadPlan(m, functions, EntryPaths(path, entries[i]), modules))
  {
    assert entries[..i + 1][..i] == entries[..i];
    LoadPlanConcat(m, functions, LoadedPaths(path, entries[..i]), EntryPaths(path, entries[i]), modules);
  }

  lemma LoadPlanSingle(m: Metadata, functions: set<string>, path: string, modules: map<string, ControllerModule>)
    ensures LoadPlan(m, functions, [path], modules) == ModulePlan(m, functions, path, modules)
  {
    assert [path][..0] == [];
  }

  /** One more entry adds its own paths, all of which `modules` covers. */
  lemma LoadedStep(path: string, entries: seq<Entry>, i: nat, modules: map<string, ControllerModule>)
    requires i < |entries|
    requires forall p :: p in LoadedPaths(path, entries) ==> p in modules
    ensures LoadedPaths(path, entries[..i + 1]) == LoadedPaths(path, entries[..i]) + EntryPaths(path, entries[i])
    ensures forall p :: p in LoadedPaths(path, entries[..i + 1]) ==> p in modules
  {
    assert entries[..i + 1][..i] == entries[..i];
    PrefixLoaded(path, entries, i + 1);
  }

  /** The paths of a prefix of the entries are a prefix of all the paths. */
  lemma {:induction false} PrefixLoaded(path: string, entries: seq<Entry>, n: nat)
    requires n <= |entries|
    ensures forall p :: p in LoadedPaths(path, entries[..n]) ==> p in LoadedPaths(path, entries)
    decreases |entries| - n
  {
    if n < |entries| {
      PrefixLoaded(path, entries, n + 1);
      assert entries[..n + 1][..n] == entries[..n];
    } else {
      assert entries[..n] == entries;
    }
  }
}
