/**
 * The metadata store that the decorators of src/decorators/http/methods.ts and
 * src/decorators/http/middleware.ts write into (`Reflect.defineMetadata`). Entries are
 * keyed by (class, property name), the class standing for the prototype the decorator
 * receives as `target`. The store also holds each decorated property's handler (the
 * descriptor's `value`), which only `ValidatedDTO` replaces.
 */
module Metadata {

  /** (class, property name): the `(target, propertyKey)` pair of a method decorator. */
  type MetaKey = (string, string)

  /** A request handler: a controller method, one wrapped by `ValidatedDTO`, or a named middleware. */
  datatype Handler =
    | Method(cls: string, name: string)
    | Validated(dto: string, inner: Handler)
    | Middleware(name: string)

  /** A snapshot of the whole store. */
  datatype Metadata = Metadata(
    route: map<MetaKey, string>,
    verb: map<MetaKey, string>,
    middlewares: map<MetaKey, seq<Handler>>,
    handlers: map<MetaKey, Handler>,
    basePath: map<string, string>)

  /** `Reflect.getMetadata("middlewares", ...) || []`. */
  function MiddlewaresOf(m: Metadata, k: MetaKey): seq<Handler> {
    if k in m.middlewares then m.middlewares[k] else []
  }

  /** `controllerInstance[methodName]`: the descriptor's value, the declared method unless wrapped. */
  function HandlerOf(m: Metadata, k: MetaKey): Handler {
    if k in m.handlers then m.handlers[k] else Method(k.0, k.1)
  }

  /** `Reflect.getMetadata("basePath", constructor) || ""`. */
  function BasePathOf(m: Metadata, cls: string): string {
    if cls in m.basePath then m.basePath[cls] else ""
  }

  /** The store after a verb decorator: route and verb of `k` set, nothing else touched. */
  function WithRoute(m: Metadata, verb: string, path: string, k: MetaKey): Metadata {
    m.(route := m.route[k := path], verb := m.verb[k := verb])
  }

  /** The store after `Middleware(mw)`: `mw` appended to the list of `k`. */
  function WithMiddleware(m: Metadata, mw: Handler, k: MetaKey): Metadata {
    m.(middlewares := m.middlewares[k := MiddlewaresOf(m, k) + [mw]])
  }

  /** A second verb decorator on the same key overwrites both entries: the last write wins. */
  lemma RouteLastWriteWins(m: Metadata, v1: string, p1: string, v2: string, p2: string, k: MetaKey)
    ensures WithRoute(WithRoute(m, v1, p1, k), v2, p2, k) == WithRoute(m, v2, p2, k)
  {
  }

  /** Verb decorators and middleware decorators write disjoint entries, so they commute. */
  lemma RouteAndMiddlewareCommute(m: Metadata, v: string, p: string, mw: Handler, k: MetaKey, k': MetaKey)
    ensures WithMiddleware(WithRoute(m, v, p, k), mw, k') == WithRoute(WithMiddleware(m, mw, k'), v, p, k)
  {
  }

  /**
   * Applying `Middleware` once per element of `mws` appends them in application order,
   * duplicates included, and leaves every other entry alone.
   */
  function WithMiddlewares(m: Metadata, mws: seq<Handler>, k: MetaKey): Metadata
    decreases |mws|
  {
    if mws == [] then m else WithMiddlewares(WithMiddleware(m, mws[0], k), mws[1..], k)
  }

  lemma {:induction false} WithMiddlewaresAppends(m: Metadata, mws: seq<Handler>, k: MetaKey, k': MetaKey)
    ensures MiddlewaresOf(WithMiddlewares(m, mws, k), k) == MiddlewaresOf(m, k) + mws
    ensures k' != k ==> MiddlewaresOf(WithMiddlewares(m, mws, k), k') == MiddlewaresOf(m, k')
    ensures WithMiddlewares(m, mws, k).(middlewares := m.middlewares) == m
    decreases |mws|
  {
    if mws != [] {
      var m1 := WithMiddleware(m, mws[0], k);
      WithMiddlewaresAppends(m1, mws[1..], k, k');
      assert MiddlewaresOf(m, k) + mws == MiddlewaresOf(m, k) + [mws[0]] + mws[1..];
    }
  }

  /** The global metadata registry. */
  class MetadataStore {
    var route: map<MetaKey, string>
    var verb: map<MetaKey, string>
    var middlewares: map<MetaKey, seq<Handler>>
    var handlers: map<MetaKey, Handler>
    /** Class-level base paths, as the `Controller` class decorator records them. */
    const basePath: map<string, string>

    constructor (basePath: map<string, string>)
      ensures View() == Metadata(map[], map[], map[], map[], basePath)
    {
      this.route := map[];
      this.verb := map[];
      this.middlewares := map[];
      this.handlers := map[];
      this.basePath := basePath;
    }

    function View(): Metadata
      reads this
    {
      Metadata(route, verb, middlewares, handlers, basePath)
    }

    /**
     * `methodDecoratorFactory(verb)(path)` applied to `(cls, key)`: records the route and
     * the verb for that key only; the middleware list and the handler are untouched.
     */
    method DefineRoute(verb: string, path: string, cls: string, key: string)
      modifies this
      ensures View() == WithRoute(old(View()), verb, path, (cls, key))
      ensures this.route[(cls, key)] == path && this.verb[(cls, key)] == verb
      ensures forall k :: k != (cls, key) ==>
        (k in this.route <==> k in old(this.route)) && (k in this.route ==> this.route[k] == old(this.route)[k])
      ensures middlewares == old(middlewares) && handlers == old(handlers)
    {
      this.route := this.route[(cls, key) := path];
      this.verb := this.verb[(cls, key) := verb];
    }

    method Get(path: string, cls: string, key: string)
      modifies this
      ensures View() == WithRoute(old(View()), "get", path, (cls, key))
    {
      DefineRoute("get", path, cls, key);
    }

    method Post(path: string, cls: string, key: string)
      modifies this
      ensures View() == WithRoute(old(View()), "post", path, (cls, key))
    {
      DefineRoute("post", path, cls, key);
    }

    method Put(path: string, cls: string, key: string)
      modifies this
      ensures View() == WithRoute(old(View()), "put", path, (cls, key))
    {
      DefineRoute("put", path, cls, key);
    }

    method Delete(path: string, cls: string, key: string)
      modifies this
      ensures View() == WithRoute(old(View()), "delete", path, (cls, key))
    {
      DefineRoute("delete", path, cls, key);
    }

    method Patch(path: string, cls: string, key: string)
      modifies this
      ensures View() == WithRoute(old(View()), "patch", path, (cls, key))
    {
      DefineRoute("patch", path, cls, key);
    }

    /**
     * `Middleware(mw)` applied to `(cls, key)`: the stored list (or `[]`) with `mw` pushed
     * at its end; route, verb, handlers and other keys' lists are unchanged.
     */
    method AddMiddleware(mw: Handler, cls: string, key: string)
      modifies this
      ensures View() == WithMiddleware(old(View()), mw, (cls, key))
      ensures this.middlewares[(cls, key)] == MiddlewaresOf(old(View()), (cls, key)) + [mw]
      ensures (cls, key) !in old(middlewares) ==> this.middlewares[(cls, key)] == [mw]
      ensures route == old(route) && verb == old(verb) && handlers == old(handlers)
    {
      var list := if (cls, key) in this.middlewares then this.middlewares[(cls, key)] else [];
      list := list + [mw];
      this.middlewares := this.middlewares[(cls, key) := list];
    }
  }
}
