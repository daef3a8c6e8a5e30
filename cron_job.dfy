/** The client-side record of a scheduled remote task: built from the
    descriptor the platform returns, it exposes the URL that invokes the task
    and delegates removal and history paging to the sandbox that made it. */
module CronJobs {
  import opened Js
  import opened Defaults
  import opened Sandboxes

  /** The claims decoded from a job's token; this model never inspects them. */
  type Claims

  /** A node-style completion callback `(err, result)`. */
  type Callback

  /** A callback invocation carrying how the sandbox's promise settled. */
  datatype Delivery = Delivery(callback: Callback, outcome: Outcome)

  /** What a caller may pass as `getHistory`'s first argument. `Value(Undefined)`
      is also what an omitted argument is. */
  datatype OptionsArg =
    | Value(v: JsValue)
    | Object(obj: JsRecord)
    | Function(fn: Callback)
  {
    function Footprint(): (refs: set<object>) {
      if Object? then {obj} else {}
    }
  }

  const RunPath := "/api/run/"
  const Scheme := "https://"

  /** Descriptor keys whose copies the constructor replaces: the decoded claims,
      the owning sandbox and the `url` accessor. */
  const Overridden: set<string> := {"claims", "sandbox", "url"}

  /** The keys of a history request that have defaults. */
  const HistoryKeys: set<string> := {"container", "name", "offset", "limit"}

  // ---------------------------------------------------------------------------
  // The invocation URL

  /** `base + '/api/run/' + container + '/' + name`, with each operand converted
      the way `+` converts it. */
  function RunUrl(base: string, container: JsValue, name: JsValue): (url: string) {
    base + RunPath + ToStr(container) + "/" + ToStr(name)
  }

  /** Splits `s` at its first `sep`. */
  function SplitFirst(s: string, sep: char): (parts: Option<(string, string)>) {
    if s == [] then None
    else if s[0] == sep then Some(([], s[1..]))
    else match SplitFirst(s[1..], sep)
      case None => None
      case Some(parts) => Some(([s[0]] + parts.0, parts.1))
  }

  /** Reads the container and the name back out of a run URL under `base`. */
  function ParseRunUrl(base: string, url: string): (parts: Option<(string, string)>) {
    var prefix := base + RunPath;
    if prefix <= url then SplitFirst(url[|prefix|..], '/') else None
  }

  lemma {:induction false} SplitFirstJoin(a: string, sep: char, b: string)
    requires sep !in a
    ensures SplitFirst(a + [sep] + b, sep) == Some((a, b))
  {
    var s := a + [sep] + b;
    if a == [] {
      assert s[1..] == b;
    } else {
      assert s[0] == a[0] && s[1..] == a[1..] + [sep] + b;
      SplitFirstJoin(a[1..], sep, b);
      assert [a[0]] + a[1..] == a;
    }
  }

  lemma {:induction false} SplitFirstSplits(s: string, sep: char)
    requires SplitFirst(s, sep).Some?
    ensures var (a, b) := SplitFirst(s, sep).value; s == a + [sep] + b && sep !in a
  {
    if s[0] != sep {
      SplitFirstSplits(s[1..], sep);
      var (a, b) := SplitFirst(s[1..], sep).value;
      assert s == [s[0]] + s[1..];
    }
  }

  /** A run URL reads back as the container and name it was built from, as
      long as the container has no `/` in it. */
  lemma RunUrlRoundTrip(base: string, container: JsValue, name: JsValue)
    requires '/' !in ToStr(container)
    ensures ParseRunUrl(base, RunUrl(base, container, name)) == Some((ToStr(container), ToStr(name)))
  {
    var c, n := ToStr(container), ToStr(name);
    var prefix := base + RunPath;
    var rest := c + ['/'] + n;
    assert RunUrl(base, container, name) == prefix + rest;
    assert (prefix + rest)[|prefix|..] == rest;
    SplitFirstJoin(c, '/', n);
  }

  /** Whatever a URL parses back to, rebuilding it from those parts gives the
      same URL: the parse is the exact inverse of the construction. */
  lemma RunUrlParsed(base: string, url: string)
    requires ParseRunUrl(base, url).Some?
    ensures var (c, n) := ParseRunUrl(base, url).value;
      '/' !in c && url == RunUrl(base, Str(c), Str(n))
  {
    var prefix := base + RunPath;
    var rest := url[|prefix|..];
    SplitFirstSplits(rest, '/');
    assert url == prefix + rest;
  }

  /** Two cron jobs whose containers are free of `/` have the same URL under a
      base exactly when their containers and names render the same. */
  lemma RunUrlDistinguishesJobs(base: string, c1: JsValue, n1: JsValue, c2: JsValue, n2: JsValue)
    requires '/' !in ToStr(c1) && '/' !in ToStr(c2)
    ensures RunUrl(base, c1, n1) == RunUrl(base, c2, n2) <==>
      ToStr(c1) == ToStr(c2) && ToStr(n1) == ToStr(n2)
  {
    RunUrlRoundTrip(base, c1, n1);
    RunUrlRoundTrip(base, c2, n2);
  }

  lemma SuffixCancels(a: string, b: string, tail: string)
    requires a + tail == b + tail
    ensures a == b
  {
    assert |a| == |b|;
    assert a == (a + tail)[..|a|];
    assert b == (b + tail)[..|b|];
  }

  /** The URL follows the sandbox: a different base gives a different URL. */
  lemma RunUrlFollowsBase(b1: string, b2: string, container: JsValue, name: JsValue)
    requires b1 != b2
    ensures RunUrl(b1, container, name) != RunUrl(b2, container, name)
  {
    var c, n := ToStr(container), ToStr(name);
    var tail := RunPath + c + "/" + n;
    assert RunUrl(b1, container, name) == b1 + tail;
    assert RunUrl(b2, container, name) == b2 + tail;
    if b1 + tail == b2 + tail {
      SuffixCancels(b1, b2, tail);
    }
  }

  // ---------------------------------------------------------------------------
  // The cluster URL

  /** `'https://' + v`. The scheme is added whatever `v` already holds. */
  function WithScheme(v: JsValue): (r: JsValue)
    ensures r.Str? && |r.s| == |Scheme| + |ToStr(v)|
    ensures Scheme <= r.s && r.s[|Scheme|..] == ToStr(v)
  {
    Str(Scheme + ToStr(v))
  }

  /** Adding the scheme is not idempotent: a value that already carries it is
      prefixed a second time. */
  lemma WithSchemeTwice(v: JsValue)
    ensures WithScheme(WithScheme(v)) == Str(Scheme + Scheme + ToStr(v))
    ensures WithScheme(WithScheme(v)) != WithScheme(v)
  {
    assert ToStr(WithScheme(v)) == Scheme + ToStr(v);
  }

  // ---------------------------------------------------------------------------
  // History requests

  /** The defaults of a history request, in the order the source lists them. */
  function HistoryDefaults(fields: JsObject): (d: DefaultList) {
    [("container", Get(fields, "container")), ("name", Get(fields, "name")),
     ("offset", Num(0)), ("limit", Num(10))]
  }

  /** The request a job with `fields` sends for a caller whose options object
      held `props`. */
  function HistoryRequest(fields: JsObject, props: JsObject): (request: JsObject) {
    Filled(props, HistoryDefaults(fields))
  }

  /** Which properties have a default, and what it is. */
  lemma HistoryDefaultsLookup(fields: JsObject, k: string)
    ensures DistinctKeys(HistoryDefaults(fields))
    ensures Lookup(HistoryDefaults(fields), k) ==
      if k == "container" then Some(Get(fields, "container"))
      else if k == "name" then Some(Get(fields, "name"))
      else if k == "offset" then Some(Num(0))
      else if k == "limit" then Some(Num(10))
      else None
  {
    var d := HistoryDefaults(fields);
    var d3 := d[..3];
    var d2 := d3[..2];
    var d1 := d2[..1];
    assert d1[..0] == [];
    assert Lookup(d1, k) == if k == "container" then Some(Get(fields, "container")) else None;
    assert Lookup(d2, k) == if k == "name" then Some(Get(fields, "name")) else Lookup(d1, k);
    assert Lookup(d3, k) == if k == "offset" then Some(Num(0)) else Lookup(d2, k);
  }

  /** `a` unless it is `undefined`, then `b`. */
  function Coalesce(a: JsValue, b: JsValue): (v: JsValue) {
    if a != Undefined then a else b
  }

  /** A history request holds the caller's properties plus the four paging
      properties; each of those four is the caller's value unless the caller
      left it `undefined`, and then the job's container, the job's name, 0 and
      10; every other property is the caller's own. */
  lemma HistoryRequestSpec(fields: JsObject, props: JsObject)
    ensures var r := HistoryRequest(fields, props);
      && (forall k :: k in r <==> k in props || k in HistoryKeys)
      && Get(r, "container") == Coalesce(Get(props, "container"), Get(fields, "container"))
      && Get(r, "name") == Coalesce(Get(props, "name"), Get(fields, "name"))
      && Get(r, "offset") == Coalesce(Get(props, "offset"), Num(0))
      && Get(r, "limit") == Coalesce(Get(props, "limit"), Num(10))
      && (forall k :: k in props && k !in HistoryKeys ==> r[k] == props[k])
  {
    var d := HistoryDefaults(fields);
    var r := HistoryRequest(fields, props);
    forall k ensures (k in r <==> k in props || k in HistoryKeys)
      && (k in props && k !in HistoryKeys ==> r[k] == props[k])
    {
      HistoryDefaultsLookup(fields, k);
      FilledAt(props, d, k);
    }
    HistoryDefaultsLookup(fields, "container");
    FilledAt(props, d, "container");
    HistoryDefaultsLookup(fields, "name");
    FilledAt(props, d, "name");
    HistoryDefaultsLookup(fields, "offset");
    FilledAt(props, d, "offset");
    HistoryDefaultsLookup(fields, "limit");
    FilledAt(props, d, "limit");
  }

  /** With no options, a job asks for the first ten runs of itself. */
  lemma HistoryRequestWithoutOptions(fields: JsObject)
    ensures HistoryRequest(fields, map[]) ==
      map["container" := Get(fields, "container"), "name" := Get(fields, "name"),
          "offset" := Num(0), "limit" := Num(10)]
  {
    HistoryRequestSpec(fields, map[]);
  }

  /** A caller's limit replaces the default one; the rest is defaulted. */
  lemma HistoryRequestWithLimit(fields: JsObject, limit: SafeInt)
    ensures HistoryRequest(fields, map["limit" := Num(limit)]) ==
      map["container" := Get(fields, "container"), "name" := Get(fields, "name"),
          "offset" := Num(0), "limit" := Num(limit)]
  {
    HistoryRequestSpec(fields, map["limit" := Num(limit)]);
  }

  /** A caller may page through another job's history: its container and name
      replace the job's own. */
  lemma HistoryRequestForOtherJob(fields: JsObject, container: JsValue, name: JsValue)
    requires container != Undefined && name != Undefined
    ensures HistoryRequest(fields, map["container" := container, "name" := name]) ==
      map["container" := container, "name" := name, "offset" := Num(0), "limit" := Num(10)]
  {
    HistoryRequestSpec(fields, map["container" := container, "name" := name]);
  }

  /** The properties `getHistory` starts from: the caller's object, or a fresh
      empty one for every other argument. */
  function CallerProps(options: OptionsArg): (props: JsObject)
    reads options.Footprint()
  {
    if options.Object? then options.obj.props else map[]
  }

  /** The callback `getHistory` ends up with: a function in the options slot
      takes the place of the second argument. */
  function EffectiveCallback(options: OptionsArg, cb: Option<Callback>): (callback: Option<Callback>) {
    if options.Function? then Some(options.fn) else cb
  }

  /** Every argument shape that supplies no options object (nothing, a falsy
      value, a callback in the options slot) sends the same default request. */
  lemma NoOptionsShapesAgree(fields: JsObject, options: OptionsArg)
    requires options.Function? || (options.Value? && !Truthy(options.v))
    ensures HistoryRequest(fields, CallerProps(options)) ==
      map["container" := Get(fields, "container"), "name" := Get(fields, "name"),
          "offset" := Num(0), "limit" := Num(10)]
  {
    HistoryRequestWithoutOptions(fields);
  }

  // ---------------------------------------------------------------------------
  // The entity

  class CronJob {
    /** The job's own data properties: the descriptor's, less the overridden ones. */
    var fields: JsObject
    var claims: Claims
    var sandbox: Sandbox

    /** Copies the descriptor, decodes its token with `decode`, attaches the
        sandbox and puts the scheme in front of the cluster URL. */
    constructor (sandbox: Sandbox, job: JsObject, decode: JsValue -> Claims)
      ensures this.sandbox == sandbox && claims == decode(Get(job, "token"))
      ensures forall k :: k in fields <==> k == "cluster_url" || (k in job && k !in Overridden)
      ensures forall k :: k in job && k !in Overridden && k != "cluster_url" ==> fields[k] == job[k]
      ensures fields["cluster_url"] == WithScheme(Get(job, "cluster_url"))
    {
      fields := job;
      claims := decode(Get(job, "token"));
      this.sandbox := sandbox;
      new;
      fields := fields - {"claims", "sandbox"};
      fields := fields["cluster_url" := WithScheme(Get(fields, "cluster_url"))];
      fields := fields - {"url"};
    }

    /** The `url` accessor, recomputed from the current state on every read. */
    function Url(): (u: string)
      reads this, sandbox
      ensures sandbox.url + RunPath <= u
      ensures '/' !in ToStr(Get(fields, "container")) ==>
        ParseRunUrl(sandbox.url, u) == Some((ToStr(Get(fields, "container")), ToStr(Get(fields, "name"))))
    {
      var u := RunUrl(sandbox.url, Get(fields, "container"), Get(fields, "name"));
      if '/' !in ToStr(Get(fields, "container")) then
        RunUrlRoundTrip(sandbox.url, Get(fields, "container"), Get(fields, "name"));
        u
      else u
    }

    /** Asks the sandbox to remove this job, with exactly its container and
        name; the promise is returned as is and, given a callback, its outcome
        is also delivered to it. */
    method Remove(cb: Option<Callback>) returns (promise: Outcome, delivered: Option<Delivery>)
      modifies sandbox`received
      ensures unchanged(this)
      ensures var request := map["container" := Get(fields, "container"), "name" := Get(fields, "name")];
        && sandbox.received == old(sandbox.received) + [Request.RemoveCronJob(request)]
        && promise == sandbox.platform(old(sandbox.received), Request.RemoveCronJob(request))
      ensures delivered == if cb.Some? then Some(Delivery(cb.value, promise)) else None
    {
      var options := new JsRecord(map["container" := Get(fields, "container"), "name" := Get(fields, "name")]);
      promise := sandbox.RemoveCronJob(options);
      delivered := if cb.Some? then Some(Delivery(cb.value, promise)) else None;
    }

    /** Pages through this job's run history. A function in the options slot
        is the callback; a falsy argument means no options; the defaults fill
        the options object in place, and the sandbox receives it. */
    method GetHistory(options: OptionsArg, cb: Option<Callback>) returns (promise: Outcome, delivered: Option<Delivery>)
      modifies sandbox`received, options.Footprint()
      ensures unchanged(this)
      ensures var request := HistoryRequest(fields, old(CallerProps(options)));
        && sandbox.received == old(sandbox.received) + [Request.GetCronJobHistory(request)]
        && promise == sandbox.platform(old(sandbox.received), Request.GetCronJobHistory(request))
      ensures options.Object? ==> options.obj.props == HistoryRequest(fields, old(options.obj.props))
      ensures var callback := EffectiveCallback(options, cb);
        delivered == if callback.Some? then Some(Delivery(callback.value, promise)) else None
    {
      var opts, callback := options, cb;
      if opts.Function? {
        callback := Some(opts.fn);
        var empty := new JsRecord(map[]);
        opts := Object(empty);
      }
      if opts.Value? && !Truthy(opts.v) {
        var empty := new JsRecord(map[]);
        opts := Object(empty);
      }
      var target: JsRecord;
      if opts.Object? {
        target := opts.obj;
      } else {
        // lodash fills a wrapper object in place of a truthy primitive
        target := new JsRecord(map[]);
      }
      target := DefaultsDeep(target, HistoryDefaults(fields));
      promise := sandbox.GetCronJobHistory(target);
      delivered := if callback.Some? then Some(Delivery(callback.value, promise)) else None;
    }
  }
}
