/**
 * The admin backend's relay router: at startup it registers one relay route per
 * relayed operation of the merged OpenAPI document and one catch-all GET route per
 * platform service; each route forwards to the platform's base URL with "/admin"
 * deleted from the target.  The router's route table is a class field the
 * registering loops extend; the HTTP calls are parameters.
 */
module RelayRoutes {
  import Text
  import opened Wrappers
  import opened JsonData
  import AM = AdminMain

  const Admin: string := "/admin"

  /** The placeholder of the catch-all GET routes. */
  const Placeholder: string := "{full_path:path}"

  /** EXTERNAL_API_URL: the platform base URL with every trailing '/' removed. */
  function ExternalApiUrl(platformBaseUrl: string): (r: string)
    ensures |r| <= |platformBaseUrl| && r == platformBaseUrl[..|r|]
    ensures r == [] || r[|r| - 1] != '/'
    ensures forall i :: |r| <= i < |platformBaseUrl| ==> platformBaseUrl[i] == '/'
  {
    Text.StripTrailing(platformBaseUrl, '/')
  }

  /** One operation of a path item; only whether it declares a requestBody matters here. */
  datatype Operation = Operation(hasRequestBody: bool)

  /** A path of the document with its entries (method name, operation), in document order. */
  datatype PathEntry = PathEntry(path: string, operations: seq<(string, Operation)>)

  /** A registered route: its path and its (lower-case) method. */
  datatype Route = Route(path: string, verb: string)

  /** The methods generate_post_endpoints looks at. */
  predicate KnownMethod(m: string)
  {
    m == "get" || m == "post" || m == "put" || m == "delete"
  }

  /** An operation gets a relay route when it has a requestBody, or is a POST without one. */
  predicate Relayed(m: string, op: Operation)
  {
    KnownMethod(m) && (op.hasRequestBody || m == "post")
  }

  /** "/admin" repeated k times. */
  function AdminTimes(k: nat): (r: string)
    ensures |r| == 6 * k
  {
    if k == 0 then "" else Admin + AdminTimes(k - 1)
  }

  /** The number of relayed operations among ops. */
  function RelayedCount(ops: seq<(string, Operation)>): (n: nat)
    ensures n <= |ops|
  {
    if ops == [] then 0
    else RelayedCount(ops[..|ops| - 1]) + (if Relayed(ops[|ops| - 1].0, ops[|ops| - 1].1) then 1 else 0)
  }

  /**
   * The routes registered for one path item. The loop variable path is reassigned to
   * "/admin" + path at each registration, so the k-th route of the item is at "/admin"
   * repeated k times before the document's path.
   */
  function PathRoutes(path: string, ops: seq<(string, Operation)>): (r: seq<Route>)
    ensures |r| == RelayedCount(ops)
  {
    if ops == [] then []
    else
      var last := ops[|ops| - 1];
      var rest := PathRoutes(path, ops[..|ops| - 1]);
      if Relayed(last.0, last.1) then rest + [Route(AdminTimes(RelayedCount(ops)) + path, last.0)] else rest
  }

  /** The k-th route of a path item (from 1) is at "/admin" repeated k times before the path. */
  lemma {:induction false} PathRoutesShape(path: string, ops: seq<(string, Operation)>)
    ensures forall k :: 0 <= k < |PathRoutes(path, ops)| ==> PathRoutes(path, ops)[k].path == AdminTimes(k + 1) + path
    ensures forall k :: 0 <= k < |PathRoutes(path, ops)| ==> KnownMethod(PathRoutes(path, ops)[k].verb)
  {
    if ops != [] {
      PathRoutesShape(path, ops[..|ops| - 1]);
    }
  }

  /** One more operation adds its route at one more "/admin" when it is relayed, and nothing otherwise. */
  lemma PathRoutesStep(path: string, ops: seq<(string, Operation)>, j: nat)
    requires j < |ops|
    ensures RelayedCount(ops[..j + 1]) == RelayedCount(ops[..j]) + (if Relayed(ops[j].0, ops[j].1) then 1 else 0)
    ensures PathRoutes(path, ops[..j + 1]) == PathRoutes(path, ops[..j])
      + (if Relayed(ops[j].0, ops[j].1) then [Route(Admin + AdminTimes(RelayedCount(ops[..j])) + path, ops[j].0)] else [])
  {
    assert ops[..j + 1][..j] == ops[..j];
    assert ops[..j + 1][j] == ops[j];
  }

  /** A GET, PUT or DELETE without a requestBody, or a method outside the four, adds no route. */
  lemma UnrelayedAddsNothing(path: string, ops: seq<(string, Operation)>, m: string, op: Operation)
    requires !Relayed(m, op)
    ensures PathRoutes(path, ops + [(m, op)]) == PathRoutes(path, ops)
  {
    assert (ops + [(m, op)])[..|ops|] == ops;
  }

  /** All the routes of generate_post_endpoints, path item after path item. */
  function PostRoutes(doc: seq<PathEntry>): (r: seq<Route>)
    ensures forall i :: 0 <= i < |r| ==> KnownMethod(r[i].verb) && Admin <= r[i].path
  {
    if doc == [] then []
    else
      var last := doc[|doc| - 1];
      var routes := PathRoutes(last.path, last.operations);
      PathRoutesShape(last.path, last.operations);
      assert forall k :: 0 <= k < |routes| ==> Admin <= routes[k].path by {
        forall k | 0 <= k < |routes| ensures Admin <= routes[k].path {
          assert routes[k].path == Admin + (AdminTimes(k) + last.path);
        }
      }
      PostRoutes(doc[..|doc| - 1]) + routes
  }

  /** One more path item appends its routes after those of the items before it. */
  lemma PostRoutesStep(doc: seq<PathEntry>, i: nat)
    requires i < |doc|
    ensures PostRoutes(doc[..i + 1]) == PostRoutes(doc[..i]) + PathRoutes(doc[i].path, doc[i].operations)
  {
    assert doc[..i + 1][..i] == doc[..i];
  }

  /** The target of a relay route: base URL + route path with every "/admin" deleted. */
  function RelayTarget(base: string, routePath: string): (r: string)
    ensures !Text.Occurs(Admin, base + routePath) ==> r == base + routePath
  {
    assert !Text.Occurs(Admin, base + routePath) ==> Text.ReplaceAll(base + routePath, Admin, "") == base + routePath by {
      if !Text.Occurs(Admin, base + routePath) {
        Text.ReplaceAllAbsent(base + routePath, Admin, "");
      }
    }
    Text.ReplaceAll(base + routePath, Admin, "")
  }

  /** "/admin" starts with '/' and has no other '/'. */
  lemma AdminSlashFirst()
    ensures Admin[0] == '/' && '/' !in Admin[1..]
  {
    assert Admin[1..] == "admin";
  }

  /** Deleting "/admin" from "/admin" repeated k times before a path deletes all k copies. */
  lemma {:induction false} ReplaceAdminTimes(k: nat, path: string)
    ensures Text.ReplaceAll(AdminTimes(k) + path, Admin, "") == Text.ReplaceAll(path, Admin, "")
  {
    if k > 0 {
      var rest := AdminTimes(k - 1) + path;
      assert AdminTimes(k) + path == Admin + rest;
      calc {
        Text.ReplaceAll(AdminTimes(k) + path, Admin, "");
        Text.ReplaceAll(Admin + rest, Admin, "");
        { Text.ReplaceAllLeading(Admin, rest, ""); }
        "" + Text.ReplaceAll(rest, Admin, "");
        Text.ReplaceAll(rest, Admin, "");
        { ReplaceAdminTimes(k - 1, path); }
        Text.ReplaceAll(path, Admin, "");
      }
    } else {
      assert AdminTimes(0) + path == path;
    }
  }

  /**
   * Every relay route of a path forwards to base URL + the document's path, however many
   * "/admin" its own path carries, when neither the base nor the path holds "/admin".
   */
  lemma RelayTargetOfRoute(base: string, k: nat, path: string)
    requires k >= 1 && !Text.Occurs(Admin, base) && !Text.Occurs(Admin, path)
    ensures RelayTarget(base, AdminTimes(k) + path) == base + path
  {
    AdminSlashFirst();
    assert (AdminTimes(k) + path)[0] == '/';
    Text.ReplaceAllConcat(base, AdminTimes(k) + path, Admin, "");
    ReplaceAdminTimes(k, path);
    Text.ReplaceAllAbsent(path, Admin, "");
  }

  /**
   * A document path with a POST without body and then a PUT with body registers
   * "/admin/items" and then "/admin/admin/items".
   */
  lemma SecondOperationDoubled()
    ensures PathRoutes("/items", [("post", Operation(false)), ("put", Operation(true))])
      == [Route("/admin/items", "post"), Route("/admin/admin/items", "put")]
  {
    var ops := [("post", Operation(false)), ("put", Operation(true))];
    assert AdminTimes(1) == "/admin";
    PathRoutesStep("/items", ops, 0);
    PathRoutesStep("/items", ops, 1);
    assert ops[..0] == [];
    assert ops[..2] == ops;
    assert Relayed("post", Operation(false));
    assert Relayed("put", Operation(true));
    assert Admin + AdminTimes(0) + "/items" == "/admin/items";
    assert Admin + AdminTimes(1) + "/items" == "/admin/admin/items";
  }

  /** The catch-all GET route of a service: base_path + "{full_path:path}". */
  function GetRoutePath(svc: AM.ServiceConf): string
  {
    svc.basePath + Placeholder
  }

  /** The routes of generate_get_endpoints, one per service, in order. */
  function GetRoutes(services: seq<AM.ServiceConf>): (r: seq<Route>)
    ensures |r| == |services|
    ensures forall i :: 0 <= i < |services| ==> r[i] == Route(GetRoutePath(services[i]), "get")
  {
    if services == [] then [] else GetRoutes(services[..|services| - 1]) + [Route(GetRoutePath(services[|services| - 1]), "get")]
  }

  /** The target of a GET through a catch-all route: "/admin" and the placeholder deleted. */
  function GetTarget(base: string, routePath: string, fullPath: string): string
  {
    Text.ReplaceAll(Text.ReplaceAll(base + routePath + fullPath, Admin, ""), Placeholder, "")
  }

  /** The placeholder starts with '{' and has no other '{'. */
  lemma PlaceholderBraceFirst()
    ensures Placeholder[0] == '{' && '{' !in Placeholder[1..]
  {
    assert Placeholder[1..] == "full_path:path}";
  }

  /** Deleting "/admin" from "/<segment>/{full_path:path}" + full_path changes nothing. */
  lemma TailUnchanged(segment: string, fullPath: string)
    requires 'i' !in segment && !Text.Occurs(Admin, fullPath)
    ensures Text.ReplaceAll("/" + segment + "/" + Placeholder + fullPath, Admin, "") == "/" + segment + "/" + Placeholder + fullPath
  {
    var mid := "/" + segment + "/" + Placeholder;
    MidLacksAdmin(segment);
    AdminSlashFirst();
    Text.ReplaceAllConcat(mid, fullPath, Admin, "");
    Text.ReplaceAllAbsent(fullPath, Admin, "");
  }

  /** Deleting "/admin" from base + "/admin" + tail removes just that one when the rest has none. */
  lemma FirstReplace(base: string, tail: string)
    requires !Text.Occurs(Admin, base) && Text.ReplaceAll(tail, Admin, "") == tail
    ensures Text.ReplaceAll(base + (Admin + tail), Admin, "") == base + tail
  {
    AdminSlashFirst();
    Text.ReplaceAllConcat(base, Admin + tail, Admin, "");
    Text.ReplaceAllLeading(Admin, tail, "");
    assert "" + tail == tail;
  }

  /** "/<segment>/{full_path:path}" holds no "/admin" when the segment has no 'i', and ends in '}'. */
  lemma MidLacksAdmin(segment: string)
    requires 'i' !in segment
    ensures !Text.Occurs(Admin, "/" + segment + "/" + Placeholder)
    ensures ("/" + segment + "/" + Placeholder)[|"/" + segment + "/" + Placeholder| - 1] == '}'
  {
    var mid := "/" + segment + "/" + Placeholder;
    assert Placeholder == "{full_path:path}";
    assert 'i' !in Placeholder;
    assert 'i' !in mid;
    assert Admin[4] == 'i';
    Text.OccursMissingChar(mid, Admin, 'i');
  }

  /** Deleting the placeholder from base + "/<segment>/{full_path:path}" + full_path removes just it. */
  lemma SecondReplace(base: string, segment: string, fullPath: string)
    requires '{' !in base && '{' !in segment && !Text.Occurs(Placeholder, fullPath)
    ensures Text.ReplaceAll(base + "/" + segment + "/" + Placeholder + fullPath, Placeholder, "")
      == base + "/" + segment + "/" + fullPath
  {
    var head := base + "/" + segment + "/";
    assert '{' !in head;
    PlaceholderBraceFirst();
    Text.OccursMissingChar(head, Placeholder, '{');
    assert head + Placeholder + fullPath == head + (Placeholder + fullPath);
    Text.ReplaceAllConcat(head, Placeholder + fullPath, Placeholder, "");
    Text.ReplaceAllLeading(Placeholder, fullPath, "");
    Text.ReplaceAllAbsent(fullPath, Placeholder, "");
    assert "" + fullPath == fullPath;
  }

  /**
   * A GET of full_path through the route of a service at "/admin/<segment>/" goes to
   * base + "/<segment>/" + full_path, when neither the base nor full_path holds "/admin"
   * or the placeholder, and the base and segment hold no '{' and the segment no 'i'.
   */
  lemma GetTargetOfService(base: string, segment: string, fullPath: string)
    requires !Text.Occurs(Admin, base) && '{' !in base
    requires 'i' !in segment && '{' !in segment
    requires !Text.Occurs(Admin, fullPath) && !Text.Occurs(Placeholder, fullPath)
    ensures GetTarget(base, "/admin/" + segment + "/" + Placeholder, fullPath) == base + "/" + segment + "/" + fullPath
  {
    var tail := "/" + segment + "/" + Placeholder + fullPath;
    assert base + ("/admin/" + segment + "/" + Placeholder) + fullPath == base + (Admin + tail);
    TailUnchanged(segment, fullPath);
    FirstReplace(base, tail);
    assert base + tail == base + "/" + segment + "/" + Placeholder + fullPath;
    SecondReplace(base, segment, fullPath);
  }

  /** The path segment each configured service's catch-all route forwards to. */
  const ServiceSegments: seq<string> := ["document", "model", "vector", "prompt"]

  /**
   * A GET of full_path through the catch-all route of the i-th configured service goes to
   * base + "/<segment>/" + full_path: "/admin" and the placeholder are both deleted.
   */
  lemma PlatformGetTarget(base: string, i: nat, fullPath: string)
    requires i < |AM.PlatformServices|
    requires !Text.Occurs(Admin, base) && '{' !in base
    requires !Text.Occurs(Admin, fullPath) && !Text.Occurs(Placeholder, fullPath)
    ensures GetTarget(base, GetRoutePath(AM.PlatformServices[i]), fullPath) == base + "/" + ServiceSegments[i] + "/" + fullPath
  {
    var seg := ServiceSegments[i];
    assert AM.PlatformServices[i].basePath == "/admin/" + seg + "/";
    assert 'i' !in seg && '{' !in seg;
    assert GetRoutePath(AM.PlatformServices[i]) == "/admin/" + seg + "/" + Placeholder;
    GetTargetOfService(base, seg, fullPath);
  }

  /** The outcome of a forwarded request: it raised, or the platform answered. */
  datatype Forwarded = ForwardRaised | Answered(status: int, body: Json)

  /** requests' error range: raise_for_status raises, and a response is falsy, for 400 to 599. */
  predicate ErrorStatus(status: int)
  {
    400 <= status < 600
  }

  /**
   * The answer of a relay or catch-all route: the platform's JSON unless the request raised
   * or the status is in the error range, otherwise 500. For a POST the error is swallowed and
   * `if response` is false; for the other methods raise_for_status propagates; both end as 500.
   */
  function RelayResponse(outcome: Forwarded): (r: Result<Json, HttpError>)
    ensures r.Ok? <==> outcome.Answered? && !ErrorStatus(outcome.status)
    ensures r.Ok? ==> r.value == outcome.body
    ensures r.Err? ==> r.error == HttpError(500, "Internal Server Error")
  {
    if outcome.Answered? && !ErrorStatus(outcome.status) then Ok(outcome.body)
    else Err(HttpError(500, "Internal Server Error"))
  }

  /** The admin backend's router. */
  class RelayRouter {
    var routes: seq<Route>

    constructor()
      ensures routes == []
    {
      routes := [];
    }

    /** generate_post_endpoints: the nested loops over paths and their operations. */
    method GeneratePostEndpoints(doc: seq<PathEntry>)
      modifies this
      ensures routes == old(routes) + PostRoutes(doc)
    {
      for i := 0 to |doc|
        invariant routes == old(routes) + PostRoutes(doc[..i])
      {
        PostRoutesStep(doc, i);
        ghost var done := PostRoutes(doc[..i]);
        AddPathRoutes(doc[i].path, doc[i].operations);
        assert old(routes) + done + PathRoutes(doc[i].path, doc[i].operations)
          == old(routes) + (done + PathRoutes(doc[i].path, doc[i].operations));
      }
      assert doc[..|doc|] == doc;
    }

    /** The inner loop: path is reassigned to "/admin" + path at every registration. */
    method AddPathRoutes(path0: string, ops: seq<(string, Operation)>)
      modifies this
      ensures routes == old(routes) + PathRoutes(path0, ops)
    {
      var path := path0;
      for j := 0 to |ops|
        invariant path == AdminTimes(RelayedCount(ops[..j])) + path0
        invariant routes == old(routes) + PathRoutes(path0, ops[..j])
      {
        PathRoutesStep(path0, ops, j);
        ghost var done, count := PathRoutes(path0, ops[..j]), RelayedCount(ops[..j]);
        assert Admin + (AdminTimes(count) + path0) == AdminTimes(count + 1) + path0;
        assert forall x :: old(routes) + done + [x] == old(routes) + (done + [x]);
        var (m, op) := ops[j];
        if !KnownMethod(m) {
          continue;
        }
        if op.hasRequestBody {
          path := Admin + path;
          routes := routes + [Route(path, m)];
        } else if m == "post" {
          path := Admin + path;
          routes := routes + [Route(path, m)];
        }
      }
      assert ops[..|ops|] == ops;
    }

    /** generate_get_endpoints: one catch-all GET per service. */
    method GenerateGetEndpoints(services: seq<AM.ServiceConf>)
      modifies this
      ensures routes == old(routes) + GetRoutes(services)
    {
      for i := 0 to |services|
        invariant routes == old(routes) + GetRoutes(services[..i])
      {
        assert services[..i + 1][..i] == services[..i];
        routes := routes + [Route(services[i].basePath + Placeholder, "get")];
      }
      assert services[..|services|] == services;
    }

    /** init_relay_router: the document's relay routes, then the services' GET routes. */
    method Init(doc: seq<PathEntry>)
      modifies this
      ensures routes == old(routes) + PostRoutes(doc) + GetRoutes(AM.PlatformServices)
    {
      GeneratePostEndpoints(doc);
      GenerateGetEndpoints(AM.PlatformServices);
    }
  }
}
