/** Properties of the route table: no request matches two routes, and each listed request reaches its handler. */
module ServerProperties {
  import opened Wrappers
  import opened Server

  /** Two routes no request can both match: other verbs, other lengths, or two different literals at one position. */
  predicate Disjoint(a: Route, b: Route)
  {
    || a.verb != b.verb
    || |a.pattern| != |b.pattern|
    || exists k :: 0 <= k < |a.pattern| && k < |b.pattern| && a.pattern[k].Lit? && b.pattern[k].Lit?
                   && a.pattern[k].text != b.pattern[k].text
  }

  lemma DisjointSound(a: Route, b: Route, verb: string, path: string)
    requires Disjoint(a, b)
    ensures !(RouteMatches(a, verb, path) && RouteMatches(b, verb, path))
  {
  }

  predicate PairwiseDisjoint(routes: seq<Route>)
  {
    forall i, j :: 0 <= i < j < |routes| ==> Disjoint(routes[i], routes[j])
  }

  lemma TableIsPairwiseDisjoint()
    ensures PairwiseDisjoint(RouteTable)
  {
    assert RouteTable[5].pattern[0].text != RouteTable[6].pattern[0].text;
  }

  /** The route table is unambiguous: no request matches two of its routes. */
  lemma RoutesUnambiguous(verb: string, path: string, i: nat, j: nat)
    requires i < j < |RouteTable|
    ensures !(RouteMatches(RouteTable[i], verb, path) && RouteMatches(RouteTable[j], verb, path))
  {
    TableIsPairwiseDisjoint();
    DisjointSound(RouteTable[i], RouteTable[j], verb, path);
  }

  /** In a table without overlaps, a request that matches route i is dispatched to route i. */
  lemma {:induction false} DispatchToMatch(routes: seq<Route>, verb: string, path: string, i: nat)
    requires PairwiseDisjoint(routes) && i < |routes| && RouteMatches(routes[i], verb, path)
    ensures DispatchFrom(routes, verb, path) == Matched(routes[i].endpoint, Bindings(routes[i].pattern, Segments(path).value))
  {
    if i > 0 {
      DisjointSound(routes[0], routes[i], verb, path);
      assert routes[1..][i - 1] == routes[i];
      assert PairwiseDisjoint(routes[1..]) by {
        forall a, b | 0 <= a < b < |routes[1..]|
          ensures Disjoint(routes[1..][a], routes[1..][b])
        {
          assert routes[1..][a] == routes[a + 1] && routes[1..][b] == routes[b + 1];
        }
      }
      DispatchToMatch(routes[1..], verb, path, i - 1);
    }
  }

  lemma {:induction false} BindingsAllLiterals(pattern: seq<Segment>, p: seq<string>)
    requires |pattern| == |p| && forall i :: 0 <= i < |pattern| ==> pattern[i].Lit?
    ensures Bindings(pattern, p) == map[]
  {
    if pattern != [] {
      BindingsAllLiterals(pattern[1..], p[1..]);
    }
  }

  /** A pattern whose only variable is {name} at position k binds exactly name to segment k. */
  lemma {:induction false} BindingsOneVariable(pattern: seq<Segment>, p: seq<string>, k: nat)
    requires |pattern| == |p| && k < |pattern| && pattern[k] == Var("name")
    requires forall i :: 0 <= i < |pattern| && i != k ==> pattern[i].Lit?
    ensures Bindings(pattern, p) == map["name" := p[k]]
  {
    if k == 0 {
      BindingsAllLiterals(pattern[1..], p[1..]);
    } else {
      BindingsOneVariable(pattern[1..], p[1..], k - 1);
    }
  }

  /** GET and POST /api/v1/models reach listModels and createModel. */
  lemma CollectionRoutes(verb: string, path: string)
    requires Segments(path) == Some(["api", "v1", "models"])
    ensures verb == "GET" ==> DispatchFrom(RouteTable, verb, path) == Matched(ListModels, map[])
    ensures verb == "POST" ==> DispatchFrom(RouteTable, verb, path) == Matched(CreateModel, map[])
  {
    TableIsPairwiseDisjoint();
    if verb == "GET" {
      DispatchToMatch(RouteTable, verb, path, 0);
    } else if verb == "POST" {
      DispatchToMatch(RouteTable, verb, path, 1);
    }
  }

  predicate NamedModelPath(p: seq<string>, name: string)
  {
    |p| == 4 && p[0] == "api" && p[1] == "v1" && p[2] == "models" && p[3] == name && name != ""
  }

  /** GET and DELETE /api/v1/models/{name} reach getModel and deleteModel, with name bound. */
  lemma ItemRoutes(verb: string, path: string, name: string)
    requires Segments(path).Some? && NamedModelPath(Segments(path).value, name)
    ensures verb == "GET" ==> DispatchFrom(RouteTable, verb, path) == Matched(GetModel, map["name" := name])
    ensures verb == "DELETE" ==> DispatchFrom(RouteTable, verb, path) == Matched(DeleteModel, map["name" := name])
  {
    TableIsPairwiseDisjoint();
    var p := Segments(path).value;
    if verb == "GET" {
      assert RouteMatches(RouteTable[2], verb, path);
      DispatchToMatch(RouteTable, verb, path, 2);
      BindingsOneVariable(RouteTable[2].pattern, p, 3);
    } else if verb == "DELETE" {
      assert RouteMatches(RouteTable[3], verb, path);
      DispatchToMatch(RouteTable, verb, path, 3);
      BindingsOneVariable(RouteTable[3].pattern, p, 3);
    }
  }

  /** POST /api/v1/models/{name}/refresh reaches refreshModel, with name bound. */
  lemma RefreshRoute(path: string, name: string)
    requires Segments(path).Some? && |Segments(path).value| == 5
    requires NamedModelPath(Segments(path).value[..4], name) && Segments(path).value[4] == "refresh"
    ensures DispatchFrom(RouteTable, "POST", path) == Matched(RefreshModel, map["name" := name])
  {
    TableIsPairwiseDisjoint();
    var p := Segments(path).value;
    assert p[0] == "api" && p[1] == "v1" && p[2] == "models" && p[3] == name;
    assert RouteMatches(RouteTable[4], "POST", path);
    DispatchToMatch(RouteTable, "POST", path, 4);
    BindingsOneVariable(RouteTable[4].pattern, p, 3);
  }

  /** GET /health reaches the liveness probe. */
  lemma HealthRoute()
    ensures DispatchFrom(RouteTable, "GET", "/health") == Matched(HealthCheck, map[])
  {
    TableIsPairwiseDisjoint();
    assert "/health"[1..] == "health";
    SplitPiece("health");
    DispatchToMatch(RouteTable, "GET", "/health", 5);
  }

  /** GET /readiness reaches the readiness probe. */
  lemma ReadinessRoute()
    ensures DispatchFrom(RouteTable, "GET", "/readiness") == Matched(ReadinessCheck, map[])
  {
    TableIsPairwiseDisjoint();
    assert "/readiness"[1..] == "readiness";
    SplitPiece("readiness");
    DispatchToMatch(RouteTable, "GET", "/readiness", 6);
  }

  /** A listed path with a verb no route of that path takes is answered 405. */
  lemma WrongVerbIsNotAllowed(verb: string, path: string)
    requires Segments(path) == Some(["api", "v1", "models"]) && verb != "GET" && verb != "POST"
    ensures DispatchFrom(RouteTable, verb, path) == MethodNotAllowed
  {
  }

  /** The path of /api/v1/models/{name} for a name without '/': dispatched to getModel with that name. */
  lemma GetModelPath(name: string)
    requires name != "" && '/' !in name
    ensures DispatchFrom(RouteTable, "GET", Join(["api", "v1", "models", name])) == Matched(GetModel, map["name" := name])
  {
    var pieces := ["api", "v1", "models", name];
    SegmentsOfJoin(pieces);
    ItemRoutes("GET", Join(pieces), name);
  }
}
