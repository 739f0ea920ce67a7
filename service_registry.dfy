/**
 * The static table from logical service name and endpoint name to the
 * service's base URL (read from the environment) and the endpoint's HTTP
 * method and path template.
 */
module ServiceRegistry {
  import opened Js

  datatype HttpMethod = GET | POST

  datatype Endpoint = Endpoint(verb: HttpMethod, path: string)

  /** A registered service; `url` is `None` when its environment variable is unset. */
  datatype Service = Service(url: Option<string>, endpoints: map<string, Endpoint>)

  /** `{url, endpoint}` as returned by a successful lookup. */
  datatype Resolved = Resolved(url: Option<string>, endpoint: Endpoint)

  function EnvVar(env: Env, name: string): Option<string>
  {
    if name in env then Some(env[name]) else None
  }

  /** The table built once by the registry's constructor. */
  function Services(env: Env): map<string, Service>
  {
    map[
      "userService" := Service(EnvVar(env, "USER_SERVICE_URL"), map[
        "createUser" := Endpoint(POST, "/api/users"),
        "getUsersByIds" := Endpoint(POST, "/api/users/batch"),
        "getUserById" := Endpoint(GET, "/api/users/:id"),
        "getUserByEmail" := Endpoint(GET, "/api/users/by-email?email=:email")
      ]),
      "productService" := Service(EnvVar(env, "PRODUCT_SERVICE_URL"), map[
        "getProductsByUserIds" := Endpoint(POST, "/api/products/by-users"),
        "getProductsByIds" := Endpoint(POST, "/api/products/batch"),
        "getProductById" := Endpoint(GET, "/api/products/:id")
      ]),
      "authService" := Service(EnvVar(env, "AUTH_SERVICE_URL"), map[
        "register" := Endpoint(POST, "/api/auth/register"),
        "login" := Endpoint(POST, "/api/auth/login"),
        "refreshToken" := Endpoint(POST, "/api/auth/refresh-token"),
        "logout" := Endpoint(POST, "/api/auth/logout")
      ])
    ]
  }

  /**
   * `getServiceEndpoint(serviceName, endpointName)`: the service is looked up
   * first, so an unknown service is reported even when the endpoint name is
   * unknown too.
   */
  function GetServiceEndpoint(env: Env, serviceName: string, endpointName: string): (r: Result<Resolved>)
    ensures serviceName !in Services(env) ==>
      r == Err(PlainError("Service " + serviceName + " not found"))
    ensures serviceName in Services(env) && endpointName !in Services(env)[serviceName].endpoints ==>
      r == Err(PlainError("Endpoint " + endpointName + " not found in " + serviceName))
    ensures r.Ok? <==>
      serviceName in Services(env) && endpointName in Services(env)[serviceName].endpoints
    ensures r.Ok? ==>
      r.value == Resolved(Services(env)[serviceName].url, Services(env)[serviceName].endpoints[endpointName])
  {
    var services := Services(env);
    if serviceName !in services then Err(PlainError("Service " + serviceName + " not found"))
    else
      var service := services[serviceName];
      if endpointName !in service.endpoints then
        Err(PlainError("Endpoint " + endpointName + " not found in " + serviceName))
      else Ok(Resolved(service.url, service.endpoints[endpointName]))
  }

  /** The table holds three services with four, three and four endpoints: eleven in all. */
  lemma TableShape(env: Env)
    ensures Services(env).Keys == {"userService", "productService", "authService"}
    ensures |Services(env).Keys| == 3
    ensures |Services(env)["userService"].endpoints.Keys| +
            |Services(env)["productService"].endpoints.Keys| +
            |Services(env)["authService"].endpoints.Keys| == 11
  {
    var s := Services(env);
    var u := s["userService"].endpoints.Keys;
    var p := s["productService"].endpoints.Keys;
    var a := s["authService"].endpoints.Keys;
    assert u == {"createUser", "getUsersByIds", "getUserById", "getUserByEmail"};
    assert p == {"getProductsByUserIds", "getProductsByIds", "getProductById"};
    assert a == {"register", "login", "refreshToken", "logout"};
    CountFour("createUser", "getUsersByIds", "getUserById", "getUserByEmail");
    CountThree("getProductsByUserIds", "getProductsByIds", "getProductById");
    CountFour("register", "login", "refreshToken", "logout");
    CountThree("userService", "productService", "authService");
  }

  lemma CountThree(x: string, y: string, z: string)
    requires x != y && y != z && x != z
    ensures |{x, y, z}| == 3
  {
    assert {x, y, z} == {x} + {y} + {z};
  }

  lemma CountFour(w: string, x: string, y: string, z: string)
    requires w != x && w != y && w != z && x != y && y != z && x != z
    ensures |{w, x, y, z}| == 4
  {
    assert {w, x, y, z} == {w} + {x} + {y} + {z};
  }

  /** Every registered path starts with "/api/". */
  lemma PathsUnderApi(env: Env, serviceName: string, endpointName: string)
    requires GetServiceEndpoint(env, serviceName, endpointName).Ok?
    ensures "/api/" <= GetServiceEndpoint(env, serviceName, endpointName).value.endpoint.path
  {
    var s := Services(env);
    assert s.Keys == {"userService", "productService", "authService"};
    assert s["userService"].endpoints.Keys ==
      {"createUser", "getUsersByIds", "getUserById", "getUserByEmail"};
    assert s["productService"].endpoints.Keys ==
      {"getProductsByUserIds", "getProductsByIds", "getProductById"};
    assert s["authService"].endpoints.Keys == {"register", "login", "refreshToken", "logout"};
  }

  /** The lookup the auth service makes at login. */
  lemma UserByEmailEndpoint(env: Env)
    ensures GetServiceEndpoint(env, "userService", "getUserByEmail") ==
      Ok(Resolved(EnvVar(env, "USER_SERVICE_URL"), Endpoint(GET, "/api/users/by-email?email=:email")))
  {
  }
}
