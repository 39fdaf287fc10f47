/** The rows PortGuard renders, validates and stores (internal/store/models.go). */
module Model {
  import opened Text

  datatype Engine = Nginx | HAProxy

  datatype Protocol = Http | Https | Tcp | Udp

  datatype Target = Target(host: string, port: int, weight: int, backup: bool)

  datatype AccessRule = AccessRule(action: string, value: string)

  datatype Transport = WS | HttpUpgrade | XHttp

  datatype PathRoute = PathRoute(transport: Transport, prefix: string, minPort: int, maxPort: int)

  datatype RouteRule = RouteRule(id: nat, path: string, enabled: bool, targets: seq<Target>, redirect: string)

  datatype Mapping = Mapping(
    id: nat,
    name: string,
    enabled: bool,
    engine: Engine,
    protocol: Protocol,
    listenIP: string,
    listenPort: int,
    serverNames: seq<string>,
    sslCert: Option<nat>,
    redirectTo: string,
    webSocket: bool,
    http2: bool,
    targets: seq<Target>,
    balance: string,
    pathPrefix: string,
    accessRules: seq<AccessRule>,
    extraHeaders: seq<(string, string)>,
    pathRoutes: seq<PathRoute>,
    hostHeader: string,
    decoy: string,
    decoyHtml: string,
    routes: seq<RouteRule>)

  /** L7 protocols carry paths, names and redirects. */
  predicate IsHttp(m: Mapping) {
    m.protocol == Http || m.protocol == Https
  }

  predicate DistinctIds(ms: seq<Mapping>) {
    forall i, j :: 0 <= i < j < |ms| ==> ms[i].id != ms[j].id
  }
}
