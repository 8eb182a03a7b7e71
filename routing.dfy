/** The two route tables in registration order, the first-match dispatch of
    an Express router, and the middleware each route runs before its
    handler. Paths are lists of segments below the router's mount point. */
module Routing {
  import opened Js
  import opened Http
  import opened Auth
  import UserModel

  datatype Verb = Get | Post | Put

  /** A pattern segment: a literal, or a `:param` that matches any one non-empty segment. */
  datatype Segment = Lit(text: string) | Param

  datatype Gate = NeedsAuth | NeedsAdmin

  datatype Handler =
    | ListUsers | ShowUser | UpdateUser | SigninUser | SignupUser | UpdateOwnProfile
    | ListOrders | CreateOrder | OrderSummary | OwnStats | OwnOrders | OwnRecentOrders | ShowOrder
    | OrderProcessed | OrderEstimatedDelivery | OrderReady | OrderDeliver

  datatype Route = Route(verb: Verb, pattern: seq<Segment>, gates: seq<Gate>, handler: Handler)

  /** ASCII lower case; every other character is left as it is. */
  function LowerChar(c: char): (d: char)
    ensures 'A' <= c <= 'Z' ==> d as int == c as int + 32
    ensures !('A' <= c <= 'Z') ==> d == c
  {
    if 'A' <= c <= 'Z' then (c as int + 32) as char else c
  }

  function Lower(s: string): (t: string)
    ensures |t| == |s|
    ensures forall i :: 0 <= i < |s| ==> t[i] == LowerChar(s[i])
  {
    seq(|s|, i requires 0 <= i < |s| => LowerChar(s[i]))
  }

  /** Equal up to ASCII case. A router made by `express.Router()` is not case
      sensitive, and its literals are ASCII, so a non-ASCII character of the
      path never folds onto one of theirs. */
  predicate SameText(a: string, b: string)
  {
    Lower(a) == Lower(b)
  }

  predicate Matches(pattern: seq<Segment>, path: seq<string>)
  {
    && |pattern| == |path|
    && (forall i :: 0 <= i < |path| ==> pattern[i].Lit? ==> SameText(pattern[i].text, path[i]))
    && (forall i :: 0 <= i < |path| ==> pattern[i].Param? ==> path[i] != "")
  }

  predicate Accepts(r: Route, verb: Verb, path: seq<string>)
  {
    r.verb == verb && Matches(r.pattern, path)
  }

  /** The router tries its routes in registration order and runs the first that matches. */
  function Dispatch(routes: seq<Route>, verb: Verb, path: seq<string>): (r: Option<nat>)
    ensures r.Some? ==> r.value < |routes| && Accepts(routes[r.value], verb, path)
    ensures r.Some? ==> forall j :: 0 <= j < r.value ==> !Accepts(routes[j], verb, path)
    ensures r.None? ==> forall j :: 0 <= j < |routes| ==> !Accepts(routes[j], verb, path)
  {
    if routes == [] then None
    else if Accepts(routes[0], verb, path) then Some(0)
    else match Dispatch(routes[1..], verb, path)
      case None => None
      case Some(k) => Some(k + 1)
  }

  /** The route a request reaches is the first one that accepts it. */
  lemma FirstMatch(routes: seq<Route>, verb: Verb, path: seq<string>, k: nat)
    requires k < |routes| && Accepts(routes[k], verb, path)
    requires forall j :: 0 <= j < k ==> !Accepts(routes[j], verb, path)
    ensures Dispatch(routes, verb, path) == Some(k)
  {
  }

  /** A literal segment that differs from the path's rules the pattern out. */
  lemma LiteralMismatch(pattern: seq<Segment>, path: seq<string>, i: nat)
    requires i < |pattern| && i < |path| && pattern[i].Lit? && !SameText(pattern[i].text, path[i])
    ensures !Matches(pattern, path)
  {
  }

  const AUTH: seq<Gate> := [NeedsAuth]
  const ADMIN: seq<Gate> := [NeedsAuth, NeedsAdmin]

  /** The user router as registered: `PUT /:id` comes before `PUT /profile`. */
  const UserRoutesAsWritten: seq<Route> := [
    Route(Get, [], ADMIN, ListUsers),
    Route(Get, [Param], ADMIN, ShowUser),
    Route(Put, [Param], ADMIN, UpdateUser),
    Route(Post, [Lit("signin")], [], SigninUser),
    Route(Post, [Lit("signup")], [], SignupUser),
    Route(Put, [Lit("profile")], AUTH, UpdateOwnProfile)
  ]

  /** `PUT /profile` is taken by `PUT /:id` with `id = "profile"`, so the
      profile handler is never run. */
  lemma ProfileShadowedAsWritten()
    ensures Dispatch(UserRoutesAsWritten, Put, ["profile"]) == Some(2)
    ensures UserRoutesAsWritten[2].handler == UpdateUser && UserRoutesAsWritten[2].gates == ADMIN
    ensures forall verb, path :: Dispatch(UserRoutesAsWritten, verb, path) != Some(5)
  {
    assert Accepts(UserRoutesAsWritten[2], Put, ["profile"]);
    forall verb, path ensures Dispatch(UserRoutesAsWritten, verb, path) != Some(5) {
      if Dispatch(UserRoutesAsWritten, verb, path) == Some(5) {
        assert Accepts(UserRoutesAsWritten[2], verb, path);
        assert false;
      }
    }
  }

  /** The user router with the literal route registered before the parameter route. */
  const UserRoutes: seq<Route> := [
    Route(Get, [], ADMIN, ListUsers),
    Route(Put, [Lit("profile")], AUTH, UpdateOwnProfile),
    Route(Get, [Param], ADMIN, ShowUser),
    Route(Put, [Param], ADMIN, UpdateUser),
    Route(Post, [Lit("signin")], [], SigninUser),
    Route(Post, [Lit("signup")], [], SignupUser)
  ]

  /** Corrected, `PUT /profile` in any letter case runs the profile handler,
      every other `PUT /<id>` still reaches the admin update, and `GET /<id>`
      the user lookup. */
  lemma ProfileReachable()
    ensures UserRoutes[1].handler == UpdateOwnProfile
    ensures forall id :: SameText(id, "profile") ==> Dispatch(UserRoutes, Put, [id]) == Some(1)
    ensures forall id :: id != "" && !SameText(id, "profile") ==> Dispatch(UserRoutes, Put, [id]) == Some(3)
    ensures forall id :: id != "" ==> Dispatch(UserRoutes, Get, [id]) == Some(2)
  {
    forall id | SameText(id, "profile") ensures Dispatch(UserRoutes, Put, [id]) == Some(1) {
      FirstMatch(UserRoutes, Put, [id], 1);
    }
    forall id | id != "" && !SameText(id, "profile") ensures Dispatch(UserRoutes, Put, [id]) == Some(3) {
      LiteralMismatch(UserRoutes[1].pattern, [id], 0);
      FirstMatch(UserRoutes, Put, [id], 3);
    }
    forall id | id != "" ensures Dispatch(UserRoutes, Get, [id]) == Some(2) {
      assert !Matches(UserRoutes[0].pattern, [id]);
      FirstMatch(UserRoutes, Get, [id], 2);
    }
  }

  /** The order router as registered; its literal routes precede `/:id`. */
  const OrderRoutes: seq<Route> := [
    Route(Get, [], ADMIN, ListOrders),
    Route(Post, [], AUTH, CreateOrder),
    Route(Get, [Lit("summary")], ADMIN, OrderSummary),
    Route(Get, [Lit("mine"), Lit("stats")], AUTH, OwnStats),
    Route(Get, [Lit("mine")], AUTH, OwnOrders),
    Route(Get, [Lit("mine"), Lit("recent-orders")], AUTH, OwnRecentOrders),
    Route(Get, [Param], AUTH, ShowOrder),
    Route(Put, [Param, Lit("order-processed")], AUTH, OrderProcessed),
    Route(Put, [Param, Lit("estimatedDelivery")], AUTH, OrderEstimatedDelivery),
    Route(Put, [Param, Lit("ready")], AUTH, OrderReady),
    Route(Put, [Param, Lit("deliver")], AUTH, OrderDeliver)
  ]

  /** The literal order routes are registered before `GET /:id`, so none of
      them is taken by it, in whatever letter case the segment is sent. */
  lemma SummaryRouteReachable(seg: string)
    requires SameText(seg, "summary")
    ensures Dispatch(OrderRoutes, Get, [seg]) == Some(2)
  {
    FirstMatch(OrderRoutes, Get, [seg], 2);
  }

  lemma StatsRouteReachable()
    ensures Dispatch(OrderRoutes, Get, ["mine", "stats"]) == Some(3)
  {
    FirstMatch(OrderRoutes, Get, ["mine", "stats"], 3);
  }

  lemma MineRouteReachable(seg: string)
    requires SameText(seg, "mine")
    ensures Dispatch(OrderRoutes, Get, [seg]) == Some(4)
  {
    assert Lower("summary")[0] != Lower("mine")[0];
    LiteralMismatch(OrderRoutes[2].pattern, [seg], 0);
    FirstMatch(OrderRoutes, Get, [seg], 4);
  }

  lemma RecentRouteReachable()
    ensures Dispatch(OrderRoutes, Get, ["mine", "recent-orders"]) == Some(5)
  {
    assert Lower("stats")[0] != Lower("recent-orders")[0];
    LiteralMismatch(OrderRoutes[3].pattern, ["mine", "recent-orders"], 1);
    FirstMatch(OrderRoutes, Get, ["mine", "recent-orders"], 5);
  }

  /** Any other single segment is an order id; `Summary` or `MINE` are not. */
  lemma OrderLookupReachable(id: string)
    requires id != "" && !SameText(id, "summary") && !SameText(id, "mine")
    ensures Dispatch(OrderRoutes, Get, [id]) == Some(6)
  {
    LiteralMismatch(OrderRoutes[2].pattern, [id], 0);
    LiteralMismatch(OrderRoutes[4].pattern, [id], 0);
    FirstMatch(OrderRoutes, Get, [id], 6);
  }

  /** Each transition is reached for every non-empty order id. */
  lemma ProcessedRouteReachable(id: string)
    requires id != ""
    ensures Dispatch(OrderRoutes, Put, [id, "order-processed"]) == Some(7)
  {
    FirstMatch(OrderRoutes, Put, [id, "order-processed"], 7);
  }

  lemma EstimatedDeliveryRouteReachable(id: string)
    requires id != ""
    ensures Dispatch(OrderRoutes, Put, [id, "estimatedDelivery"]) == Some(8)
  {
    assert Lower("order-processed")[0] != Lower("estimatedDelivery")[0];
    LiteralMismatch(OrderRoutes[7].pattern, [id, "estimatedDelivery"], 1);
    FirstMatch(OrderRoutes, Put, [id, "estimatedDelivery"], 8);
  }

  lemma ReadyRouteReachable(id: string)
    requires id != ""
    ensures Dispatch(OrderRoutes, Put, [id, "ready"]) == Some(9)
  {
    assert Lower("order-processed")[0] != Lower("ready")[0] && Lower("estimatedDelivery")[0] != Lower("ready")[0];
    LiteralMismatch(OrderRoutes[7].pattern, [id, "ready"], 1);
    LiteralMismatch(OrderRoutes[8].pattern, [id, "ready"], 1);
    FirstMatch(OrderRoutes, Put, [id, "ready"], 9);
  }

  lemma DeliverRouteReachable(id: string)
    requires id != ""
    ensures Dispatch(OrderRoutes, Put, [id, "deliver"]) == Some(10)
  {
    assert Lower("order-processed")[0] != Lower("deliver")[0] && Lower("estimatedDelivery")[0] != Lower("deliver")[0];
    assert Lower("ready")[0] != Lower("deliver")[0];
    LiteralMismatch(OrderRoutes[7].pattern, [id, "deliver"], 1);
    LiteralMismatch(OrderRoutes[8].pattern, [id, "deliver"], 1);
    LiteralMismatch(OrderRoutes[9].pattern, [id, "deliver"], 1);
    FirstMatch(OrderRoutes, Put, [id, "deliver"], 10);
  }

  /** A `:param` needs at least one character, so an empty id segment
      reaches no order or user route that takes an id. */
  lemma EmptyIdReachesNothing(t: string)
    ensures Dispatch(OrderRoutes, Get, [""]) == None
    ensures Dispatch(OrderRoutes, Put, ["", t]) == None
    ensures Dispatch(UserRoutes, Get, [""]) == None
    ensures Dispatch(UserRoutes, Put, [""]) == None
  {
    assert !SameText("summary", "") && !SameText("mine", "") && !SameText("profile", "");
    forall j | 0 <= j < |OrderRoutes| ensures !Accepts(OrderRoutes[j], Get, [""]) && !Accepts(OrderRoutes[j], Put, ["", t]) {
      assert OrderRoutes[j].pattern != [] ==> OrderRoutes[j].pattern[0] in {Param, Lit("summary"), Lit("mine")};
    }
    forall j | 0 <= j < |UserRoutes| ensures !Accepts(UserRoutes[j], Get, [""]) && !Accepts(UserRoutes[j], Put, [""]) {
      assert UserRoutes[j].pattern != [] ==> UserRoutes[j].pattern[0] in {Param, Lit("profile"), Lit("signin"), Lit("signup")};
    }
  }

  /** Runs a route's middleware in order. `isAuth` sets the user that a later `isAdmin` reads. */
  function RunGates(gates: seq<Gate>, user: Option<Payload>, header: Option<string>,
                    verify: string -> Option<Payload>): (r: Result<Option<Payload>>)
    ensures gates == [] ==> r == Success(user)
  {
    if gates == [] then Success(user)
    else match gates[0]
      case NeedsAuth =>
        (match Authenticate(header, verify)
         case Rejected(e) => Failure(e)
         case Authenticated(p) => RunGates(gates[1..], Some(p), header, verify))
      case NeedsAdmin =>
        (match AdminGate(user)
         case Some(e) => Failure(e)
         case None => RunGates(gates[1..], user, header, verify))
  }

  predicate AdminOnly(r: Route)
  {
    r.gates == ADMIN
  }

  /** Every order route but the listing and the summary, the transitions
      included, admits exactly the requests that authenticate: no role, no owner. */
  lemma OrderRoutesOnlyAuthenticate(header: Option<string>, verify: string -> Option<Payload>)
    ensures forall k :: 0 <= k < |OrderRoutes| && !AdminOnly(OrderRoutes[k]) ==>
      (RunGates(OrderRoutes[k].gates, None, header, verify).Success?
       <==> Authenticate(header, verify).Authenticated?)
    ensures forall k :: 0 <= k < |OrderRoutes| && !AdminOnly(OrderRoutes[k]) &&
                        Authenticate(header, verify).Authenticated? ==>
      RunGates(OrderRoutes[k].gates, None, header, verify) == Success(Some(Authenticate(header, verify).user))
  {
    forall k | 0 <= k < |OrderRoutes| && !AdminOnly(OrderRoutes[k]) ensures OrderRoutes[k].gates == AUTH {
    }
  }

  /** The admin gate passes exactly on an authenticated payload with a truthy `isAdmin`. */
  lemma AdminGatesNeedTruthyClaim(header: Option<string>, verify: string -> Option<Payload>)
    ensures RunGates(ADMIN, None, header, verify).Success? <==>
      Authenticate(header, verify).Authenticated? && Truthy(Authenticate(header, verify).user.isAdmin)
  {
  }

  /** With an oracle that verifies what was signed, a token issued at signin
      opens every authenticated route and no admin one. */
  lemma IssuedTokenOnRoutes(u: UserModel.User, sign: Claims -> string, verify: string -> Option<Payload>, r: Route)
    requires forall c :: verify(sign(c)) == Some(c.payload)
    requires r in OrderRoutes || r in UserRoutes
    ensures r.gates == AUTH ==>
      RunGates(r.gates, None, Some("Bearer " + sign(TokenClaims(u))), verify) == Success(Some(TokenClaims(u).payload))
    ensures AdminOnly(r) ==>
      RunGates(r.gates, None, Some("Bearer " + sign(TokenClaims(u))), verify) == Failure(INVALID_ADMIN_TOKEN)
  {
    IssuedTokenFailsAdminGate(u, sign, verify);
  }
}
