/** The request guards and the status-code decisions of `server/routes.ts`.
    The storage behind most routes is only an interface whose cart, order
    and review methods have no implementation here, so each handler is a
    function of the session, the request and the answers the storage gives
    to the calls it makes; it returns the response and the storage calls in
    the order they are made. A storage call that throws is answered
    `Threw`, and the handler's `catch` turns it into a 500. Registration
    uses the in-memory user store, which is implemented. The request schemas
    are predicates passed in: a body they reject is a validation error. */
module Routes {
  import opened Base
  import opened Schema
  import opened JsText
  import UserStore

  /** A JSON value as Express parses request bodies and sends responses.
      `JNaN` is the number NaN, which `parseInt` can produce. */
  datatype Json =
    | JNull
    | JBool(b: bool)
    | JNumber(n: real)
    | JNaN
    | JString(s: string)
    | JArray(items: seq<Json>)
    | JObject(fields: map<string, Json>)

  type Body = map<string, Json>

  /** Who sent the request: nobody logged in, or a session user. */
  datatype Session = Anonymous | LoggedIn(user: User)

  /** `{ message: ... }`, the schema's error list, or data. */
  datatype Payload = Message(text: string) | ValidationErrors | Data(value: Json)

  /** What a storage call gave back: a value, or an exception. */
  datatype Outcome<T> = Returned(value: T) | Threw

  /** The storage calls the handlers make, with their arguments. */
  datatype StoreCall =
    | AddToCart(item: Body)
    | UpdateCartItem(userId: int, itemId: JsInt, quantity: Json)
    | GetAllOrders
    | GetUserOrders(userId: int)
    | GetOrderById(orderId: JsInt)
    | GetCartItems(userId: int)
    | CreateOrder(order: Body, cartItems: seq<Json>)
    | ClearCart(userId: int)
    | UpdateOrderStatus(orderId: JsInt, status: string)
    | CreateReview(review: Body)
    | GetAllUsers

  datatype Response = Response(status: int, payload: Payload, calls: seq<StoreCall>)

  /** A guard either lets the request through with its user or answers it. */
  datatype Guard = Pass(user: User) | Reject(response: Response)

  function ServerError(calls: seq<StoreCall>): Response
  {
    Response(500, Message("Server error"), calls)
  }

  /** `isAuthenticated`: 401 unless somebody is logged in. */
  function IsAuthenticated(session: Session): (g: Guard)
    ensures g.Pass? <==> session.LoggedIn?
    ensures g.Pass? ==> g.user == session.user
    ensures g.Reject? ==> g.response == Response(401, Message("Unauthorized"), [])
  {
    match session
    case Anonymous => Reject(Response(401, Message("Unauthorized"), []))
    case LoggedIn(u) => Pass(u)
  }

  /** `isAdmin`: 403 unless an admin is logged in, also for a caller who is
      not logged in at all. */
  function IsAdmin(session: Session): (g: Guard)
    ensures g.Pass? <==> session.LoggedIn? && session.user.isAdmin
    ensures g.Pass? ==> g.user == session.user
    ensures g.Reject? ==> g.response == Response(403, Message("Forbidden"), [])
  {
    if session.LoggedIn? && session.user.isAdmin then Pass(session.user)
    else Reject(Response(403, Message("Forbidden"), []))
  }

  /** Every caller the admin guard admits is admitted by the login guard,
      and an anonymous caller gets 403 from the one and 401 from the other. */
  lemma AdminGuardIsStricter(session: Session)
    ensures IsAdmin(session).Pass? ==> IsAuthenticated(session).Pass?
    ensures session.Anonymous? ==>
      IsAdmin(session).response.status == 403 && IsAuthenticated(session).response.status == 401
  {
  }

  /** `parseInt` result as a JSON number. */
  function JsIntJson(n: JsInt): Json
  {
    match n
    case NaN => JNaN
    case Int(v) => JNumber(v as real)
  }

  /** `{ ...body, userId }`: the session user's id replaces whatever the body
      says, and every other field is kept. */
  function WithUserId(body: Body, userId: int): (r: Body)
    ensures "userId" in r && r["userId"] == JNumber(userId as real)
    ensures r.Keys == body.Keys + {"userId"}
    ensures forall k :: k in body && k != "userId" ==> r[k] == body[k]
  {
    body["userId" := JNumber(userId as real)]
  }

  /** `const { password, ...rest } = record`: every field but the password. */
  function WithoutPassword(record: Body): (r: Body)
    ensures "password" !in r
    ensures r.Keys == record.Keys - {"password"}
    ensures forall k :: k in r ==> r[k] == record[k]
  {
    record - {"password"}
  }

  /** A user as a JSON object. */
  function UserJson(u: User): Body
  {
    map["id" := JNumber(u.id as real), "username" := JString(u.username),
        "password" := JString(u.password), "email" := JString(u.email),
        "fullName" := JString(u.fullName), "isAdmin" := JBool(u.isAdmin)]
  }

  /** A user as sent to a client: all of its fields except the password. */
  function SafeUser(u: User): (r: Body)
    ensures r.Keys == {"id", "username", "email", "fullName", "isAdmin"}
    ensures r["id"] == JNumber(u.id as real) && r["username"] == JString(u.username)
    ensures r["email"] == JString(u.email) && r["fullName"] == JString(u.fullName)
    ensures r["isAdmin"] == JBool(u.isAdmin)
  {
    WithoutPassword(UserJson(u))
  }

  /** The payload carries no `password` field, at the top level or in the
      objects of a top-level array. */
  predicate NoPassword(p: Payload)
  {
    p.Data? ==>
      && (p.value.JObject? ==> "password" !in p.value.fields)
      && (p.value.JArray? ==>
            forall i :: 0 <= i < |p.value.items| && p.value.items[i].JObject? ==>
              "password" !in p.value.items[i].fields)
  }

  /** `POST /api/auth/register`. A body the schema rejects (`parsed` is
      `None`) is a 400 and stores nothing; a failure while hashing is a 500;
      otherwise the user is stored with the hash in place of the password and
      answered 201 without it. */
  method Register(store: UserStore.MemStorage, parsed: Option<NewUser>, hashed: Outcome<string>)
      returns (r: Response)
    requires store.Valid()
    modifies store
    ensures store.Valid()
    ensures NoPassword(r.payload)
    ensures r.calls == []
    ensures parsed.None? ==> r == Response(400, ValidationErrors, []) && unchanged(store)
    ensures parsed.Some? && hashed.Threw? ==> r == ServerError([]) && unchanged(store)
    ensures parsed.Some? && hashed.Returned? ==>
      var stored := WithId(parsed.value.(password := hashed.value), old(store.currentId));
      && r == Response(201, Data(JObject(SafeUser(stored))), [])
      && store.currentId == old(store.currentId) + 1
      && store.users == old(store.users)[stored.id := stored]
  {
    if parsed.None? {
      return Response(400, ValidationErrors, []);
    }
    if hashed.Threw? {
      return ServerError([]);
    }
    var userData := parsed.value.(password := hashed.value);
    var newUser := store.CreateUser(userData);
    r := Response(201, Data(JObject(SafeUser(newUser))), []);
  }

  /** `POST /api/auth/login`, once the login strategy has accepted `user`. */
  function Login(user: User): (r: Response)
    ensures r.status == 200 && NoPassword(r.payload)
    ensures r.payload == Data(JObject(SafeUser(user)))
  {
    Response(200, Data(JObject(SafeUser(user))), [])
  }

  /** `GET /api/auth/user`. */
  function CurrentUser(session: Session): (r: Response)
    ensures NoPassword(r.payload)
    ensures r.status == 401 <==> session.Anonymous?
    ensures session.LoggedIn? ==> r == Response(200, Data(JObject(SafeUser(session.user))), [])
  {
    match session
    case Anonymous => Response(401, Message("Not authenticated"), [])
    case LoggedIn(u) => Response(200, Data(JObject(SafeUser(u))), [])
  }

  /** `GET /api/admin/users`: every user, each without its password. */
  function AdminUsers(session: Session, users: Outcome<seq<User>>): (r: Response)
    ensures NoPassword(r.payload)
    ensures r.status == 403 <==> !(session.LoggedIn? && session.user.isAdmin)
    ensures r.status == 200 ==>
      && users.Returned?
      && r.payload.Data? && r.payload.value.JArray?
      && |r.payload.value.items| == |users.value|
      && forall i :: 0 <= i < |users.value| ==> r.payload.value.items[i] == JObject(SafeUser(users.value[i]))
  {
    match IsAdmin(session)
    case Reject(response) => response
    case Pass(_) =>
      match users
      case Threw => ServerError([GetAllUsers])
      case Returned(us) =>
        Response(200, Data(JArray(seq(|us|, i requires 0 <= i < |us| => JObject(SafeUser(us[i]))))), [GetAllUsers])
  }

  /** `POST /api/cart`: the line is stored for the session user, whatever
      `userId` the body names. */
  function CartPost(session: Session, body: Body, valid: Body -> bool, added: Outcome<Json>): (r: Response)
    ensures session.Anonymous? ==> r == Response(401, Message("Unauthorized"), [])
    ensures session.LoggedIn? && !valid(WithUserId(body, session.user.id)) ==>
      r == Response(400, ValidationErrors, [])
    ensures session.LoggedIn? && valid(WithUserId(body, session.user.id)) ==>
      r.calls == [AddToCart(WithUserId(body, session.user.id))]
    ensures r.status == 201 <==> session.LoggedIn? && valid(WithUserId(body, session.user.id)) && added.Returned?
    ensures forall c :: c in r.calls ==> c.AddToCart? && c.item["userId"] == JNumber(session.user.id as real)
  {
    match IsAuthenticated(session)
    case Reject(response) => response
    case Pass(user) =>
      var item := WithUserId(body, user.id);
      if !valid(item) then Response(400, ValidationErrors, [])
      else
        match added
        case Threw => ServerError([AddToCart(item)])
        case Returned(line) => Response(201, Data(line), [AddToCart(item)])
  }

  /** The quantity check of `PUT /api/cart/:id`: a number that is not below
      1. Fractions pass; NaN passes too, since it is a number and not below
      1, though no JSON body can carry it. */
  predicate QuantityAccepted(quantity: Option<Json>): (ok: bool)
    ensures quantity.None? ==> !ok
    ensures quantity.Some? && quantity.value.JNumber? ==> (ok <==> quantity.value.n >= 1.0)
    ensures ok ==> quantity.Some? && (quantity.value.JNumber? || quantity.value.JNaN?)
  {
    quantity.Some? &&
    match quantity.value
    case JNumber(n) => !(n < 1.0)
    case JNaN => true
    case _ => false
  }

  /** `PUT /api/cart/:id`: the quantity is checked before any storage call;
      an item the storage does not find is a 404. */
  function CartPut(session: Session, idParam: string, body: Body, updated: Outcome<Option<Json>>): (r: Response)
    ensures session.Anonymous? ==> r == Response(401, Message("Unauthorized"), [])
    ensures r.status == 400 <==> session.LoggedIn? && !QuantityAccepted(if "quantity" in body then Some(body["quantity"]) else None)
    ensures r.status == 400 ==> r.calls == []
    ensures session.LoggedIn? && r.status != 400 ==>
      r.calls == [UpdateCartItem(session.user.id, ParseInt(idParam), body["quantity"])]
    ensures r.status == 404 <==> session.LoggedIn? && r.calls != [] && updated == Returned(None)
    ensures r.status == 200 <==> session.LoggedIn? && r.calls != [] && updated.Returned? && updated.value.Some?
  {
    match IsAuthenticated(session)
    case Reject(response) => response
    case Pass(user) =>
      var quantity := if "quantity" in body then Some(body["quantity"]) else None;
      if !QuantityAccepted(quantity) then
        Response(400, Message("Quantity must be a positive number"), [])
      else
        var calls := [UpdateCartItem(user.id, ParseInt(idParam), quantity.value)];
        match updated
        case Threw => ServerError(calls)
        case Returned(None) => Response(404, Message("Cart item not found"), calls)
        case Returned(Some(item)) => Response(200, Data(item), calls)
  }

  /** A fractional quantity such as 1.5 reaches the storage. */
  lemma FractionalQuantityPasses(user: User, idParam: string, item: Json)
    ensures CartPut(LoggedIn(user), idParam, map["quantity" := JNumber(1.5)], Returned(Some(item))).status == 200
  {
    assert QuantityAccepted(Some(JNumber(1.5)));
  }

  function OrderJson(o: Order): Json
  {
    JObject(map["id" := JNumber(o.id as real), "userId" := JNumber(o.userId as real),
                "status" := JString(o.status), "shippingAddress" := JString(o.shippingAddress),
                "total" := JNumber(o.total as real)])
  }

  function OrdersJson(os: seq<Order>): (r: Json)
    ensures r.JArray? && |r.items| == |os|
  {
    JArray(seq(|os|, i requires 0 <= i < |os| => OrderJson(os[i])))
  }

  /** `GET /api/orders`: all orders only for an admin asking with
      `all=true`; everybody else, an admin without the flag included, gets
      their own orders. */
  function OrdersGet(session: Session, query: map<string, string>, orders: Outcome<seq<Order>>): (r: Response)
    ensures session.Anonymous? ==> r == Response(401, Message("Unauthorized"), [])
    ensures r.calls == [GetAllOrders] <==>
      session.LoggedIn? && session.user.isAdmin && "all" in query && query["all"] == "true"
    ensures session.LoggedIn? && r.calls != [GetAllOrders] ==> r.calls == [GetUserOrders(session.user.id)]
    ensures r.status == 200 <==> session.LoggedIn? && orders.Returned?
    ensures r.status == 200 ==> r.payload == Data(OrdersJson(orders.value))
  {
    match IsAuthenticated(session)
    case Reject(response) => response
    case Pass(user) =>
      var call := if user.isAdmin && "all" in query && query["all"] == "true" then GetAllOrders
                  else GetUserOrders(user.id);
      match orders
      case Threw => ServerError([call])
      case Returned(os) => Response(200, Data(OrdersJson(os)), [call])
  }

  /** `GET /api/orders/:id`: a missing order is a 404 before ownership is
      looked at; somebody else's order is a 403 unless the caller is an
      admin. */
  function OrderById(session: Session, idParam: string, found: Outcome<Option<Order>>): (r: Response)
    ensures session.Anonymous? ==> r == Response(401, Message("Unauthorized"), [])
    ensures session.LoggedIn? ==> r.calls == [GetOrderById(ParseInt(idParam))]
    ensures r.status == 404 <==> session.LoggedIn? && found == Returned(None)
    ensures r.status == 403 <==>
      session.LoggedIn? && found.Returned? && found.value.Some?
      && found.value.value.userId != session.user.id && !session.user.isAdmin
    ensures r.status == 200 ==>
      && found.Returned? && found.value.Some?
      && (found.value.value.userId == session.user.id || session.user.isAdmin)
      && r.payload == Data(OrderJson(found.value.value))
  {
    match IsAuthenticated(session)
    case Reject(response) => response
    case Pass(user) =>
      var calls := [GetOrderById(ParseInt(idParam))];
      match found
      case Threw => ServerError(calls)
      case Returned(None) => Response(404, Message("Order not found"), calls)
      case Returned(Some(o)) =>
        if o.userId != user.id && !user.isAdmin then Response(403, Message("Forbidden"), calls)
        else Response(200, Data(OrderJson(o)), calls)
  }

  /** `POST /api/orders`: with the cart read, an empty cart is a 400 and no
      order is made; otherwise the order is created from the cart, the cart
      is cleared, and the order is answered 201. */
  function OrdersPost(session: Session, body: Body, valid: Body -> bool,
                      cartItems: Outcome<seq<Json>>, created: Outcome<Order>, cleared: Outcome<bool>): (r: Response)
    ensures session.Anonymous? ==> r == Response(401, Message("Unauthorized"), [])
    ensures session.LoggedIn? && !valid(WithUserId(body, session.user.id)) ==>
      r == Response(400, ValidationErrors, [])
    ensures session.LoggedIn? && cartItems == Returned([]) && valid(WithUserId(body, session.user.id)) ==>
      r == Response(400, Message("Cart is empty"), [GetCartItems(session.user.id)])
    ensures forall i :: 0 <= i < |r.calls| && r.calls[i].CreateOrder? ==>
      && cartItems.Returned? && cartItems.value != []
      && r.calls[i] == CreateOrder(WithUserId(body, session.user.id), cartItems.value)
    ensures r.status == 201 <==>
      session.LoggedIn? && valid(WithUserId(body, session.user.id))
      && cartItems.Returned? && cartItems.value != [] && created.Returned? && cleared.Returned?
    ensures r.status == 201 ==>
      && r.calls == [GetCartItems(session.user.id),
                     CreateOrder(WithUserId(body, session.user.id), cartItems.value),
                     ClearCart(session.user.id)]
      && r.payload == Data(OrderJson(created.value))
  {
    match IsAuthenticated(session)
    case Reject(response) => response
    case Pass(user) =>
      var order := WithUserId(body, user.id);
      if !valid(order) then Response(400, ValidationErrors, [])
      else
        var read := [GetCartItems(user.id)];
        match cartItems
        case Threw => ServerError(read)
        case Returned(items) =>
          if |items| == 0 then Response(400, Message("Cart is empty"), read)
          else
            var create := read + [CreateOrder(order, items)];
            match created
            case Threw => ServerError(create)
            case Returned(o) =>
              var clear := create + [ClearCart(user.id)];
              match cleared
              case Threw => ServerError(clear)
              case Returned(_) => Response(201, Data(OrderJson(o)), clear)
  }

  /** When clearing the cart fails, the order has already been created but
      the client is told 500. */
  lemma ClearFailureAfterCreate(user: User, body: Body, valid: Body -> bool, items: seq<Json>, o: Order)
    requires valid(WithUserId(body, user.id)) && items != []
    ensures var r := OrdersPost(LoggedIn(user), body, valid, Returned(items), Returned(o), Threw);
      r.status == 500 && CreateOrder(WithUserId(body, user.id), items) in r.calls
  {
    var r := OrdersPost(LoggedIn(user), body, valid, Returned(items), Returned(o), Threw);
    assert r.calls[1] == CreateOrder(WithUserId(body, user.id), items);
  }

  /** The status check of `PUT /api/orders/:id/status`: a non-empty string. */
  predicate StatusAccepted(status: Option<Json>): (ok: bool)
    ensures ok ==> status.Some? && status.value.JString? && |status.value.s| >= 1
    ensures status.Some? && status.value.JString? && |status.value.s| >= 1 ==> ok
  {
    status.Some? && status.value.JString? && status.value.s != ""
  }

  /** `PUT /api/orders/:id/status`: admins only; any non-empty string is
      accepted as the new status, with no check on the order of statuses. */
  function StatusPut(session: Session, idParam: string, body: Body, updated: Outcome<Option<Order>>): (r: Response)
    ensures !(session.LoggedIn? && session.user.isAdmin) ==> r == Response(403, Message("Forbidden"), [])
    ensures r.status == 400 <==>
      session.LoggedIn? && session.user.isAdmin && !StatusAccepted(if "status" in body then Some(body["status"]) else None)
    ensures r.status == 400 ==> r.calls == []
    ensures r.calls != [] ==> r.calls == [UpdateOrderStatus(ParseInt(idParam), body["status"].s)]
    ensures r.status == 404 <==> r.calls != [] && updated == Returned(None)
    ensures r.status == 200 <==> r.calls != [] && updated.Returned? && updated.value.Some?
  {
    match IsAdmin(session)
    case Reject(response) => response
    case Pass(_) =>
      var status := if "status" in body then Some(body["status"]) else None;
      if !StatusAccepted(status) then Response(400, Message("Status is required"), [])
      else
        var calls := [UpdateOrderStatus(ParseInt(idParam), status.value.s)];
        match updated
        case Threw => ServerError(calls)
        case Returned(None) => Response(404, Message("Order not found"), calls)
        case Returned(Some(o)) => Response(200, Data(OrderJson(o)), calls)
  }

  /** Any non-empty status string reaches the storage, a made-up one or a
      step backwards alike. */
  lemma AnyStatusReachesStorage(admin: User, idParam: string, status: string, o: Order)
    requires admin.isAdmin && status != ""
    ensures StatusPut(LoggedIn(admin), idParam, map["status" := JString(status)], Returned(Some(o))).calls
            == [UpdateOrderStatus(ParseInt(idParam), status)]
  {
    assert StatusAccepted(Some(JString(status)));
  }

  /** `{ ...body, userId, productId }` for a review. */
  function ReviewBody(body: Body, userId: int, productId: JsInt): (r: Body)
    ensures "userId" in r && r["userId"] == JNumber(userId as real)
    ensures "productId" in r && r["productId"] == JsIntJson(productId)
    ensures forall k :: k in body && k != "userId" && k != "productId" ==> k in r && r[k] == body[k]
  {
    WithUserId(body, userId)["productId" := JsIntJson(productId)]
  }

  /** `POST /api/products/:id/reviews`: the review is stored for the session
      user and the product in the path, whatever the body says. */
  function ReviewsPost(session: Session, idParam: string, body: Body, valid: Body -> bool, created: Outcome<Json>): (r: Response)
    ensures session.Anonymous? ==> r == Response(401, Message("Unauthorized"), [])
    ensures forall c :: c in r.calls ==>
      && c.CreateReview?
      && "userId" in c.review && "productId" in c.review
      && c.review["userId"] == JNumber(session.user.id as real)
      && c.review["productId"] == JsIntJson(ParseInt(idParam))
    ensures r.status == 201 <==>
      session.LoggedIn? && valid(ReviewBody(body, session.user.id, ParseInt(idParam))) && created.Returned?
    ensures r.status == 400 <==>
      session.LoggedIn? && !valid(ReviewBody(body, session.user.id, ParseInt(idParam)))
  {
    match IsAuthenticated(session)
    case Reject(response) => response
    case Pass(user) =>
      var review := ReviewBody(body, user.id, ParseInt(idParam));
      if !valid(review) then Response(400, ValidationErrors, [])
      else
        match created
        case Threw => ServerError([CreateReview(review)])
        case Returned(v) => Response(201, Data(v), [CreateReview(review)])
  }
}
