/** The shared records the client and the server exchange. The schema module
    that declares them is not part of this model: the fields below are the
    ones the modelled code reads, with prices in whole rupees. */
module Schema {
  import opened Base

  datatype Product = Product(
    id: int,
    name: string,
    description: string,
    price: int,
    discountPrice: Option<int>,  // `null` when the product is not on sale
    stock: int)

  /** `discountPrice` is truthy: present and not zero. */
  predicate HasDiscount(p: Product)
  {
    p.discountPrice.Some? && p.discountPrice.value != 0
  }

  /** `product.discountPrice || product.price`: the price a customer pays,
      used by the cart total, the catalogue sort and the admin product list. */
  function EffectivePrice(p: Product): (r: int)
    ensures HasDiscount(p) ==> r == p.discountPrice.value
    ensures !HasDiscount(p) ==> r == p.price
  {
    if HasDiscount(p) then p.discountPrice.value else p.price
  }

  /** A zero discount is falsy, so the regular price applies. */
  lemma ZeroDiscountFallsBack(p: Product)
    requires p.discountPrice == Some(0)
    ensures EffectivePrice(p) == p.price
  {
  }

  /** The fields a registration supplies (`InsertUser`). */
  datatype NewUser = NewUser(
    username: string,
    password: string,
    email: string,
    fullName: string,
    isAdmin: bool)

  datatype User = User(
    id: int,
    username: string,
    password: string,
    email: string,
    fullName: string,
    isAdmin: bool)

  /** `{ ...insertUser, id }` */
  function WithId(u: NewUser, id: int): (r: User)
    ensures r.id == id && r.username == u.username && r.password == u.password
    ensures r.email == u.email && r.fullName == u.fullName && r.isAdmin == u.isAdmin
  {
    User(id, u.username, u.password, u.email, u.fullName, u.isAdmin)
  }

  datatype Order = Order(
    id: int,
    userId: int,
    status: string,
    shippingAddress: string,
    total: int)
}
