/** `cart_context` (shop/context_processors.py): which cart every page is rendered with. */
module CartContext {
  import opened Base
  import opened Carts

  /** What the processor reads off a request: the signed-in customer's id, if any (`None` for
      an anonymous visitor), and the session key, if the session has one. */
  datatype Request = Request(user: Option<nat>, sessionKey: Option<string>)

  /** The position of the first cart that `keep` selects: `.filter(...).first()` over the
      carts listed in id order. */
  function FirstWhere(carts: seq<Cart>, keep: Cart -> bool): (r: Option<nat>)
    ensures r.Some? ==> r.value < |carts| && keep(carts[r.value])
    ensures r.Some? ==> forall j :: 0 <= j < r.value ==> !keep(carts[j])
    ensures r.None? <==> forall j :: 0 <= j < |carts| ==> !keep(carts[j])
  {
    if carts == [] then None
    else if keep(carts[0]) then Some(0)
    else
      match FirstWhere(carts[1..], keep)
      case None => None
      case Some(k) => Some(k + 1)
  }

  /** A cart of customer `user`. */
  predicate OfUser(c: Cart, user: nat) {
    c.user == Some(user)
  }

  /** An anonymous cart of session `key`. */
  predicate OfSession(c: Cart, key: string) {
    c.sessionKey == Some(key) && c.user == None
  }

  /** The cart the processor picks: for a signed-in customer, their first cart; for an
      anonymous visitor with a (non-empty) session key, the first anonymous cart of that
      session; otherwise none. */
  function ResolveCart(carts: seq<Cart>, req: Request): (r: Option<Cart>)
    ensures req.user.Some? ==>
      && (r.Some? ==> r.value in carts && OfUser(r.value, req.user.value))
      && (r.None? <==> forall c :: c in carts ==> !OfUser(c, req.user.value))
    ensures req.user.None? && (req.sessionKey == None || req.sessionKey == Some("")) ==> r == None
    ensures req.user.None? && req.sessionKey.Some? && req.sessionKey.value != "" ==>
      && (r.Some? ==> r.value in carts && OfSession(r.value, req.sessionKey.value))
      && (r.None? <==> forall c :: c in carts ==> !OfSession(c, req.sessionKey.value))
    ensures req.user.None? && r.Some? ==> r.value.user == None
  {
    var found :=
      if req.user.Some? then
        var u := req.user.value;
        FirstWhere(carts, c => OfUser(c, u))
      else if req.sessionKey.Some? && req.sessionKey.value != "" then
        var key := req.sessionKey.value;
        FirstWhere(carts, c => OfSession(c, key))
      else None;
    if found.Some? then Some(carts[found.value]) else None
  }

  /** `cart_context`: the template context, with the single key "cart". */
  function Context(carts: seq<Cart>, req: Request): (r: map<string, Option<Cart>>)
    ensures r.Keys == {"cart"} && r["cart"] == ResolveCart(carts, req)
  {
    map["cart" := ResolveCart(carts, req)]
  }

  /** With the carts in increasing id order, the cart picked has the least id of the carts the
      request could have picked. */
  lemma ResolvedHasLeastId(carts: seq<Cart>, req: Request)
    requires forall i, j :: 0 <= i < j < |carts| ==> carts[i].id < carts[j].id
    requires ResolveCart(carts, req).Some?
    ensures var c := ResolveCart(carts, req).value;
      forall d :: d in carts && (if req.user.Some? then OfUser(d, req.user.value) else OfSession(d, req.sessionKey.value))
        ==> c.id <= d.id
  {
    var keep := if req.user.Some? then (var u := req.user.value; (c: Cart) => OfUser(c, u))
                else (var key := req.sessionKey.value; (c: Cart) => OfSession(c, key));
    var k := FirstWhere(carts, keep).value;
    assert ResolveCart(carts, req).value == carts[k];
    forall d | d in carts && keep(d)
      ensures carts[k].id <= d.id
    {
      var j :| 0 <= j < |carts| && carts[j] == d;
      assert k <= j;
    }
  }
}
