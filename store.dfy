/** The store page's enquiry list: products are added to a cart (duplicates
    allowed), the cart's estimated total is shown, and submitting the form
    posts one "Enquiry" booking that names the cart's products. */
module Store {
  import opened Common
  import opened Catalog

  /** `cart.reduce((sum, item) => sum + item.price, 0)`, folded from the left
      as `reduce` does. */
  function Total(cart: seq<Product>): int
  {
    if cart == [] then 0 else Total(cart[..|cart| - 1]) + cart[|cart| - 1].price
  }

  /** The total of two carts laid end to end is the sum of their totals. */
  lemma {:induction false} TotalConcat(a: seq<Product>, b: seq<Product>)
    ensures Total(a + b) == Total(a) + Total(b)
    decreases |b|
  {
    if b != [] {
      var b' := b[..|b| - 1];
      assert (a + b)[..|a + b| - 1] == a + b';
      TotalConcat(a, b');
    } else {
      assert a + b == a;
    }
  }

  /** The total adds up each product's price once per occurrence, and is
      never negative when no price is. */
  lemma {:induction false} TotalIsSumOfPrices(cart: seq<Product>)
    ensures cart == [] ==> Total(cart) == 0
    ensures (forall p :: p in cart ==> p.price >= 0) ==> Total(cart) >= 0
    ensures |cart| > 0 ==> Total(cart) == cart[0].price + Total(cart[1..])
    decreases |cart|
  {
    if |cart| > 0 {
      TotalConcat([cart[0]], cart[1..]);
      assert [cart[0]] + cart[1..] == cart;
      assert Total([cart[0]]) == cart[0].price by {
        assert [cart[0]][..0] == [];
      }
      TotalIsSumOfPrices(cart[1..]);
    }
  }

  /** The names of the cart's products, in cart order. */
  function Names(cart: seq<Product>): (names: seq<string>)
    ensures |names| == |cart|
    ensures forall i :: 0 <= i < |cart| ==> names[i] == cart[i].name
  {
    if cart == [] then [] else [cart[0].name] + Names(cart[1..])
  }

  /** The enquiry's detail: the names joined with ", ", or "Products Enquiry"
      when that join is empty. */
  function EnquiryDetail(cart: seq<Product>): (d: string)
    ensures d == "Products Enquiry" <==>
      cart == [] || (|cart| == 1 && cart[0].name == "") || Join(Names(cart), ", ") == "Products Enquiry"
    ensures |cart| >= 2 ==> d == Join(Names(cart), ", ")
    ensures |cart| == 1 && cart[0].name != "" ==> d == cart[0].name
  {
    var joined := Join(Names(cart), ", ");
    JoinEmptyIff(Names(cart), ", ");
    if joined != "" then joined else "Products Enquiry"
  }

  /** The booking posted on submit: customer name (or "Guest"), phone (or
      absent), type "Enquiry", the cart's detail, the given time stamp and
      status "Pending". */
  function Enquiry(cart: seq<Product>, name: string, phone: string, now: string): (r: BookingRequest)
    ensures r.kind == "Enquiry" && r.status == "Pending" && r.time == now
    ensures r.name == if name != "" then name else "Guest"
    ensures r.phone == if phone != "" then Some(phone) else None
    ensures r.detail == EnquiryDetail(cart)
  {
    BookingRequest(
      if name != "" then name else "Guest",
      if phone != "" then Some(phone) else None,
      "Enquiry",
      EnquiryDetail(cart),
      now,
      "Pending")
  }

  /** The page's state: the cart, whether the enquiry sheet is open, and the
      form's two fields. */
  class EnquiryCart {
    var cart: seq<Product>
    var isCartOpen: bool
    var customerName: string
    var customerPhone: string

    constructor ()
      ensures cart == [] && !isCartOpen && customerName == "" && customerPhone == ""
    {
      cart := [];
      isCartOpen := false;
      customerName := "";
      customerPhone := "";
    }

    /** "Add to Enquiry": the product goes to the end of the cart. */
    method AddToCart(product: Product)
      modifies this`cart
      ensures cart == old(cart) + [product]
      ensures |cart| == |old(cart)| + 1
      ensures Total(cart) == Total(old(cart)) + product.price
    {
      cart := cart + [product];
      assert cart[..|cart| - 1] == old(cart);
    }

    /** Opening or closing the enquiry sheet. */
    method SetCartOpen(open: bool)
      modifies this`isCartOpen
      ensures isCartOpen == open
    {
      isCartOpen := open;
    }

    /** The form's change handlers. */
    method Fill(name: string, phone: string)
      modifies this`customerName, this`customerPhone
      ensures customerName == name && customerPhone == phone
    {
      customerName, customerPhone := name, phone;
    }

    /** Submitting the form posts the enquiry built from the current state;
      `accepted` is whether the server took it. On success the cart is
      emptied, the sheet closed and the fields cleared; on failure nothing
      changes. */
    method SubmitEnquiry(now: string, accepted: bool) returns (sent: BookingRequest)
      modifies this
      ensures sent == Enquiry(old(cart), old(customerName), old(customerPhone), now)
      ensures accepted ==> cart == [] && !isCartOpen && customerName == "" && customerPhone == ""
      ensures !accepted ==> cart == old(cart) && isCartOpen == old(isCartOpen) &&
                            customerName == old(customerName) && customerPhone == old(customerPhone)
    {
      sent := Enquiry(cart, customerName, customerPhone, now);
      if accepted {
        cart := [];
        isCartOpen := false;
        customerName := "";
        customerPhone := "";
      }
    }
  }
}
