/** The storefront component: its state (cart, cart panel, category,
    contact fields, language, background video) and the handlers that
    change it. */
module Home {
  import Seqs
  import opened Catalog
  import opened CartStore
  import opened OrderComposer

  /** The background videos, played one after another. */
  const Videos: seq<string> := ["/videos/bg.mp4", "/videos/bu.mp4", "/videos/bg.mp4", "/videos/bu.mp4"]

  /** The video index once the current video has ended: the next one,
      wrapping from the last back to the first. */
  function NextVideo(i: int): (r: int)
    requires 0 <= i < |Videos|
    ensures 0 <= r < |Videos|
    ensures r == if i == |Videos| - 1 then 0 else i + 1
  {
    (i + 1) % |Videos|
  }

  /** The video index after `n` videos have ended. */
  function VideoAfter(i: int, n: nat): (r: int)
    requires 0 <= i < |Videos|
    ensures 0 <= r < |Videos|
    decreases n
  {
    if n == 0 then i else NextVideo(VideoAfter(i, n - 1))
  }

  /** After `n` video ends the index has advanced by `n` modulo the number of videos. */
  lemma {:induction false} VideoAfterIsModular(i: int, n: nat)
    requires 0 <= i < |Videos|
    ensures VideoAfter(i, n) == (i + n) % |Videos|
    decreases n
  {
    if n > 0 {
      VideoAfterIsModular(i, n - 1);
      var j := (i + n - 1) % |Videos|;
      assert i + n - 1 == ((i + n - 1) / |Videos|) * |Videos| + j;
      assert (j + 1) % |Videos| == (i + n) % |Videos|;
    }
  }

  /** How many video ends it takes to get from index `i` to index `j`. */
  function StepsBetween(i: int, j: int): (n: nat)
    ensures n < |Videos|
  {
    (j - i) % |Videos|
  }

  /** After a full round the same video plays again, and every video is
      reached from every starting index within one round. */
  lemma VideoRotation(i: int)
    requires 0 <= i < |Videos|
    ensures VideoAfter(i, |Videos|) == i
    ensures forall j :: 0 <= j < |Videos| ==> VideoAfter(i, StepsBetween(i, j)) == j
  {
    VideoAfterIsModular(i, |Videos|);
    forall j | 0 <= j < |Videos| ensures VideoAfter(i, StepsBetween(i, j)) == j {
      VideoAfterIsModular(i, StepsBetween(i, j));
    }
  }

  /** All the component's state at one moment. */
  datatype Snapshot = Snapshot(
    cart: seq<CartLine>,
    isCartOpen: bool,
    selectedCategory: Category,
    customerName: string,
    customerPhone: string,
    language: Language,
    currentVideoIndex: int)

  class App {
    /** The product list the component declares; fixed once built. */
    const products: seq<Product>
    var cart: seq<CartLine>
    var isCartOpen: bool
    var selectedCategory: Category
    var customerName: string
    var customerPhone: string
    var language: Language
    var currentVideoIndex: int

    /** One line per product, every quantity positive, every product from
        a catalog whose ids are distinct and whose prices are positive, and
        the video index in range. */
    ghost predicate Valid()
      reads this
    {
      ValidCart(cart) && ProductsFrom(cart, products) &&
      IdsDistinct(products) && PricesPositive(products) &&
      0 <= currentVideoIndex < |Videos|
    }

    ghost function State(): Snapshot
      reads this
    {
      Snapshot(cart, isCartOpen, selectedCategory, customerName, customerPhone, language, currentVideoIndex)
    }

    /** The state on first render; the starting video is picked at random. */
    constructor (initialVideoIndex: int)
      requires 0 <= initialVideoIndex < |Videos|
      ensures Valid()
      ensures products == Products
      ensures State() == Snapshot([], false, All, "", "", EN, initialVideoIndex)
    {
      products := Products;
      CatalogIdsUnique();
      CatalogPricesPositive();
      cart := [];
      isCartOpen := false;
      selectedCategory := All;
      customerName := "";
      customerPhone := "";
      language := EN;
      currentVideoIndex := initialVideoIndex;
    }

    /** `getTotalPrice()`: zero exactly when the cart is empty. */
    function GetTotalPrice(): (total: int)
      reads this
      requires Valid()
      ensures total >= 0 && (total == 0 <==> cart == [])
    {
      TotalsOfValidCart(cart);
      TotalPrice(cart)
    }

    /** The number on the cart badge: at least one per line. */
    function BadgeCount(): (count: int)
      reads this
      requires Valid()
      ensures count >= |cart| && (count == 0 <==> cart == [])
    {
      TotalsOfValidCart(cart);
      ItemCount(cart)
    }

    /** The catalog entries shown for the selected category. */
    function FilteredProducts(): (shown: seq<Product>)
      reads this
      ensures selectedCategory == All ==> shown == products
      ensures selectedCategory.OfType? ==>
        (forall i :: 0 <= i < |shown| ==> shown[i].vehicle == selectedCategory.vehicle) &&
        (forall i :: 0 <= i < |products| && products[i].vehicle == selectedCategory.vehicle ==> products[i] in shown) &&
        Seqs.IsSubsequence(shown, products)
    {
      FilteredProductsMeaning(products, selectedCategory);
      Catalog.FilteredProducts(products, selectedCategory)
    }

    /** `addToCart(product)`: raise the product's line by one, or append a
        line with quantity 1; then open the cart panel. */
    method AddToCart(product: Product)
      requires Valid() && product in products
      modifies this
      ensures Valid()
      ensures State() == old(State()).(cart := Add(old(cart), product), isCartOpen := true)
      ensures Lacks(old(cart), product.id) ==> cart == old(cart) + [CartLine(product, 1)]
      ensures forall k :: 0 <= k < |old(cart)| && old(cart)[k].product.id == product.id ==>
        cart == old(cart)[k := CartLine(old(cart)[k].product, old(cart)[k].quantity + 1)]
      ensures GetTotalPrice() == old(GetTotalPrice()) + product.price
      ensures BadgeCount() == old(BadgeCount()) + 1
    {
      ghost var before := cart;
      AddFromCatalog(before, product, products);
      var existing := Find(cart, product.id);
      var updated;
      if existing.Some? {
        updated := MapQuantity(cart, product.id, Increment);
      } else {
        updated := cart + [CartLine(product, 1)];
      }
      assert updated == Add(before, product);
      cart := updated;
      isCartOpen := true;
    }

    /** `updateQuantity(productId, change)`: move the line's quantity by
        `change`, not below 0, and drop the lines left at 0. */
    method UpdateQuantity(productId: int, change: int)
      requires Valid()
      modifies this
      ensures Valid()
      ensures State() == old(State()).(cart := Update(old(cart), productId, change))
      ensures Lacks(old(cart), productId) ==> cart == old(cart)
      ensures forall k :: 0 <= k < |old(cart)| && old(cart)[k].product.id == productId ==>
        var q := Max(0, old(cart)[k].quantity + change);
        cart == (if q > 0 then old(cart)[k := old(cart)[k].(quantity := q)]
                 else old(cart)[..k] + old(cart)[k + 1..])
    {
      UpdateFromCatalog(cart, productId, change, products);
      var updated := Seqs.Filter(MapQuantity(cart, productId, ClampedAdd(change)), InStock);
      assert updated == Update(cart, productId, change);
      cart := updated;
    }

    /** `handleVideoEnd`: move on to the next background video. */
    method HandleVideoEnd()
      requires Valid()
      modifies this
      ensures Valid()
      ensures State() == old(State()).(currentVideoIndex := NextVideo(old(currentVideoIndex)))
    {
      currentVideoIndex := (currentVideoIndex + 1) % |Videos|;
    }

    /** A category button. */
    method SelectCategory(category: Category)
      requires Valid()
      modifies this
      ensures Valid()
      ensures State() == old(State()).(selectedCategory := category)
    {
      selectedCategory := category;
    }

    /** The name field. */
    method SetCustomerName(name: string)
      requires Valid()
      modifies this
      ensures Valid()
      ensures State() == old(State()).(customerName := name)
    {
      customerName := name;
    }

    /** The mobile number field. */
    method SetCustomerPhone(phone: string)
      requires Valid()
      modifies this
      ensures Valid()
      ensures State() == old(State()).(customerPhone := phone)
    {
      customerPhone := phone;
    }

    /** The language button switches between English and Tamil. */
    method ToggleLanguage()
      requires Valid()
      modifies this
      ensures Valid()
      ensures State() == old(State()).(language := if old(language) == EN then TA else EN)
    {
      language := if language == EN then TA else EN;
    }

    /** The cart button opens a closed panel and closes an open one. */
    method ToggleCart()
      requires Valid()
      modifies this
      ensures Valid()
      ensures State() == old(State()).(isCartOpen := !old(isCartOpen))
    {
      isCartOpen := !isCartOpen;
    }

    /** The close button of the cart panel. */
    method CloseCart()
      requires Valid()
      modifies this
      ensures Valid()
      ensures State() == old(State()).(isCartOpen := false)
    {
      isCartOpen := false;
    }

    /** `orderViaWhatsApp`: nothing happens for an empty cart; a missing
        name or number gives the localized notice; otherwise the message is
        composed and the `wa.me` link carrying it, percent-encoded by
        `encode`, is opened. No state changes. */
    method OrderViaWhatsApp(encode: string -> string) returns (outcome: OrderOutcome)
      ensures outcome == NotPlaced <==> cart == []
      ensures outcome.ContactMissing? <==> cart != [] && (customerName == "" || customerPhone == "")
      ensures outcome.ContactMissing? ==> outcome.notice == ContactNotice(language)
      ensures outcome.Opened? ==>
        outcome.url == WhatsAppLink(encode(OrderMessage(language, customerName, customerPhone, cart)))
    {
      if |cart| == 0 {
        return NotPlaced;
      }
      if customerName == "" || customerPhone == "" {
        return ContactMissing(ContactNotice(language));
      }
      var message := ComposeMessage(language, customerName, customerPhone, cart);
      outcome := Opened(WhatsAppLink(encode(message)));
    }
  }
}
