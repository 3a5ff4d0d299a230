/** The WhatsApp order: the message text built from the cart and the
    customer's contact fields, and the link that carries it. */
module OrderComposer {
  import opened Numerals
  import opened CartStore
  import Catalog
  import Seqs

  /** The two display languages: English and Tamil. */
  datatype Language = EN | TA

  /** What pressing "Order via WhatsApp" does: nothing for an empty cart,
      a notice when a contact field is empty, otherwise open the link. */
  datatype OrderOutcome = NotPlaced | ContactMissing(notice: string) | Opened(url: string)

  /** The shop's WhatsApp number, with country code. */
  const ShopPhone := "919442351404"

  const LinkPrefix := "https://wa.me/" + ShopPhone + "?text="

  /** The notice shown when the name or the mobile number is missing: an
      exclamation in the visitor's language. */
  function ContactNotice(lang: Language): (notice: string)
    ensures |notice| > 0 && notice[|notice| - 1] == '!'
  {
    match lang
    case EN => "Please enter your name and mobile number!"
    case TA => "உங்கள் பெயர் மற்றும் மொபைல் எண்ணை உள்ளிடவும்!"
  }

  /** The opening of the message: the salutation, then the customer's
      name, the mobile label, then their number, each at its place. */
  function Greeting(lang: Language, name: string, phone: string): (g: string)
    ensures var sal, mob := Salutation(lang), MobileLabel(lang);
      |sal| + |name| + |mob| + |phone| <= |g| &&
      g[..|sal|] == sal && g[|sal|..|sal| + |name|] == name &&
      g[|sal| + |name| + |mob|..|sal| + |name| + |mob| + |phone|] == phone
  {
    var sal, mob, intro := Salutation(lang), MobileLabel(lang), OrderIntro(lang);
    Seqs.FivePieces(sal, name, mob, phone, intro);
    sal + name + mob + phone + intro
  }

  function Salutation(lang: Language): string {
    match lang
    case EN => "Hello! My name is "
    case TA => "வணக்கம்! என் பெயர் "
  }

  function MobileLabel(lang: Language): string {
    match lang
    case EN => ".\nMobile: "
    case TA => ".\nமொபைல்: "
  }

  function OrderIntro(lang: Language): string {
    match lang
    case EN => "\n\nI would like to order:\n\n"
    case TA => "\n\nநான் ஆர்டர் செய்ய விரும்புகிறேன்:\n\n"
  }

  /** One cart line: it opens with the quantity and "x ", then names the
      product, and is closed by a newline. */
  function ItemLine(line: CartLine): (text: string)
    ensures var count, name := IntText(line.quantity), line.product.name;
      |count| + 2 + |name| < |text| &&
      text[..|count|] == count && text[|count|..|count| + 2] == "x " &&
      text[|count| + 2..|count| + 2 + |name|] == name &&
      text[|text| - 1] == '\n'
  {
    var count, name, amount := IntText(line.quantity), line.product.name, FixedTwo(Subtotal(line));
    Seqs.FivePieces(count, "x ", name, " - $", amount + "\n");
    Seqs.ThreePieces(count + "x ", name, " - $" + amount + "\n");
    count + "x " + name + " - $" + amount + "\n"
  }

  /** The item lines of a cart, in cart order. */
  function ItemLines(cart: seq<CartLine>): string {
    Seqs.ConcatMap(cart, ItemLine)
  }

  function TotalLabel(lang: Language): string {
    match lang
    case EN => "Total"
    case TA => "மொத்தம்"
  }

  /** The closing line: a blank line, then the label and the total, ending
      in the total's fixed-point text. */
  function TotalLine(lang: Language, total: int): (text: string)
    ensures |FixedTwo(total)| < |text| && text[0] == '\n'
    ensures text[|text| - |FixedTwo(total)|..] == FixedTwo(total)
  {
    var head := "\n" + TotalLabel(lang) + ": $";
    assert (head + FixedTwo(total))[|head|..] == FixedTwo(total);
    head + FixedTwo(total)
  }

  /** The complete order message: the greeting, the item lines and the
      total line, one after the other. */
  function OrderMessage(lang: Language, name: string, phone: string, cart: seq<CartLine>): (m: string)
    ensures var g, items, t := Greeting(lang, name, phone), ItemLines(cart), TotalLine(lang, TotalPrice(cart));
      |m| == |g| + |items| + |t| && m[..|g|] == g && m[|g|..|g| + |items|] == items && m[|g| + |items|..] == t
  {
    var g, items, t := Greeting(lang, name, phone), ItemLines(cart), TotalLine(lang, TotalPrice(cart));
    Seqs.ThreePieces(g, items, t);
    g + items + t
  }

  /** The `wa.me` link for an already percent-encoded message: the shop's
      link prefix, followed by the message and nothing else. */
  function WhatsAppLink(encoded: string): (url: string)
    ensures |url| == |LinkPrefix| + |encoded|
    ensures url[..|LinkPrefix|] == LinkPrefix && url[|LinkPrefix|..] == encoded
  {
    LinkPrefix + encoded
  }

  /** The encoded message a `wa.me` link of this shop carries. */
  function LinkText(url: string): (encoded: string)
    requires |url| >= |LinkPrefix| && url[..|LinkPrefix|] == LinkPrefix
    ensures url == LinkPrefix + encoded
  {
    url[|LinkPrefix|..]
  }

  /** Builds the message as the storefront does: the greeting, then one
      line appended per cart line, then the total line. */
  method ComposeMessage(lang: Language, name: string, phone: string, cart: seq<CartLine>)
    returns (message: string)
    ensures message == OrderMessage(lang, name, phone, cart)
  {
    var greeting := Greeting(lang, name, phone);
    message := greeting;
    var i := 0;
    while i < |cart|
      invariant 0 <= i <= |cart|
      invariant message == greeting + ItemLines(cart[..i])
    {
      assert message + ItemLine(cart[i]) == greeting + ItemLines(cart[..i + 1]) by {
        Seqs.ConcatMapSnoc(cart, i, ItemLine);
        Seqs.AppendAssoc(greeting, ItemLines(cart[..i]), ItemLine(cart[i]));
      }
      message := message + ItemLine(cart[i]);
      i := i + 1;
    }
    assert message == greeting + ItemLines(cart) by {
      assert cart[..i] == cart;
    }
    message := message + TotalLine(lang, TotalPrice(cart));
  }

  /** `w` appears somewhere in `s`. */
  ghost predicate Occurs(w: string, s: string) {
    exists i :: OccursAt(w, s, i)
  }

  predicate OccursAt(w: string, s: string, i: int) {
    0 <= i <= |s| - |w| && s[i..i + |w|] == w
  }

  lemma OccursWhole(w: string)
    ensures Occurs(w, w)
  {
    assert w[0..|w|] == w;
    assert OccursAt(w, w, 0);
  }

  /** An occurrence stays an occurrence when text is added on either side. */
  lemma OccursGrow(w: string, a: string, s: string, b: string)
    requires Occurs(w, s)
    ensures Occurs(w, a + s) && Occurs(w, s + b)
  {
    var i :| OccursAt(w, s, i);
    assert (a + s)[|a| + i..|a| + i + |w|] == s[i..i + |w|];
    assert OccursAt(w, a + s, |a| + i);
    assert (s + b)[i..i + |w|] == s[i..i + |w|];
    assert OccursAt(w, s + b, i);
  }

  /** The message holds line `k` after the lines before it and before the
      lines after it: one line per cart line, in cart order. */
  lemma ItemLinesInOrder(cart: seq<CartLine>, k: nat)
    requires k < |cart|
    ensures ItemLines(cart) == ItemLines(cart[..k]) + ItemLine(cart[k]) + ItemLines(cart[k + 1..])
  {
    Seqs.ConcatMapSplit(cart, k, ItemLine);
  }

  /** The message opens with the greeting, which names the customer and
      their number, holds the line of every cart entry, and closes with
      the total of the cart. */
  lemma MessageContents(lang: Language, name: string, phone: string, cart: seq<CartLine>)
    ensures var m := OrderMessage(lang, name, phone, cart);
      var g := Greeting(lang, name, phone);
      var t := TotalLine(lang, TotalPrice(cart));
      |g| + |t| <= |m| && m[..|g|] == g && m[|m| - |t|..] == t &&
      Occurs(name, m) && Occurs(phone, m) &&
      forall k :: 0 <= k < |cart| ==> Occurs(ItemLine(cart[k]), m)
  {
    var items := ItemLines(cart);
    var t := TotalLine(lang, TotalPrice(cart));
    var sal, mob, intro := Salutation(lang), MobileLabel(lang), OrderIntro(lang);
    var g := Greeting(lang, name, phone);
    var m := OrderMessage(lang, name, phone, cart);
    assert m == g + items + t;
    assert m[..|g|] == g;
    assert m[|m| - |t|..] == t;
    assert g == sal + name + mob + phone + intro;
    OccursWhole(name);
    OccursGrow(name, sal, name, "");
    OccursGrow(name, "", sal + name, mob);
    OccursGrow(name, "", sal + name + mob, phone);
    OccursGrow(name, "", sal + name + mob + phone, intro);
    OccursGrow(name, "", g, items);
    OccursGrow(name, "", g + items, t);
    OccursWhole(phone);
    OccursGrow(phone, sal + name + mob, phone, "");
    OccursGrow(phone, "", sal + name + mob + phone, intro);
    OccursGrow(phone, "", g, items);
    OccursGrow(phone, "", g + items, t);
    forall k | 0 <= k < |cart| ensures Occurs(ItemLine(cart[k]), m) {
      var line := ItemLine(cart[k]);
      var before, after := ItemLines(cart[..k]), ItemLines(cart[k + 1..]);
      ItemLinesInOrder(cart, k);
      OccursWhole(line);
      OccursGrow(line, before, line, "");
      OccursGrow(line, "", before + line, after);
      OccursGrow(line, g, items, "");
      OccursGrow(line, "", g + items, t);
    }
  }

  /** The link carries exactly the encoded message. */
  lemma LinkRoundTrip(encoded: string)
    ensures LinkText(WhatsAppLink(encoded)) == encoded
  {
  }

  const ExampleCart := [CartLine(Catalog.BrakePads, 2), CartLine(Catalog.Helmet, 1)]

  /** Two Brake Pads at 500 and one Helmet at 5999 total 6999. */
  lemma ExampleTotal()
    ensures TotalPrice(ExampleCart) == 6999
  {
    var pads, helmet := ExampleCart[0], ExampleCart[1];
    assert ExampleCart[..1] == [pads] && [pads][..0] == [];
    assert Seqs.Sum([pads], Subtotal) == Seqs.Sum([], Subtotal) + Subtotal(pads);
    assert Seqs.Sum(ExampleCart, Subtotal) == Seqs.Sum([pads], Subtotal) + Subtotal(helmet);
  }

  /** The quantity and the amount of the Brake Pads line print as "2" and "1000.00". */
  lemma ExamplePadsTexts()
    ensures IntText(2) == "2" && FixedTwo(1000) == "1000.00"
  {
    assert NatText(1) == "1" && NatText(10) == "10" && NatText(100) == "100" && NatText(1000) == "1000";
  }

  /** The quantity and the amount of the Helmet line print as "1" and "5999.00". */
  lemma ExampleHelmetTexts()
    ensures IntText(1) == "1" && FixedTwo(5999) == "5999.00"
  {
    assert NatText(5) == "5" && NatText(59) == "59" && NatText(599) == "599" && NatText(5999) == "5999";
  }

  /** The example's total prints as "6999.00". */
  lemma ExampleTotalText()
    ensures FixedTwo(6999) == "6999.00"
  {
    assert NatText(6) == "6" && NatText(69) == "69" && NatText(699) == "699" && NatText(6999) == "6999";
  }

  /** An item line is fixed by the texts of its quantity and its amount. */
  lemma ItemLineText(line: CartLine, count: string, amount: string)
    requires IntText(line.quantity) == count && FixedTwo(Subtotal(line)) == amount
    ensures ItemLine(line) == count + "x " + line.product.name + " - $" + amount + "\n"
  {
  }

  lemma ExamplePadsLine()
    ensures ItemLine(ExampleCart[0]) == "2x Brake Pads - $1000.00\n"
  {
    ExamplePadsTexts();
    assert Subtotal(ExampleCart[0]) == 1000;
    ItemLineText(ExampleCart[0], "2", "1000.00");
  }

  lemma ExampleHelmetLine()
    ensures ItemLine(ExampleCart[1]) == "1x Helmet - $5999.00\n"
  {
    ExampleHelmetTexts();
    assert Subtotal(ExampleCart[1]) == 5999;
    ItemLineText(ExampleCart[1], "1", "5999.00");
  }

  lemma ExampleItemLines()
    ensures ItemLines(ExampleCart) == "2x Brake Pads - $1000.00\n" + "1x Helmet - $5999.00\n"
  {
    Seqs.ConcatMapPair(ExampleCart[0], ExampleCart[1], ItemLine);
    ExamplePadsLine();
    ExampleHelmetLine();
  }

  lemma ExampleTotalLine()
    ensures TotalLine(EN, TotalPrice(ExampleCart)) == "\nTotal: $6999.00"
  {
    ExampleTotal();
    ExampleTotalText();
  }

  /** The message for a cart of two lines: the greeting, the first line,
      the second line and the total line. */
  lemma TwoLineMessage(lang: Language, name: string, phone: string, first: CartLine, second: CartLine)
    ensures OrderMessage(lang, name, phone, [first, second]) ==
      Greeting(lang, name, phone) + ItemLine(first) + ItemLine(second) + TotalLine(lang, TotalPrice([first, second]))
  {
    Seqs.ConcatMapPair(first, second, ItemLine);
    Seqs.AppendAssoc(Greeting(lang, name, phone), ItemLine(first), ItemLine(second));
  }

  /** Two Brake Pads and one Helmet ordered by Ravi: the greeting, the
      two item lines with their amounts, and the total 6999. */
  lemma ExampleOrder()
    ensures OrderMessage(EN, "Ravi", "9999999999", ExampleCart) ==
      Greeting(EN, "Ravi", "9999999999") +
      "2x Brake Pads - $1000.00\n" + "1x Helmet - $5999.00\n" + "\nTotal: $6999.00"
  {
    TwoLineMessage(EN, "Ravi", "9999999999", ExampleCart[0], ExampleCart[1]);
    ExamplePadsLine();
    ExampleHelmetLine();
    ExampleTotalLine();
  }
}
