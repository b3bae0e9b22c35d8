/** The display formatters (`utils/formatters.ts`). Each template literal is the list of its
    literal and interpolated parts, concatenated in order; only the fields the templates read
    are modelled. */
module Formatters {
  import opened Optional
  import opened Text

  datatype InventoryPolicy = Continue | Deny

  /** How the enum value prints: its GraphQL name. */
  function PolicyName(p: InventoryPolicy): string {
    match p
    case Continue => "CONTINUE"
    case Deny => "DENY"
  }

  datatype ProductVariant = ProductVariant(
    id: string, title: string, price: string, sku: string,
    availableForSale: bool, inventoryPolicy: InventoryPolicy)

  /** `ProductNode`, with `variants.edges[i].node` flattened to `variants[i]`. */
  datatype ProductNode = ProductNode(
    id: string, handle: string, title: string, description: string, variants: seq<ProductVariant>)

  datatype Money = Money(amount: string, currencyCode: string)

  datatype Customer = Customer(id: string, email: string)

  datatype LineItem = LineItem(title: string, quantity: int, originalTotal: Money)

  /** `ShopifyOrderGraphql`, with `totalPriceSet.shopMoney` as `total`, a `null` customer as
      `None`, and `lineItems.nodes` as `lineItems`. */
  datatype Order = Order(
    id: string, name: string, createdAt: string, displayFinancialStatus: string, email: string,
    total: Money, customer: Option<Customer>, lineItems: seq<LineItem>)

  /** The value of a template literal with the given parts. */
  function Template(parts: seq<string>): string {
    Join(parts, "")
  }

  /** Part `i` of a template appears in its value right after parts `0..i-1`. */
  lemma PartAt(parts: seq<string>, i: nat)
    requires i < |parts|
    ensures OccursAt(Template(parts), parts[i], JoinOffset(parts, "", i))
  {
    JoinItemAt(parts, "", i);
  }

  /** `s || 'N/A'` for a string: the empty string is falsy. */
  function OrNA(s: string): (r: string)
    ensures s == "" ==> r == "N/A"
    ensures s != "" ==> r == s
  {
    if s == "" then "N/A" else s
  }

  // ---------------------------------------------------------------------------
  // formatProduct

  /** The block one variant contributes to `formatProduct`; the SKU is printed as it is. */
  function VariantBlockParts(v: ProductVariant): seq<string> {
    ["variant.title: ", v.title, "\n    variant.id: ", v.id, "\n    variant.price: ", v.price,
     "\n    variant.sku: ", v.sku, "\n    variant.inventoryPolicy: ", PolicyName(v.inventoryPolicy), "\n    "]
  }

  /** The variant blocks, one per variant, in input order. */
  function VariantBlocks(vs: seq<ProductVariant>): seq<string> {
    seq(|vs|, i requires 0 <= i < |vs| => Template(VariantBlockParts(vs[i])))
  }

  function ProductParts(p: ProductNode): seq<string> {
    ["\n  Product: ", p.title, " \n  description: ", p.description, " \n  handle: ", p.handle,
     "\n  variants: ", Join(VariantBlocks(p.variants), ", "), "\n  "]
  }

  /** `formatProduct(product)`. */
  function FormatProduct(p: ProductNode): string {
    Template(ProductParts(p))
  }

  /** `formatProduct` shows the title verbatim. */
  lemma ProductTitle(p: ProductNode)
    ensures OccursAt(FormatProduct(p), p.title, JoinOffset(ProductParts(p), "", 1))
  {
    PartAt(ProductParts(p), 1);
  }

  /** Variant `i`'s block (the template of its fields) appears inside the variants list in input
      order: it starts after blocks `0..i-1` and their ", " separators. */
  lemma ProductVariantBlock(p: ProductNode, i: nat)
    requires i < |p.variants|
    ensures |VariantBlocks(p.variants)| == |p.variants|
    ensures VariantBlocks(p.variants)[i] == Template(VariantBlockParts(p.variants[i]))
    ensures OccursAt(FormatProduct(p), VariantBlocks(p.variants)[i],
                     JoinOffset(ProductParts(p), "", 7) + JoinOffset(VariantBlocks(p.variants), ", ", i))
  {
    NestedItemAt(ProductParts(p), "", 7, VariantBlocks(p.variants), ", ", i);
  }

  /** Inside its block, a variant's SKU is printed verbatim: no 'N/A' fallback here. */
  lemma ProductVariantSku(v: ProductVariant)
    ensures OccursAt(Template(VariantBlockParts(v)), v.sku, JoinOffset(VariantBlockParts(v), "", 7))
  {
    PartAt(VariantBlockParts(v), 7);
  }

  // ---------------------------------------------------------------------------
  // formatVariant

  function VariantParts(v: ProductVariant): seq<string> {
    ["\n  Variant: ", v.title, "\n  id: ", v.id, "\n  price: ", v.price, "\n  sku: ", OrNA(v.sku),
     "\n  inventoryPolicy: ", PolicyName(v.inventoryPolicy),
     "\n  availableForSale: ", BoolToString(v.availableForSale), "\n  "]
  }

  /** `formatVariant(variant)`. */
  function FormatVariant(v: ProductVariant): string {
    Template(VariantParts(v))
  }

  /** `formatVariant` shows the title verbatim, and its sku line shows 'N/A' for an empty SKU
      and the SKU itself otherwise. */
  lemma VariantLayout(v: ProductVariant)
    ensures OccursAt(FormatVariant(v), v.title, JoinOffset(VariantParts(v), "", 1))
    ensures v.sku == "" ==> OccursAt(FormatVariant(v), "N/A", JoinOffset(VariantParts(v), "", 7))
    ensures v.sku != "" ==> OccursAt(FormatVariant(v), v.sku, JoinOffset(VariantParts(v), "", 7))
  {
    PartAt(VariantParts(v), 1);
    PartAt(VariantParts(v), 7);
  }

  // ---------------------------------------------------------------------------
  // formatOrder

  /** `customer ? `${email} (${id})` : 'Guest checkout'`. */
  function CustomerText(c: Option<Customer>): (r: string)
    ensures c.None? ==> r == "Guest checkout"
    ensures c.Some? ==> r == c.value.email + " (" + c.value.id + ")"
  {
    match c
    case None => "Guest checkout"
    case Some(cu) => cu.email + " (" + cu.id + ")"
  }

  /** The segment one line item contributes. */
  function LineItemParts(item: LineItem): seq<string> {
    ["\n    - ", item.title, " x", IntToString(item.quantity), " (", item.originalTotal.amount, " ",
     item.originalTotal.currencyCode, ")"]
  }

  /** The line-item segments, one per item, in input order. */
  function LineItemSegments(items: seq<LineItem>): seq<string> {
    seq(|items|, i requires 0 <= i < |items| => Template(LineItemParts(items[i])))
  }

  function OrderParts(o: Order): seq<string> {
    ["\n  Order: ", o.name, "\n  id: ", o.id, "\n  createdAt: ", o.createdAt,
     "\n  financialStatus: ", o.displayFinancialStatus, "\n  email: ", OrNA(o.email),
     "\n  totalPrice: ", o.total.amount, " ", o.total.currencyCode,
     "\n  customer: ", CustomerText(o.customer),
     "\n  lineItems: ", Join(LineItemSegments(o.lineItems), ""), "\n  "]
  }

  /** `formatOrder(order)`. */
  function FormatOrder(o: Order): string {
    Template(OrderParts(o))
  }

  /** `formatOrder` shows the order name verbatim and 'N/A' for an empty email. */
  lemma OrderNameAndEmail(o: Order)
    ensures OccursAt(FormatOrder(o), o.name, JoinOffset(OrderParts(o), "", 1))
    ensures OccursAt(FormatOrder(o), if o.email == "" then "N/A" else o.email, JoinOffset(OrderParts(o), "", 9))
  {
    PartAt(OrderParts(o), 1);
    PartAt(OrderParts(o), 9);
  }

  /** The customer line reads 'Guest checkout' for a null customer and "email (id)" otherwise. */
  lemma OrderCustomer(o: Order)
    ensures o.customer.None? ==> OccursAt(FormatOrder(o), "Guest checkout", JoinOffset(OrderParts(o), "", 15))
    ensures o.customer.Some? ==>
              OccursAt(FormatOrder(o), o.customer.value.email + " (" + o.customer.value.id + ")",
                       JoinOffset(OrderParts(o), "", 15))
  {
    PartAt(OrderParts(o), 15);
  }

  /** One segment per line item, in input order and with nothing between segments: segment `i`
      starts where segment `i - 1` ends. */
  lemma OrderLineItem(o: Order, i: nat)
    requires i < |o.lineItems|
    ensures var segs := LineItemSegments(o.lineItems);
            && |segs| == |o.lineItems| && segs[i] == Template(LineItemParts(o.lineItems[i]))
            && OccursAt(FormatOrder(o), segs[i], JoinOffset(OrderParts(o), "", 17) + JoinOffset(segs, "", i))
            && (i > 0 ==> JoinOffset(segs, "", i) == JoinOffset(segs, "", i - 1) + |segs[i - 1]|)
  {
    NestedItemAt(OrderParts(o), "", 17, LineItemSegments(o.lineItems), "", i);
  }
}
