/**
 * The product card and its detail dialog (frontend/src/components/ProductCard.tsx): the stock badge, the
 * Buy Now button, the image shown in the dialog and the brand line.
 */
module ProductCard {
  import opened Models

  /** getStockBadgeColor: four bands of stock. */
  function StockColor(stock: int): (color: string)
    ensures color == "green" <==> stock > 50
    ensures color == "yellow" <==> 20 < stock <= 50
    ensures color == "orange" <==> 0 < stock <= 20
    ensures color == "red" <==> stock <= 0
  {
    if stock > 50 then "green"
    else if stock > 20 then "yellow"
    else if stock > 0 then "orange"
    else "red"
  }

  /** getStockText: the same four bands, in words. */
  function StockText(stock: int): (text: string)
    ensures text == "In Stock" <==> stock > 50
    ensures text == "Limited Stock" <==> 20 < stock <= 50
    ensures text == "Low Stock" <==> 0 < stock <= 20
    ensures text == "Out of Stock" <==> stock <= 0
  {
    if stock > 50 then "In Stock"
    else if stock > 20 then "Limited Stock"
    else if stock > 0 then "Low Stock"
    else "Out of Stock"
  }

  /** The badge's colour and its text always tell the same story: two stock levels share one iff they share the other. */
  lemma ColourAgreesWithText(a: int, b: int)
    ensures StockColor(a) == StockColor(b) <==> StockText(a) == StockText(b)
  {
  }

  /** The Buy Now buttons (on the card and in the dialog) are disabled exactly when the stock is zero. */
  function BuyDisabled(stock: int): (disabled: bool)
    ensures disabled ==> StockText(stock) == "Out of Stock" && StockColor(stock) == "red"
    ensures stock >= 0 ==> (disabled <==> StockText(stock) == "Out of Stock")
  {
    stock == 0
  }

  /** A negative stock is labelled out of stock while the button stays enabled. */
  lemma NegativeStockStillBuyable()
    ensures StockText(-1) == "Out of Stock" && !BuyDisabled(-1)
  {
  }

  /** handleBuyNow: signed-in shoppers go to the checkout, everyone else to the sign-in page. */
  function BuyTarget(isAuthenticated: bool): (path: string)
    ensures isAuthenticated ==> path == "/checkout"
    ensures !isAuthenticated ==> path == "/sign-in"
  {
    if isAuthenticated then "/checkout" else "/sign-in"
  }

  /** The card's own state: whether the dialog is open and which gallery image is selected. */
  datatype CardState = CardState(modalOpened: bool, imageIndex: int)

  /** The dialog starts closed, on the first image. */
  const InitialCard := CardState(false, 0)

  function OpenDetails(s: CardState): (t: CardState)
    ensures t.modalOpened && t.imageIndex == s.imageIndex
  {
    s.(modalOpened := true)
  }

  function CloseDetails(s: CardState): (t: CardState)
    ensures !t.modalOpened && t.imageIndex == s.imageIndex
  {
    s.(modalOpened := false)
  }

  /** Clicking the thumbnail at `index`. */
  function SelectImage(s: CardState, index: int): (t: CardState)
    ensures t.imageIndex == index && t.modalOpened == s.modalOpened
  {
    s.(imageIndex := index)
  }

  /** `product.images?.[currentImageIndex] || product.thumbnail`: the selected image when there is a non-empty one, else the thumbnail. */
  function DisplayedImage(p: Product, imageIndex: int): (src: string)
    ensures 0 <= imageIndex < |p.images| && p.images[imageIndex] != "" ==> src == p.images[imageIndex]
    ensures !(0 <= imageIndex < |p.images| && p.images[imageIndex] != "") ==> src == p.thumbnail
    ensures src in p.images || src == p.thumbnail
  {
    if 0 <= imageIndex < |p.images| && p.images[imageIndex] != "" then p.images[imageIndex] else p.thumbnail
  }

  /** The thumbnail strip appears only when there is more than one image. */
  function ShowsThumbnails(p: Product): bool {
    |p.images| > 1
  }

  /**
   * The dialog opens on the first image (or the thumbnail when there is none), and a thumbnail the strip
   * offers, once clicked, is the image shown.
   */
  lemma GalleryShowsSelection(p: Product, index: int)
    requires ShowsThumbnails(p) && 0 <= index < |p.images| && p.images[index] != ""
    ensures DisplayedImage(p, OpenDetails(InitialCard).imageIndex) == (if p.images[0] != "" then p.images[0] else p.thumbnail)
    ensures DisplayedImage(p, SelectImage(OpenDetails(InitialCard), index).imageIndex) == p.images[index]
  {
  }

  /** `product.brand || 'Generic'`. */
  function BrandLabel(brand: string): (shown: string)
    ensures shown != ""
    ensures brand != "" ==> shown == brand
    ensures brand == "" ==> shown == "Generic"
  {
    if brand != "" then brand else "Generic"
  }
}
