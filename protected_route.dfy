/** The route guard (frontend/src/components/ProtectedRoute.tsx): wait, turn away, or let through. */
module ProtectedRoute {
  import ProductCard

  /** What the guard renders: the loader, a redirect to the forbidden page remembering where the visitor was, or the page itself. */
  datatype Guarded<Page> =
    | Loader
    | RedirectToForbidden(from: string, replace: bool)
    | Children(page: Page)

  const ForbiddenPath := "/403"

  /** Loading wins over everything; then the signed-out visitor is sent away; then the page is shown unchanged. */
  function Guard<Page>(isLoading: bool, isAuthenticated: bool, pathname: string, children: Page): (shown: Guarded<Page>)
    ensures shown.Loader? <==> isLoading
    ensures shown.RedirectToForbidden? <==> !isLoading && !isAuthenticated
    ensures shown.Children? <==> !isLoading && isAuthenticated
    ensures shown.RedirectToForbidden? ==> shown.from == pathname && shown.replace
    ensures shown.Children? ==> shown.page == children
  {
    if isLoading then Loader
    else if !isAuthenticated then RedirectToForbidden(pathname, true)
    else Children(children)
  }

  /** Exactly one of the three outcomes, for every input. */
  lemma ExactlyOneOutcome<Page>(isLoading: bool, isAuthenticated: bool, pathname: string, children: Page)
    ensures var shown := Guard(isLoading, isAuthenticated, pathname, children);
      (shown.Loader? && !shown.RedirectToForbidden? && !shown.Children?) ||
      (!shown.Loader? && shown.RedirectToForbidden? && !shown.Children?) ||
      (!shown.Loader? && !shown.RedirectToForbidden? && shown.Children?)
  {
  }

  /**
   * Buy Now sends a signed-in shopper to the checkout, which the guard then shows once the session is
   * known; a guest is sent to the sign-in page instead, never through the guard.
   */
  lemma BuyNowReachesCheckout<Page>(isAuthenticated: bool, checkout: Page)
    ensures isAuthenticated ==>
      ProductCard.BuyTarget(isAuthenticated) == "/checkout" &&
      Guard(false, isAuthenticated, ProductCard.BuyTarget(isAuthenticated), checkout) == Children(checkout)
    ensures !isAuthenticated ==> ProductCard.BuyTarget(isAuthenticated) == "/sign-in"
  {
  }
}
