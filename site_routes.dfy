/**
 * The site's router as declared: each page is mounted at one exact path, and every other
 * location falls through to the catch-all "not found" page.
 */
module SiteRoutes {

  datatype Page = ContactInquiryForm | InteractiveCostEstimator | ProjectDetailModal | HomePortfolioShowcase | NotFound

  /** A route without parameters matches its own path, with at most one trailing slash. */
  predicate PathMatches(path: string, pattern: string)
  {
    path == pattern || (pattern != "/" && path == pattern + "/")
  }

  /** The page the router renders for a location's path. */
  function RoutedPage(path: string): (p: Page)
    ensures p == ContactInquiryForm <==> PathMatches(path, "/") || PathMatches(path, "/contact-inquiry-form")
    ensures p == ProjectDetailModal <==> PathMatches(path, "/project-detail-modal")
    ensures p == NotFound <==> (!PathMatches(path, "/") && !PathMatches(path, "/contact-inquiry-form")
      && !PathMatches(path, "/interactive-cost-estimator") && !PathMatches(path, "/project-detail-modal")
      && !PathMatches(path, "/home-portfolio-showcase"))
  {
    DetailPathIsOwn(path);
    if PathMatches(path, "/") || PathMatches(path, "/contact-inquiry-form") then ContactInquiryForm
    else if PathMatches(path, "/interactive-cost-estimator") then InteractiveCostEstimator
    else if PathMatches(path, "/project-detail-modal") then ProjectDetailModal
    else if PathMatches(path, "/home-portfolio-showcase") then HomePortfolioShowcase
    else NotFound
  }

  /** The detail page's path is matched by no route declared before it. */
  lemma DetailPathIsOwn(path: string)
    ensures PathMatches(path, "/project-detail-modal") ==>
      !PathMatches(path, "/") && !PathMatches(path, "/contact-inquiry-form") && !PathMatches(path, "/interactive-cost-estimator")
  {
    if PathMatches(path, "/project-detail-modal") {
      assert path[1] == 'p';
    }
  }
}
