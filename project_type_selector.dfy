/** The three project types the cost estimator offers, with their base prices in dollars. */
module ProjectTypeSelector {

  datatype ProjectType = ProjectType(id: string, name: string, basePrice: int)

  const LandingPage := ProjectType("landing-page", "Landing Page", 1500)
  const WebApp := ProjectType("web-app", "Web Application", 5000)
  const Ecommerce := ProjectType("ecommerce", "E-commerce Store", 8000)

  /** The catalog, in the order the selector lists it. */
  const ProjectTypes: seq<ProjectType> := [LandingPage, WebApp, Ecommerce]
}
