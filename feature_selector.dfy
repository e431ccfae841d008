/**
 * The add-on feature catalog of the cost estimator, grouped by category, with the
 * selection test and the project-type filter of the feature step.
 */
module FeatureSelector {
  import opened Wrappers
  import opened Sequences
  import opened ProjectTypeSelector

  /** A feature: its price in dollars and its "N-M days" effort text. */
  datatype Feature = Feature(id: string, name: string, price: int, timeline: string)

  datatype Category = Category(id: string, name: string, features: seq<Feature>)

  const BasicAuth := Feature("basic-auth", "Basic Login/Register", 800, "3-5 days")
  const SocialAuth := Feature("social-auth", "Social Media Login", 600, "2-3 days")
  const TwoFactor := Feature("two-factor", "Two-Factor Authentication", 500, "2-3 days")
  const StripePayment := Feature("stripe-payment", "Stripe Payment Gateway", 1200, "4-6 days")
  const PaypalPayment := Feature("paypal-payment", "PayPal Integration", 800, "3-4 days")
  const Subscription := Feature("subscription", "Subscription Management", 1500, "5-7 days")
  const AdminPanel := Feature("admin-panel", "Admin Dashboard", 2000, "7-10 days")
  const UserManagement := Feature("user-management", "User Management", 1000, "4-5 days")
  const Analytics := Feature("analytics", "Analytics Dashboard", 1500, "5-7 days")
  const Cms := Feature("cms", "Content Management System", 1800, "6-8 days")
  const Blog := Feature("blog", "Blog System", 1200, "4-6 days")
  const MediaLibrary := Feature("media-library", "Media Library", 800, "3-4 days")

  const Authentication := Category("authentication", "User Authentication", [BasicAuth, SocialAuth, TwoFactor])
  const Payments := Category("payments", "Payment Integration", [StripePayment, PaypalPayment, Subscription])
  const Admin := Category("admin", "Admin & Management", [AdminPanel, UserManagement, Analytics])
  const Content := Category("content", "Content Management", [Cms, Blog, MediaLibrary])

  /** The four categories, in the order the selector lists them. */
  const FeatureCategories: seq<Category> := [Authentication, Payments, Admin, Content]

  /** Every feature of the catalog, category by category. */
  const AllFeatures: seq<Feature> := Authentication.features + Payments.features + Admin.features + Content.features

  /** The catalog holds twelve features with pairwise distinct ids and positive prices. */
  lemma FeatureCatalog()
    ensures |AllFeatures| == 12
    ensures forall i, j :: 0 <= i < j < |AllFeatures| ==> AllFeatures[i].id != AllFeatures[j].id
    ensures forall i :: 0 <= i < |AllFeatures| ==> AllFeatures[i].price > 0
  {
  }

  /** `isFeatureSelected`: whether some selected feature carries the id. */
  function IsFeatureSelected(selected: seq<Feature>, featureId: string): (b: bool)
    ensures b <==> exists i :: 0 <= i < |selected| && selected[i].id == featureId
  {
    if selected == [] then false
    else selected[0].id == featureId || IsFeatureSelected(selected[1..], featureId)
  }

  /** The category ids a project type is restricted to; None means every category. */
  function RelevantCategoryIds(projectType: Option<ProjectType>): Option<seq<string>>
  {
    if projectType.None? then None
    else if projectType.value.id == "landing-page" then Some(["authentication", "content"])
    else if projectType.value.id == "ecommerce" then Some(["authentication", "payments", "admin"])
    else None
  }

  /** `getRelevantCategories`: the catalog's categories the chosen project type may use. */
  function RelevantCategories(projectType: Option<ProjectType>): (r: seq<Category>)
    ensures |r| <= |FeatureCategories|
    ensures forall i :: 0 <= i < |r| ==> r[i] in FeatureCategories
  {
    match RelevantCategoryIds(projectType)
    case None => FeatureCategories
    case Some(ids) =>
      FilterMembers(FeatureCategories, HasIdIn(ids));
      Filter(FeatureCategories, HasIdIn(ids))
  }

  /** The filter test `ids.includes(category.id)`. */
  function HasIdIn(ids: seq<string>): Category -> bool
  {
    (c: Category) => c.id in ids
  }

  /** The categories shown for each kind of project, in catalog order. */
  lemma RelevantCategoriesByType(projectType: Option<ProjectType>)
    ensures projectType.None? ==> RelevantCategories(projectType) == FeatureCategories
    ensures projectType.Some? && projectType.value.id == "landing-page" ==>
      RelevantCategories(projectType) == [Authentication, Content]
    ensures projectType.Some? && projectType.value.id == "ecommerce" ==>
      RelevantCategories(projectType) == [Authentication, Payments, Admin]
    ensures projectType.Some? && projectType.value.id != "landing-page" && projectType.value.id != "ecommerce" ==>
      RelevantCategories(projectType) == FeatureCategories
  {
    if projectType.Some? && projectType.value.id == "landing-page" {
      LandingPageCategories();
    } else if projectType.Some? && projectType.value.id == "ecommerce" {
      EcommerceCategories();
    }
  }

  /** Filtering four elements of which only the outer two pass leaves those two. */
  lemma FilterKeepsOuter<T>(a: T, b: T, c: T, d: T, keep: T -> bool)
    requires keep(a) && !keep(b) && !keep(c) && keep(d)
    ensures Filter([a, b, c, d], keep) == [a, d]
  {
    assert [a, b, c, d][1..] == [b, c, d];
    assert [b, c, d][1..] == [c, d];
    assert [c, d][1..] == [d];
    FilterSingleton(d, keep);
    assert Filter([b, c, d], keep) == [d];
  }

  lemma LandingPageCategories()
    ensures Filter(FeatureCategories, HasIdIn(["authentication", "content"])) == [Authentication, Content]
  {
    var keep := HasIdIn(["authentication", "content"]);
    assert keep(Authentication) && !keep(Payments) && !keep(Admin) && keep(Content);
    FilterKeepsOuter(Authentication, Payments, Admin, Content, keep);
  }

  lemma EcommerceCategories()
    ensures Filter(FeatureCategories, HasIdIn(["authentication", "payments", "admin"])) == [Authentication, Payments, Admin]
  {
    var keep := HasIdIn(["authentication", "payments", "admin"]);
    assert FeatureCategories == [Authentication, Payments, Admin] + [Content];
    FilterAppend([Authentication, Payments, Admin], [Content], keep);
    FilterKeepsAll([Authentication, Payments, Admin], keep);
    FilterSingleton(Content, keep);
  }

  /** The shown categories are always the catalog with some categories left out, in catalog order. */
  lemma RelevantCategoriesKeepOrder(projectType: Option<ProjectType>)
    ensures IsSubsequence(RelevantCategories(projectType), FeatureCategories)
  {
    match RelevantCategoryIds(projectType)
    case None =>
      SubsequenceReflexive(FeatureCategories);
    case Some(ids) =>
      FilterIsSubsequence(FeatureCategories, HasIdIn(ids));
  }

  /** `reduce((total, feature) => total + feature.price, 0)`: the summed price of the features. */
  function SumPrices(fs: seq<Feature>): int
  {
    if fs == [] then 0 else SumPrices(fs[..|fs| - 1]) + fs[|fs| - 1].price
  }

  /** The sum splits over concatenation. */
  lemma {:induction false} SumPricesAppend(a: seq<Feature>, b: seq<Feature>)
    ensures SumPrices(a + b) == SumPrices(a) + SumPrices(b)
    decreases |b|
  {
    if b == [] {
      assert a + b == a;
    } else {
      assert (a + b)[..|a + b| - 1] == a + b[..|b| - 1];
      SumPricesAppend(a, b[..|b| - 1]);
    }
  }

  /** Features with non-negative prices sum to at least zero. */
  lemma {:induction false} SumPricesNonNegative(fs: seq<Feature>)
    requires forall i :: 0 <= i < |fs| ==> fs[i].price >= 0
    ensures SumPrices(fs) >= 0
  {
    if fs != [] {
      SumPricesNonNegative(fs[..|fs| - 1]);
    }
  }
}
