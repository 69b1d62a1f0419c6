/** The three-step onboarding wizard (app/components/OnboardingWizard.tsx):
    business type, then category, then template. The step and the two
    selections are state the handlers update; the offered categories and
    templates are lookups derived from them. */
module Onboarding {
  import opened Common

  datatype BusinessType = Services | Products | Both

  /** The category ids of `CATEGORIES`, in display order. */
  function Categories(businessType: Option<BusinessType>): (r: seq<string>)
    ensures businessType.None? <==> r == []
  {
    match businessType
    case None => []
    case Some(Services) =>
      ["handyman", "plumber", "electrical", "hvac", "mechanic", "trades", "cleaning",
       "landscaping", "consulting", "freelance", "salon", "fitness"]
    case Some(Products) => ["ecommerce", "handmade", "digital", "dropship", "subscription"]
    case Some(Both) => ["agency", "studio", "retail"]
  }

  /** The template ids of `TEMPLATES`, per key. */
  const TemplatesTable: map<string, seq<string>> := map[
    "handyman" := ["modern-service", "gallery-service", "booking-service"],
    "plumber" := ["emergency-service", "service-pro"],
    "electrical" := ["industrial-service", "modern-service"],
    "ecommerce" := ["shop-modern", "shop-premium"],
    "default" := ["template-1", "template-2", "template-3"]
  ]

  /** `category && category in TEMPLATES ? TEMPLATES[category] : TEMPLATES.default`
      (own keys only). */
  function Templates(category: Option<string>): (r: seq<string>)
    ensures Present(category) && category.value in TemplatesTable ==> r == TemplatesTable[category.value]
    ensures !(Present(category) && category.value in TemplatesTable) ==> r == TemplatesTable["default"]
  {
    if Present(category) && category.value in TemplatesTable then TemplatesTable[category.value]
    else TemplatesTable["default"]
  }

  /** Every category offered has a non-empty template list; only four of
      them have templates of their own, the rest see the defaults. */
  lemma OfferedCategoriesHaveTemplates(businessType: Option<BusinessType>, i: nat)
    requires i < |Categories(businessType)|
    ensures |Templates(Some(Categories(businessType)[i]))| >= 2
    ensures var c := Categories(businessType)[i];
            c in TemplatesTable <==> c in {"handyman", "plumber", "electrical", "ecommerce"}
  {
  }

  class Wizard {
    var step: int
    var businessType: Option<BusinessType>
    var category: Option<string>

    /** The step is always one of the three. */
    ghost predicate Valid()
      reads this
    {
      step == 1 || step == 2 || step == 3
    }

    /** The selections match the step: nothing chosen on step 1, a type but
        no category on step 2, both on step 3. */
    ghost predicate Consistent()
      reads this
    {
      && (step == 1 ==> businessType.None? && category.None?)
      && (step == 2 ==> businessType.Some? && category.None?)
      && (step == 3 ==> businessType.Some? && category.Some?)
    }

    constructor ()
      ensures Valid() && Consistent()
      ensures step == 1 && businessType == None && category == None
    {
      step := 1;
      businessType := None;
      category := None;
    }

    /** `handleBusinessType` */
    method ChooseBusinessType(t: BusinessType)
      requires Valid()
      modifies this
      ensures Valid()
      ensures step == 2 && businessType == Some(t) && category == None
      ensures Consistent()
    {
      businessType := Some(t);
      category := None;
      step := 2;
    }

    /** `handleCategory` */
    method ChooseCategory(c: string)
      requires Valid()
      modifies this
      ensures Valid()
      ensures step == 3 && category == Some(c) && businessType == old(businessType)
      ensures old(step) == 2 && old(Consistent()) ==> Consistent()
    {
      category := Some(c);
      step := 3;
    }

    /** `handleBack` */
    method Back()
      requires Valid()
      modifies this
      ensures Valid()
      ensures old(step) == 3 ==> step == 2 && category == None && businessType == old(businessType)
      ensures old(step) == 2 ==> step == 1 && businessType == None && category == old(category)
      ensures old(step) == 1 ==> step == 1 && businessType == old(businessType) && category == old(category)
      ensures old(Consistent()) ==> Consistent()
    {
      if step == 3 {
        category := None;
        step := 2;
      } else if step == 2 {
        businessType := None;
        step := 1;
      }
    }

    /** The category list shown for the current type. */
    function OfferedCategories(): seq<string>
      reads this
    {
      Categories(businessType)
    }
  }

  /** Going forward and all the way back returns to the start. */
  method ForwardAndBack()
  {
    var w := new Wizard();
    w.ChooseBusinessType(Services);
    assert w.OfferedCategories()[1] == "plumber";
    w.ChooseCategory("plumber");
    assert Templates(w.category) == ["emergency-service", "service-pro"];
    w.Back();
    assert w.step == 2 && w.category == None && w.businessType == Some(Services);
    w.Back();
    w.Back();
    assert w.step == 1 && w.businessType == None && w.category == None;
    assert Templates(w.category) == TemplatesTable["default"];
  }
}
