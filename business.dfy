/** The business-plan records the dashboard, the cost calculator and the chat page
    share (the parts of them that the rule engines read or build). */
module Business {
  import opened Common

  datatype UserProfile = UserProfile(budget: string, city: string, interest: string, experience: string)

  datatype BusinessIdea = BusinessIdea(
    id: string,
    name: string,
    description: string,
    investmentRange: string,
    expectedRevenue: string,
    profitMargin: string,
    riskLevel: string,
    breakEvenTime: string)

  /** A supplier card; `rating` is out of five. */
  datatype Supplier = Supplier(
    name: string,
    location: string,
    rating: real,
    priceRange: string,
    deliveryTime: string,
    minOrder: string,
    contactType: string,
    pros: seq<string>,
    cons: seq<string>)

  datatype RawMaterial = RawMaterial(name: string, sourceType: string, estimatedCost: string, tips: string)

  datatype WorkforceRequirement = WorkforceRequirement(role: string, skillLevel: string, count: int, estimatedSalary: string)

  datatype LocationAdvice = LocationAdvice(areaType: string, shopSize: string, rentEstimate: string)

  /** A plan as the components receive it. The optional-chaining reads of the source
      (`plan.location?.…`, `plan.workforce?.…`, `plan.rawMaterials?.[0]`) are why the
      nested parts are optional here. */
  datatype BusinessPlan = BusinessPlan(
    idea: BusinessIdea,
    rawMaterials: Option<seq<RawMaterial>>,
    workforce: Option<seq<WorkforceRequirement>>,
    location: Option<LocationAdvice>)
}
