/** The marketplace listing record, shared by the government-listing endpoint and the
    marketplace page. */
module Listing {
  import opened Common

  datatype ListingType = Sell | Buy | Export
  {
    /** The `listing_type` value, also the name of the page tab that shows it. */
    function Key(): string
    {
      match this
      case Sell => "sell"
      case Buy => "buy"
      case Export => "export"
    }
  }

  datatype Listing = Listing(
    id: string,
    userId: string,
    title: string,
    description: string,
    category: string,
    listingType: ListingType,
    priceRange: Option<string>,
    quantity: Option<string>,
    location: string,
    contactInfo: Option<string>,
    status: string,
    createdAt: string,
    isGovVerified: bool)

  /** The category names the backend and the page use. */
  const FoodAndBeverages: string := "Food & Beverages"
  const ClothingAndTextiles: string := "Clothing & Textiles"
  const Electronics: string := "Electronics"
  const HomeAndKitchen: string := "Home & Kitchen"
  const HealthAndBeauty: string := "Health & Beauty"
  const Agriculture: string := "Agriculture"
  const Handicrafts: string := "Handicrafts"
  const Industrial: string := "Industrial"
  const Services: string := "Services"
  const Other: string := "Other"

  /** The page's category list, in the order its selector shows them. */
  const Categories: seq<string> := [FoodAndBeverages, Electronics, ClothingAndTextiles, HomeAndKitchen,
                                    HealthAndBeauty, Agriculture, Handicrafts, Industrial, Services, Other]
}
