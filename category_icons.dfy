/** CategoryAdapter's choice of icon from a category's name. */
module CategoryIcons {
  import opened Text
  import opened Model

  datatype Icon = Restaurant | Hotel | Beach | Park | Museum | Shopping | Logo

  /** The `when` over `category.name.lowercase()`. */
  function IconFor(name: string): (icon: Icon)
    ensures icon == Restaurant <==> Lower(name) == "restaurant" || Lower(name) == "restaurants"
    ensures icon == Hotel <==> Lower(name) == "hotel" || Lower(name) == "hotels"
    ensures icon == Beach <==> Lower(name) == "beach" || Lower(name) == "beaches"
    ensures icon == Park <==> Lower(name) == "park" || Lower(name) == "parks"
    ensures icon == Museum <==> Lower(name) == "museum" || Lower(name) == "museums"
    ensures icon == Shopping <==> Lower(name) == "shopping" || Lower(name) == "mall" || Lower(name) == "malls"
  {
    match Lower(name)
    case "restaurant" => Restaurant
    case "restaurants" => Restaurant
    case "hotel" => Hotel
    case "hotels" => Hotel
    case "beach" => Beach
    case "beaches" => Beach
    case "park" => Park
    case "parks" => Park
    case "museum" => Museum
    case "museums" => Museum
    case "shopping" => Shopping
    case "mall" => Shopping
    case "malls" => Shopping
    case _ => Logo
  }

  /** Names that differ only in ASCII case get the same icon. */
  lemma {:induction false} IconIgnoresCase(a: string, b: string)
    requires Lower(a) == Lower(b)
    ensures IconFor(a) == IconFor(b)
  {
  }

  /** Upper-case names are recognised, singular and plural alike. */
  lemma IconExamples()
    ensures IconFor("Restaurants") == IconFor("restaurant") == Restaurant
    ensures IconFor("HOTEL") == Hotel
    ensures IconFor("Beaches") == Beach
    ensures IconFor("Mall") == IconFor("shopping") == Shopping
    ensures IconFor("Temple") == Logo
  {
    assert Lower("Restaurants") == "restaurants";
    assert Lower("restaurant") == "restaurant";
    assert Lower("HOTEL") == "hotel";
    assert Lower("Beaches") == "beaches";
    assert Lower("Mall") == "mall";
    assert Lower("shopping") == "shopping";
    assert Lower("Temple") == "temple";
  }

  /** Any name outside the thirteen listed ones falls back to the logo. */
  lemma UnknownNamesGetLogo(name: string)
    requires Lower(name) !in {"restaurant", "restaurants", "hotel", "hotels", "beach", "beaches",
                              "park", "parks", "museum", "museums", "shopping", "mall", "malls"}
    ensures IconFor(name) == Logo
  {
  }
}
