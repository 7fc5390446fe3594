/** The product record shared by every page, and the shipped mock catalogue. */
module Catalog {
  import opened Wrappers

  /** A product; prices are exact decimals (`real`). */
  datatype Product = Product(
    id: string,
    name: string,
    description: string,
    price: real,
    category: string,
    location: string,
    imageUrl: string,
    tags: seq<string>,
    sellerEmail: Option<string>,
    imageHint: Option<string>)

  const Placeholder := "https://placehold.co/600x400.png"

  const Jacket := Product("1", "Vintage Leather Jacket",
    "A stylish vintage leather jacket, gently used. Brown, size M. Perfect for a cool retro look that never goes out of style.",
    75.00, "Apparel", "New York, NY", Placeholder,
    ["vintage", "leather", "jacket", "fashion", "retro"],
    Some("seller1@marketmate.com"), Some("leather jacket"))

  const Chair := Product("2", "Modern Ergonomic Chair",
    "Barely used ergonomic office chair. Black mesh back, adjustable height and lumbar support. Excellent for home office.",
    120.50, "Furniture", "London, UK", Placeholder,
    ["office", "furniture", "ergonomic", "chair", "modern"],
    Some("seller2@marketmate.com"), Some("office chair"))

  const ActionFigure := Product("3", "Collectible Action Figure",
    "Rare limited edition action figure, still in original packaging. A must-have for collectors.",
    45.99, "Collectibles", "Tokyo, JP", Placeholder,
    ["collectible", "toy", "action figure", "limited edition"],
    Some("seller3@marketmate.com"), Some("action figure"))

  /** The one mock product listed without a seller. */
  const Guitar := Product("4", "Acoustic Guitar Set",
    "Beginner acoustic guitar with case, picks, and tuner. Great condition, hardly played. Ideal for learning.",
    90.00, "Musical Instruments", "Berlin, DE", Placeholder,
    ["guitar", "music", "instrument", "acoustic", "beginner"],
    None, Some("acoustic guitar"))

  const Camera := Product("5", "Professional DSLR Camera",
    "Used DSLR camera body with kit lens. Works perfectly, minor cosmetic wear. Includes battery and charger.",
    350.00, "Electronics", "Paris, FR", Placeholder,
    ["camera", "dslr", "electronics", "photography", "professional"],
    Some("sellerphotos@marketmate.com"), Some("dslr camera"))

  const Novels := Product("6", "Set of Classic Novels",
    "Collection of 5 classic novels, hardcover editions. Lightly read, excellent condition. Includes titles by famous authors.",
    25.00, "Books", "New York, NY", Placeholder,
    ["books", "novels", "classic", "literature", "hardcover"],
    Some("booklover@marketmate.com"), Some("book collection"))

  const MockProducts: seq<Product> := [Jacket, Chair, ActionFigure, Guitar, Camera, Novels]

  const MockCategories: seq<string> :=
    ["All", "Apparel", "Electronics", "Furniture", "Collectibles", "Musical Instruments", "Books", "Other"]

  const MockLocations: seq<string> :=
    ["All", "New York, NY", "London, UK", "Paris, FR", "Tokyo, JP", "Berlin, DE"]
}
