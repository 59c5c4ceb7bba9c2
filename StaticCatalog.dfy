/**
 * The bundled product type and catalog (src/data/products.ts) that the product card and the
 * product detail page read. Image imports are kept as their asset paths.
 */
module StaticCatalog {
  import opened Wrappers

  /** `featured?: boolean`: a missing flag reads as false. */
  datatype Product = Product(
    id: string,
    name: string,
    description: string,
    price: int,
    originalPrice: Option<int>,
    image: string,
    category: string,
    rating: real,
    reviews: int,
    inStock: bool,
    featured: bool)

  const Products: seq<Product> := [
    Product("1", "سرم ویتامین C", "سرم روشن کننده و ضد لک با ۲۰٪ ویتامین سی خالص. مناسب برای انواع پوست.",
      890000, Some(1100000), "serum.png", "مراقبت پوست", 4.8, 245, true, true),
    Product("2", "کرم مرطوب کننده", "کرم مرطوب کننده عمقی با اسید هیالورونیک. آبرسانی ۲۴ ساعته برای پوست خشک.",
      750000, None, "moisturizer.png", "مراقبت پوست", 4.9, 189, true, true),
    Product("3", "ماسک صورت کلاژن", "ماسک ورقه‌ای حاوی کلاژن و عصاره گل رز. سفت کننده و جوان کننده پوست.",
      120000, Some(150000), "mask.png", "ماسک صورت", 4.6, 312, true, false),
    Product("4", "رژ لب مایع مات", "رژ لب مایع با ماندگاری بالا و فرمول سبک. رنگ یکدست و بدون خشکی.",
      450000, None, "lipstick.png", "آرایش لب", 4.7, 178, true, true),
    Product("5", "پالت سایه چشم", "پالت ۱۲ رنگ با ترکیب مات و شاین. پیگمنت قوی و ماندگاری عالی.",
      680000, Some(820000), "eyeshadow.png", "آرایش چشم", 4.5, 156, true, false),
    Product("6", "ضد آفتاب SPF50", "کرم ضد آفتاب با SPF50 و PA+++. بدون چربی و مناسب زیر آرایش.",
      520000, None, "sunscreen.png", "مراقبت پوست", 4.8, 298, true, false)
  ]
}
