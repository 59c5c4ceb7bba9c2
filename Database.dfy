/**
 * The rows the hosted datastore returns (src/types/database.ts). Creation and update
 * timestamps are not part of the model; prices and counts are integers.
 */
module Database {
  import opened Wrappers

  datatype Product = Product(
    id: string,
    name: string,
    description: string,
    price: int,
    original_price: Option<int>,
    image: string,
    category_id: string,
    rating: real,
    reviews: int,
    in_stock: bool,
    featured: bool)

  datatype Category = Category(id: string, name: string, slug: string, order_index: int)

  datatype Slider = Slider(
    id: string,
    title: string,
    subtitle: Option<string>,
    image: string,
    link: Option<string>,
    button_text: Option<string>,
    is_active: bool,
    order_index: int)

  datatype SiteSettings = SiteSettings(
    id: string,
    site_name: string,
    site_description: string,
    logo_url: Option<string>,
    favicon_url: Option<string>,
    phone_numbers: seq<string>,
    address: Option<string>,
    support_hours: string,
    instagram_url: Option<string>,
    telegram_url: Option<string>,
    linkedin_url: Option<string>,
    about_us: Option<string>,
    contact_us: Option<string>,
    faq: Option<string>,
    shipping_policy: Option<string>,
    return_policy: Option<string>,
    privacy_policy: Option<string>,
    terms_conditions: Option<string>,
    article_content: Option<string>,
    purchase_enabled: bool,
    enamad_code: Option<string>,
    samandehi_code: Option<string>,
    ecunion_code: Option<string>)
}
