/**
 * The catalogue entry a cart line is built from. The restaurant page derives
 * the type from its literal menu list: an id, a name, a description, a price
 * in rupiah, the URL looked up in the placeholder-image catalogue (which may
 * be missing) and an image hint.
 */
module RestaurantMenu {
  import opened Wrappers

  datatype MenuItem = MenuItem(
    id: string,
    name: string,
    description: string,
    price: int,
    image: Option<string>,
    imageHint: string)
}
