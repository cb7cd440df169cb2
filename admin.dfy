/** The inventory form (src/pages/Admin.tsx): the image-URL fields, submit
    validation, construction of the new product, and the form reset. The form
    is not gated on any role. */
module AdminPage {
  import opened Store
  import Storefront

  const VinylCategory := "Vinyl"

  /** The `filter` that drops empty image URLs, keeping the order. */
  function NonEmptyUrls(images: seq<string>): (r: seq<string>)
    ensures |r| <= |images|
    ensures forall u :: u in r <==> u in images && u != ""
    ensures images != [] && images[0] != "" ==> r != [] && r[0] == images[0]
  {
    if images == [] then []
    else
      var rest := NonEmptyUrls(images[1..]);
      assert forall u :: u in images <==> u == images[0] || u in images[1..];
      if images[0] != "" then [images[0]] + rest else rest
  }

  /** The filter distributes over concatenation: the kept URLs stay in order. */
  lemma {:induction false} NonEmptyUrlsKeepsOrder(a: seq<string>, b: seq<string>)
    ensures NonEmptyUrls(a + b) == NonEmptyUrls(a) + NonEmptyUrls(b)
  {
    if a == [] {
      assert a + b == b;
    } else {
      assert (a + b)[1..] == a[1..] + b;
      NonEmptyUrlsKeepsOrder(a[1..], b);
    }
  }

  /** The submit guard: a name, a price and a first image URL. */
  predicate FormComplete(name: string, price: string, images: seq<string>)
    requires images != []
  {
    name != "" && price != "" && images[0] != ""
  }

  /** The `newProduct` record. `id` stands for `Date.now()` and `price` for
      `parseFloat` of the price field. */
  function BuildProduct(id: int, name: string, price: int, category: string, sku: string,
                        description: string, images: seq<string>): (p: Product)
    requires images != [] && images[0] != ""
    ensures p.id == id && p.name == name && p.price == price
    ensures p.category == Some(category) && p.description == Some(description)
    ensures p.sku.Some? <==> category == VinylCategory
    ensures p.sku.Some? ==> p.sku.value == sku
    ensures forall u :: u in p.images <==> u in images && u != ""
    ensures p.images != [] && p.images[0] == images[0]
    ensures p.images == NonEmptyUrls(images)
  {
    Product(id, name, price, Some(category), NonEmptyUrls(images), Some(description),
            if category == VinylCategory then Some(sku) else None)
  }

  /** A text field of the form. */
  datatype Field = Name | Price | Category | Sku | Description

  /** The form's state. */
  class AdminForm {
    var name: string
    var price: string
    var category: string
    var sku: string
    var description: string
    var images: seq<string>

    /** There is always at least the first image field. */
    ghost predicate Valid()
      reads this
    {
      images != []
    }

    constructor ()
      ensures name == "" && price == "" && category == VinylCategory && sku == "" && description == ""
      ensures images == [""]
      ensures Valid()
    {
      name := "";
      price := "";
      category := VinylCategory;
      sku := "";
      description := "";
      images := [""];
    }

    /** A field's `onChange`. */
    method Edit(field: Field, value: string)
      modifies this
      ensures images == old(images)
      ensures name == (if field == Name then value else old(name))
      ensures price == (if field == Price then value else old(price))
      ensures category == (if field == Category then value else old(category))
      ensures sku == (if field == Sku then value else old(sku))
      ensures description == (if field == Description then value else old(description))
    {
      match field
      case Name => name := value;
      case Price => price := value;
      case Category => category := value;
      case Sku => sku := value;
      case Description => description := value;
    }

    /** `handleImageChange`: copy the list and replace one entry (the inputs
        exist only for the current indices). */
    method HandleImageChange(index: nat, value: string)
      requires Valid() && index < |images|
      modifies this`images
      ensures |images| == |old(images)| && images[index] == value
      ensures forall i :: 0 <= i < |images| && i != index ==> images[i] == old(images)[i]
      ensures Valid()
    {
      var newImages := images;
      newImages := newImages[index := value];
      images := newImages;
    }

    /** `addImageField`: one more empty URL field. */
    method AddImageField()
      requires Valid()
      modifies this`images
      ensures images == old(images) + [""]
      ensures Valid()
    {
      images := images + [""];
    }

    /** `handleSubmit`: an incomplete form emits nothing and keeps its state;
        otherwise the product is emitted and every field but the category is
        cleared. */
    method HandleSubmit(now: int, parsedPrice: int) returns (emitted: Option<Product>)
      requires Valid()
      modifies this
      ensures Valid()
      ensures !FormComplete(old(name), old(price), old(images)) ==> emitted == None && unchanged(this)
      ensures FormComplete(old(name), old(price), old(images)) ==>
                emitted == Some(BuildProduct(now, old(name), parsedPrice, old(category), old(sku),
                                             old(description), old(images)))
                && name == "" && price == "" && sku == "" && description == "" && images == [""]
                && category == old(category)
    {
      if !FormComplete(name, price, images) {
        emitted := None;
        return;
      }
      var product := BuildProduct(now, name, parsedPrice, category, sku, description, images);
      emitted := Some(product);
      name, price, sku, description, images := "", "", "", "", [""];
    }
  }

  /** A submit wired to `addProduct`: the product reaches the end of the
      catalogue exactly when the form was complete. */
  method Publish(form: AdminForm, app: Storefront.App, now: int, parsedPrice: int)
    requires form.Valid() && app.Synced()
    modifies form, app, app.store
    ensures form.Valid() && app.Synced()
    ensures app.cart == old(app.cart)
    ensures app.store.users == old(app.store.users) && app.store.currentUser == old(app.store.currentUser)
    ensures !FormComplete(old(form.name), old(form.price), old(form.images)) ==>
              app.products == old(app.products) && unchanged(form)
    ensures FormComplete(old(form.name), old(form.price), old(form.images)) ==>
              app.products == old(app.products) + [BuildProduct(now, old(form.name), parsedPrice,
                                                               old(form.category), old(form.sku),
                                                               old(form.description), old(form.images))]
              && form.name == "" && form.price == "" && form.sku == "" && form.description == ""
              && form.images == [""] && form.category == old(form.category)
  {
    var emitted := form.HandleSubmit(now, parsedPrice);
    if emitted.Some? {
      app.AddProduct(emitted.value);
    }
  }
}
