/** The `Product` record of the storefront model layer. */
module Products {

  /** A catalog entry: identifier, type (`kind` here, since `type` is a
      Dafny keyword), name, cost, description and image. Nothing in the code
      writes a product's fields after construction, so they are constants
      here. Being a class,
      a product is compared by reference: two instances with equal fields are
      still different products, exactly as the cart's `includes`/`indexOf`
      see them. */
  class Product {
    const id: int
    const kind: string
    const name: string
    const cost: real
    const description: string
    const image: string

    constructor(id: int, kind: string, name: string, cost: real, description: string, image: string)
      ensures this.id == id && this.kind == kind && this.name == name
      ensures this.cost == cost && this.description == description && this.image == image
    {
      this.id := id;
      this.kind := kind;
      this.name := name;
      this.cost := cost;
      this.description := description;
      this.image := image;
    }
  }

  /** Field-by-field equality, which is NOT the equality the cart uses. */
  predicate SameFields(a: Product, b: Product) {
    && a.id == b.id
    && a.kind == b.kind
    && a.name == b.name
    && a.cost == b.cost
    && a.description == b.description
    && a.image == b.image
  }
}
