/** The Product schema: the record, the defaults Mongoose fills in, the
    required paths, and the unique `name` and `slug` indexes. */
module ProductModel {
  import opened Js
  import opened Http
  import opened Lookup

  type ProductId = nat

  /** A stored product. `exclusive` is optional, so it may hold null. */
  datatype Product = Product(
    id: ProductId,
    name: string,
    slug: string,
    category: string,
    productQty: string,
    presentation: string,
    exclusive: Field<bool>,
    image: string,
    price: int,
    countInStock: int,
    description: string,
    ieps: int)

  /** The fields a client submits to create a product. */
  datatype ProductInput = ProductInput(
    name: Field<string>,
    slug: Field<string>,
    category: Field<string>,
    productQty: Field<string>,
    presentation: Field<string>,
    exclusive: Field<bool>,
    image: Field<string>,
    price: Field<int>,
    countInStock: Field<int>,
    description: Field<string>,
    ieps: Field<int>)

  /** The `default:` rule: it applies only when the path is undefined. */
  function WithDefault<T>(f: Field<T>, d: T): (r: Field<T>)
    ensures f.Undefined? ==> r == Present(d)
    ensures f.Null? ==> r.Null?
    ensures f.Present? ==> r == f
  {
    match f
    case Undefined => Present(d)
    case _ => f
  }

  /** The `required: true` rule for a string path: undefined, null and "" fail. */
  predicate RequiredString(f: Field<string>)
  {
    f.Present? && f.value != ""
  }

  /** Every required path of the input is present once defaults are applied. */
  predicate InputComplete(p: ProductInput)
  {
    && RequiredString(p.name) && RequiredString(p.slug) && RequiredString(p.category)
    && RequiredString(p.productQty) && RequiredString(p.presentation)
    && RequiredString(p.image) && RequiredString(p.description)
    && p.price.Present? && p.countInStock.Present?
    && WithDefault(p.ieps, 0).Present?
  }

  /** `new Product(input)` followed by validation. */
  function Build(id: ProductId, p: ProductInput): (r: Result<Product>)
    ensures r.Success? <==> InputComplete(p)
    ensures r.Failure? ==> r.error == ServerError(ValidationFailed)
    ensures r.Success? ==> r.value.id == id && r.value.name == p.name.value && r.value.slug == p.slug.value
    ensures r.Success? && p.exclusive.Undefined? ==> r.value.exclusive == Present(false)
    ensures r.Success? && !p.exclusive.Undefined? ==> r.value.exclusive == p.exclusive
    ensures r.Success? && p.ieps.Undefined? ==> r.value.ieps == 0
    ensures r.Success? && p.ieps.Present? ==> r.value.ieps == p.ieps.value
    ensures r.Success? ==> r.value.price == p.price.value && r.value.countInStock == p.countInStock.value
    ensures r.Success? ==>
      && r.value.category == p.category.value && r.value.productQty == p.productQty.value
      && r.value.presentation == p.presentation.value && r.value.image == p.image.value
      && r.value.description == p.description.value
  {
    if !InputComplete(p) then Failure(ServerError(ValidationFailed))
    else Success(Product(id, p.name.value, p.slug.value, p.category.value, p.productQty.value,
                         p.presentation.value, WithDefault(p.exclusive, false), p.image.value,
                         p.price.value, p.countInStock.value, p.description.value,
                         WithDefault(p.ieps, 0).value))
  }

  /** A null `ieps` is not replaced by the default and fails `required`. */
  lemma NullIepsRejected(id: ProductId, p: ProductInput)
    requires p.ieps.Null?
    ensures Build(id, p).Failure?
  {
  }

  predicate HasRequired(p: Product)
  {
    p.name != "" && p.slug != "" && p.category != "" && p.productQty != ""
    && p.presentation != "" && p.image != "" && p.description != ""
  }

  /** The catalogue's indexes: `_id`, `name` and `slug` are each unique. */
  predicate ValidCatalogue(ps: seq<Product>)
  {
    && (forall i :: 0 <= i < |ps| ==> HasRequired(ps[i]))
    && (forall i, j :: 0 <= i < j < |ps| ==> ps[i].id != ps[j].id)
    && (forall i, j :: 0 <= i < j < |ps| ==> ps[i].name != ps[j].name)
    && (forall i, j :: 0 <= i < j < |ps| ==> ps[i].slug != ps[j].slug)
  }

  /** A stored product already holds the name or the slug of `p`. */
  predicate Clashes(ps: seq<Product>, p: Product)
  {
    exists j :: 0 <= j < |ps| && (ps[j].name == p.name || ps[j].slug == p.slug)
  }

  /** `product.save()` of a new product built from a client's input. */
  function Create(ps: seq<Product>, id: ProductId, input: ProductInput): (r: Result<seq<Product>>)
    requires ValidCatalogue(ps)
    requires forall j :: 0 <= j < |ps| ==> ps[j].id != id
    ensures r.Success? <==> Build(id, input).Success? && !Clashes(ps, Build(id, input).value)
    ensures Build(id, input).Success? && Clashes(ps, Build(id, input).value) ==> r == Failure(ServerError(DuplicateKey))
    ensures r.Success? ==> r.value == ps + [Build(id, input).value] && ValidCatalogue(r.value)
  {
    match Build(id, input)
    case Failure(e) => Failure(e)
    case Success(p) =>
      if Clashes(ps, p) then Failure(ServerError(DuplicateKey)) else Success(ps + [p])
  }

  /** The `$lookup` from a product id into the catalogue. */
  function FindProduct(ps: seq<Product>, id: ProductId): (r: Option<nat>)
    ensures r.Some? ==> r.value < |ps| && ps[r.value].id == id
    ensures r.None? ==> forall j :: 0 <= j < |ps| ==> ps[j].id != id
  {
    FindFirst(ps, IdOf, id)
  }

  function IdOf(p: Product): ProductId { p.id }
}
