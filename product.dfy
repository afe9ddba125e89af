/** The product catalogue's record (backend/models/Product.js): the SKU
    normaliser that runs before validation, the field bounds and defaults,
    and the per-business unique keys on name and SKU. */
module Catalog {
  import opened Common

  datatype Product = Product(
    id: Id, userId: Id, name: string, sku: Option<string>, description: Option<string>,
    rate: real, taxRate: real, quantity: real, unit: string, active: bool)

  // ---------------------------------------------------------------------------
  // SKU

  /** `/^\d+$/`: one or more ASCII digits. */
  predicate SkuDigits(s: string)
  {
    |s| >= 1 && AllDigits(s)
  }

  /** The path validator, lines 17-20: an absent or empty SKU, or digits. */
  predicate SkuAccepted(sku: Option<string>)
  {
    sku.None? || sku.value == "" || SkuDigits(sku.value)
  }

  /** What the `pre('validate')` hook does with the SKU. */
  datatype SkuOutcome = Unset | Kept(digits: string) | Refused

  /** The hook, lines 24-38: a present SKU is trimmed; blank becomes unset,
      anything but digits is refused, digits are kept. */
  function NormalizeSku(sku: Option<string>): (r: SkuOutcome)
    ensures r.Unset? <==> sku.None? || Trim(sku.value) == ""
    ensures r.Refused? <==> sku.Some? && Trim(sku.value) != "" && !SkuDigits(Trim(sku.value))
    ensures r.Kept? ==> sku.Some? && r.digits == Trim(sku.value) && SkuDigits(r.digits)
  {
    if sku.None? then Unset
    else
      var s := Trim(sku.value);
      if s == "" then Unset
      else if !SkuDigits(s) then Refused
      else Kept(s)
  }

  /** The SKU stored after the hook let the document through. */
  function SkuAfter(o: SkuOutcome): Option<string>
    requires !o.Refused?
  {
    if o.Kept? then Some(o.digits) else None
  }

  /** The hook and the validator agree: the hook refuses exactly the
      (trimmed) SKUs the validator would refuse, and what it lets through
      the validator accepts, never as an empty string. */
  lemma HookAgreesWithValidator(sku: Option<string>)
    ensures NormalizeSku(sku).Refused? <==> !SkuAccepted(if sku.Some? then Some(Trim(sku.value)) else None)
    ensures !NormalizeSku(sku).Refused? ==>
      SkuAccepted(SkuAfter(NormalizeSku(sku))) && SkuAfter(NormalizeSku(sku)) != Some("")
  {
  }

  /** Normalising an already normalised SKU changes nothing, so saving a
      stored product again keeps its SKU. */
  lemma NormalizeSkuIdempotent(sku: Option<string>)
    requires !NormalizeSku(sku).Refused?
    ensures NormalizeSku(SkuAfter(NormalizeSku(sku))) == NormalizeSku(sku)
  {
    if sku.Some? {
      TrimIdempotent(sku.value);
    }
  }

  // ---------------------------------------------------------------------------
  // The record

  /** The schema's validators, lines 4-12 and 17-20: a (trimmed) name, a
      rate, tax rate and quantity that are not negative, and an accepted
      SKU. */
  predicate ProductValid(p: Product)
  {
    p.name != "" && p.rate >= 0.0 && p.taxRate >= 0.0 && p.quantity >= 0.0 && SkuAccepted(p.sku)
  }

  /** The fields of a new product as given; absent ones are `None`. */
  datatype ProductBody = ProductBody(
    name: Option<string>, sku: Option<string>, description: Option<string>, rate: Option<real>,
    taxRate: Option<real>, quantity: Option<real>, unit: Option<string>, active: Option<bool>)

  /** `new Product({ userId, ...body })` before validation: the name and the
      SKU through their trimming setters, tax rate and quantity 0, unit
      "unit" and active unless given. A missing rate fails `required`, so
      there is no document to validate. */
  function Draft(id: Id, uid: Id, b: ProductBody): (r: Option<Product>)
    ensures r.Some? <==> b.rate.Some?
    ensures r.Some? ==> r.value.id == id && r.value.userId == uid && r.value.rate == b.rate.value
    ensures r.Some? && b.taxRate.None? ==> r.value.taxRate == 0.0
    ensures r.Some? && b.quantity.None? ==> r.value.quantity == 0.0
    ensures r.Some? && b.unit.None? ==> r.value.unit == "unit"
    ensures r.Some? && b.active.None? ==> r.value.active
    ensures r.Some? && b.name.None? ==> r.value.name == ""
  {
    if b.rate.None? then None
    else
      Some(Product(id, uid, if b.name.Some? then Trim(b.name.value) else "",
                   if b.sku.Some? then Some(Trim(b.sku.value)) else None,
                   b.description, b.rate.value, Given(b.taxRate, 0.0), Given(b.quantity, 0.0),
                   Given(b.unit, "unit"), Given(b.active, true)))
  }

  /** What a `save()` stores: the hook first, then the validators; nothing
      when either refuses. Only the SKU changes. */
  function Finalized(p: Product): (r: Option<Product>)
    ensures r.Some? <==> !NormalizeSku(p.sku).Refused? && ProductValid(p.(sku := SkuAfter(NormalizeSku(p.sku))))
    ensures r.Some? ==> ProductValid(r.value) && r.value == p.(sku := r.value.sku)
    ensures r.Some? ==> r.value.sku.None? || SkuDigits(r.value.sku.value)
  {
    var o := NormalizeSku(p.sku);
    if o.Refused? then None
    else
      var q := p.(sku := SkuAfter(o));
      if ProductValid(q) then Some(q) else None
  }

  /** Saving a stored product again stores the same product. */
  lemma FinalizedIdempotent(p: Product)
    requires Finalized(p).Some?
    ensures Finalized(Finalized(p).value) == Finalized(p)
  {
    NormalizeSkuIdempotent(p.sku);
  }

  /** A product document; the hook rewrites its `sku` in place. */
  class ProductDocument {
    var id: Id
    var userId: Id
    var name: string
    var sku: Option<string>
    var description: Option<string>
    var rate: real
    var taxRate: real
    var quantity: real
    var unit: string
    var active: bool

    function Record(): Product
      reads this
    {
      Product(id, userId, name, sku, description, rate, taxRate, quantity, unit, active)
    }

    constructor (p: Product)
      ensures Record() == p
    {
      id, userId, name, sku, description := p.id, p.userId, p.name, p.sku, p.description;
      rate, taxRate, quantity, unit, active := p.rate, p.taxRate, p.quantity, p.unit, p.active;
    }

    /** The `pre('validate')` hook: `ok` is false when it invalidates the
        document, which it then leaves as it was. */
    method PreValidate() returns (ok: bool)
      modifies this
      ensures ok <==> !NormalizeSku(old(sku)).Refused?
      ensures ok ==> Record() == old(Record()).(sku := SkuAfter(NormalizeSku(old(sku))))
      ensures !ok ==> Record() == old(Record())
    {
      if sku.Some? {
        var s := Trim(sku.value);
        if s == "" {
          sku := None;
          return true;
        }
        if !SkuDigits(s) {
          return false;
        }
        sku := Some(s);
      }
      ok := true;
    }

    /** `validate()`: the hook, then the validators. */
    method Validate() returns (saved: Option<Product>)
      modifies this
      ensures saved == Finalized(old(Record()))
    {
      var ok := PreValidate();
      if !ok {
        return None;
      }
      saved := if ProductValid(Record()) then Some(Record()) else None;
    }
  }

  // ---------------------------------------------------------------------------
  // Unique keys

  /** The unique index on (userId, name), line 15. */
  predicate NameClash(a: Product, b: Product)
  {
    a.userId == b.userId && a.name == b.name
  }

  /** The unique index on (userId, sku) as declared, line 21. A sparse
      compound index still holds every document that has one of its keys,
      and every product has a `userId`; so a product without a SKU is
      indexed under a null SKU, and two of them of one business collide. */
  predicate SkuIndexClash(a: Product, b: Product)
  {
    a.userId == b.userId && a.sku == b.sku
  }

  /** The key as the comment above the index states it: unique per business
      only when a SKU is present. */
  predicate SkuClash(a: Product, b: Product)
  {
    a.userId == b.userId && a.sku.Some? && a.sku == b.sku
  }

  /** Two products of one business, both valid and without a SKU, with
      different names: the declared index refuses the second, although no
      SKU is repeated. */
  lemma SkulessProductsCollide()
    ensures var a := Product(1, 7, "Design", None, None, 10.0, 0.0, 0.0, "unit", true);
            var b := Product(2, 7, "Hosting", None, None, 20.0, 0.0, 0.0, "unit", true);
            ProductValid(a) && ProductValid(b) && !NameClash(a, b)
            && SkuIndexClash(a, b) && !SkuClash(a, b)
  {
  }

  /** Products without a SKU never clash on the intended key, and products
      of different businesses never clash at all. */
  lemma SkuClashNeedsSku(a: Product, b: Product)
    ensures SkuClash(a, b) ==> a.sku.Some? && b.sku.Some? && a.userId == b.userId
    ensures SkuClash(a, b) <==> SkuClash(b, a)
    ensures SkuClash(a, b) ==> SkuIndexClash(a, b)
  {
  }

  /** The catalogue every insertion keeps: ids are keys, each product is
      valid, and no two products of a business share a name or a SKU. */
  predicate Catalogue(products: map<Id, Product>, nextId: nat)
  {
    (forall id :: id in products ==> products[id].id == id && id < nextId && ProductValid(products[id]))
    && forall i, j :: i in products && j in products && i != j ==>
         !NameClash(products[i], products[j]) && !SkuClash(products[i], products[j])
  }

  /** The products a new one would collide with under the two keys. */
  predicate Admits(products: map<Id, Product>, p: Product)
  {
    forall id :: id in products ==> !NameClash(products[id], p) && !SkuClash(products[id], p)
  }

  /** The outcome of `Product.create`. */
  datatype CreateOutcome = Created(id: Id) | Invalid | DuplicateKey

  /** The collection of products with its id allocator. */
  class ProductStore {
    var products: map<Id, Product>
    var nextId: nat

    ghost predicate Valid()
      reads this
    {
      Catalogue(products, nextId)
    }

    constructor ()
      ensures Valid() && products == map[]
    {
      products := map[];
      nextId := 0;
    }

    /** `Product.create({ userId, ...body })`: nothing is stored when the
        document fails the hook or the validators, or when it collides on a
        unique key (error 11000); otherwise it is stored under the next id. */
    method Create(uid: Id, b: ProductBody) returns (r: CreateOutcome)
      requires Valid()
      modifies this
      ensures Valid()
      ensures var d := Draft(old(nextId), uid, b);
        var saved := if d.Some? then Finalized(d.value) else None;
        (saved.None? ==> r == Invalid && unchanged(this))
        && (saved.Some? && !Admits(old(products), saved.value) ==> r == DuplicateKey && unchanged(this))
        && (saved.Some? && Admits(old(products), saved.value) ==>
              r == Created(old(nextId)) && products == old(products)[old(nextId) := saved.value]
              && nextId == old(nextId) + 1)
    {
      var d := Draft(nextId, uid, b);
      if d.None? {
        return Invalid;
      }
      var doc := new ProductDocument(d.value);
      var saved := doc.Validate();
      if saved.None? {
        return Invalid;
      }
      if !Admits(products, saved.value) {
        return DuplicateKey;
      }
      InsertKeepsCatalogue(products, nextId, saved.value);
      products := products[nextId := saved.value];
      r := Created(nextId);
      nextId := nextId + 1;
    }
  }

  /** Storing an admitted valid product under a fresh id keeps the
      catalogue. */
  lemma InsertKeepsCatalogue(products: map<Id, Product>, nextId: nat, p: Product)
    requires Catalogue(products, nextId) && p.id == nextId && ProductValid(p) && Admits(products, p)
    ensures Catalogue(products[p.id := p], nextId + 1)
  {
    var m := products[p.id := p];
    forall i, j | i in m && j in m && i != j
      ensures !NameClash(m[i], m[j]) && !SkuClash(m[i], m[j])
    {
      if i == p.id {
        assert !NameClash(products[j], p) && !SkuClash(products[j], p);
      } else if j == p.id {
        assert !NameClash(products[i], p) && !SkuClash(products[i], p);
      }
    }
  }
}
