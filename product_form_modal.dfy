// The admin product form: its fields when it opens, the default gender and
// shoe type, the required-field checks and the payload it submits.

module ProductFormModal {
  import opened Common
  import opened AdminApi

  const DefaultStock: int := 50

  const SkuRequired: string := "Le SKU est obligatoire"
  const NameRequired: string := "Le nom est obligatoire"
  const DescriptionRequired: string := "La description est obligatoire"
  const GenericError: string := "Une erreur est survenue"

  /** The required-field checks, in the order the form runs them: the first
      blank field among SKU, name and description gives its message. */
  function Validate(sku: string, name: string, description: string): (r: Option<string>)
    ensures r.None? <==> !IsBlank(sku) && !IsBlank(name) && !IsBlank(description)
    ensures IsBlank(sku) ==> r == Some(SkuRequired)
    ensures !IsBlank(sku) && IsBlank(name) ==> r == Some(NameRequired)
    ensures !IsBlank(sku) && !IsBlank(name) && IsBlank(description) ==> r == Some(DescriptionRequired)
  {
    if IsBlank(sku) then Some(SkuRequired)
    else if IsBlank(name) then Some(NameRequired)
    else if IsBlank(description) then Some(DescriptionRequired)
    else None
  }

  /** `s.trim() || undefined`. */
  function TrimmedOrNone(s: string): (r: Option<string>)
    ensures r.None? <==> IsBlank(s)
  {
    if IsBlank(s) then None else Some(Trim(s))
  }

  /** A value the source tests for truthiness: present and not "". */
  predicate Truthy(id: Option<string>) {
    id.Some? && id.value != ""
  }

  /** The payload of an accepted form. */
  function Payload(sku: string, name: string, description: string, price: int, stock: int,
                   imageUrl: string, genderId: Option<string>, shoeTypeId: Option<string>): ProductPayload
  {
    ProductPayload(Trim(sku), Trim(name), Trim(description), price, stock, TrimmedOrNone(imageUrl), genderId, shoeTypeId)
  }

  /** What an accepted form sends: SKU, name and description non-empty and
      free of surrounding whitespace, and an image URL that, when present, is
      non-empty and trimmed too. */
  lemma PayloadIsClean(sku: string, name: string, description: string, price: int, stock: int,
                       imageUrl: string, genderId: Option<string>, shoeTypeId: Option<string>)
    requires Validate(sku, name, description).None?
    ensures var p := Payload(sku, name, description, price, stock, imageUrl, genderId, shoeTypeId);
      && |p.sku| >= 1 && Trim(p.sku) == p.sku
      && |p.name| >= 1 && Trim(p.name) == p.name
      && |p.description| >= 1 && Trim(p.description) == p.description
      && (p.imageUrl.Some? ==> |p.imageUrl.value| >= 1 && Trim(p.imageUrl.value) == p.imageUrl.value)
      && p.price == price && p.stock == stock && p.genderId == genderId && p.shoeTypeId == shoeTypeId
  {
    TrimIdempotent(sku);
    TrimIdempotent(name);
    TrimIdempotent(description);
    TrimIdempotent(imageUrl);
  }

  /** `disableSubmit`. */
  function SubmitDisabled(submitting: bool, loadingReferences: bool): bool {
    submitting || loadingReferences
  }

  class Form {
    var sku: string
    var name: string
    var description: string
    var price: int
    var stock: int
    var imageUrl: string
    var genderId: Option<string>
    var shoeTypeId: Option<string>
    var localError: Option<string>

    /** The fields before the form is first opened. */
    constructor()
      ensures sku == "" && name == "" && description == "" && price == 0 && stock == DefaultStock
      ensures imageUrl == "" && genderId.None? && shoeTypeId.None? && localError.None?
    {
      sku, name, description := "", "", "";
      price, stock := 0, DefaultStock;
      imageUrl := "";
      genderId, shoeTypeId := None, None;
      localError := None;
    }

    /** The effect run when the form opens: a copy of the product being
        edited, with a null image as "", or else the empty form. */
    method Open(initial: Option<AdminProductDto>)
      modifies this
      ensures localError.None?
      ensures initial.Some? ==>
        var p := initial.value;
        sku == p.sku && name == p.name && description == p.description && price == p.price
        && stock == p.stock && imageUrl == p.imageUrl.GetOr("") && genderId == p.genderId && shoeTypeId == p.shoeTypeId
      ensures initial.None? ==>
        sku == "" && name == "" && description == "" && price == 0 && stock == DefaultStock
        && imageUrl == "" && genderId.None? && shoeTypeId.None?
    {
      match initial {
        case Some(p) =>
          sku, name, description := p.sku, p.name, p.description;
          price, stock := p.price, p.stock;
          imageUrl := p.imageUrl.GetOr("");
          genderId, shoeTypeId := p.genderId, p.shoeTypeId;
        case None =>
          sku, name, description := "", "", "";
          price, stock := 0, DefaultStock;
          imageUrl := "";
          genderId, shoeTypeId := None, None;
      }
      localError := None;
    }

    /** The two effects that fill in an unset gender and shoe type: the
        edited product's, or else the first option; nothing happens while the
        options are empty or a value is set. */
    method DefaultReferences(genders: seq<Reference>, shoeTypes: seq<Reference>, initial: Option<AdminProductDto>)
      modifies this`genderId, this`shoeTypeId
      ensures |genders| == 0 || Truthy(old(genderId)) ==> genderId == old(genderId)
      ensures |genders| > 0 && !Truthy(old(genderId)) ==>
        genderId == if initial.Some? && initial.value.genderId.Some? then initial.value.genderId else Some(genders[0].id)
      ensures |shoeTypes| == 0 || Truthy(old(shoeTypeId)) ==> shoeTypeId == old(shoeTypeId)
      ensures |shoeTypes| > 0 && !Truthy(old(shoeTypeId)) ==>
        shoeTypeId == if initial.Some? && initial.value.shoeTypeId.Some? then initial.value.shoeTypeId else Some(shoeTypes[0].id)
    {
      if |genders| > 0 && !Truthy(genderId) {
        genderId := if initial.Some? && initial.value.genderId.Some? then initial.value.genderId else Some(genders[0].id);
      }
      if |shoeTypes| > 0 && !Truthy(shoeTypeId) {
        shoeTypeId := if initial.Some? && initial.value.shoeTypeId.Some? then initial.value.shoeTypeId else Some(shoeTypes[0].id);
      }
    }

    /** `handleSubmit`. A blank required field sets its message and sends
        nothing; otherwise the payload is handed to the page, and an error it
        throws becomes the message. `thrown` is that error, if any. */
    method HandleSubmit(thrown: Option<Option<string>>) returns (submitted: Option<ProductPayload>)
      modifies this`localError
      ensures Validate(sku, name, description).Some? ==>
        submitted.None? && localError == Validate(sku, name, description)
      ensures Validate(sku, name, description).None? ==>
        submitted == Some(Payload(sku, name, description, price, stock, imageUrl, genderId, shoeTypeId))
        && localError == (if thrown.Some? then Some(thrown.value.GetOr(GenericError)) else None)
    {
      localError := None;
      var problem := Validate(sku, name, description);
      if problem.Some? {
        localError := problem;
        return None;
      }
      submitted := Some(Payload(sku, name, description, price, stock, imageUrl, genderId, shoeTypeId));
      if thrown.Some? {
        localError := Some(thrown.value.GetOr(GenericError));
      }
    }
  }

  /** Editing a product that has no gender: once the gender list is loaded,
      the form holds the first gender, and that is what it submits. */
  method EditUngenderedProduct(form: Form, p: AdminProductDto, genders: seq<Reference>, shoeTypes: seq<Reference>)
    returns (submitted: Option<ProductPayload>)
    requires p.genderId.None? && |genders| > 0
    modifies form
    ensures form.genderId == Some(genders[0].id)
    ensures submitted.Some? ==> submitted.value.genderId == Some(genders[0].id)
  {
    form.Open(Some(p));
    form.DefaultReferences(genders, shoeTypes, Some(p));
    submitted := form.HandleSubmit(None);
  }
}
