/** The products page: the catalogue list and its search, the edit dialog's
    form, the save payload (empty strings and falsy numbers become null), the
    image-file checks and storage path, and the insert-or-update save. */
module Products {
  import opened Common
  import opened Strings
  import opened Schema

  /** `Partial<Product>`, the dialog's form: every column may be absent (`None`), and the nullable
      columns read `None` for null as well, since the save treats both alike. */
  datatype ProductForm = ProductForm(
    id: Option<string>,
    name: Option<string>,
    sku: Option<string>,
    category: Option<string>,
    subcategory: Option<string>,
    description: Option<string>,
    price: Option<JsNumber>,
    mrp: Option<JsNumber>,
    wattage: Option<JsNumber>,
    lumens: Option<JsNumber>,
    colorTemperature: Option<string>,
    shape: Option<string>,
    mountingType: Option<string>,
    material: Option<string>,
    ipRating: Option<string>,
    voltage: Option<string>,
    warranty: Option<string>,
    moq: Option<JsNumber>,
    certifications: Option<seq<string>>,
    imageUrl: Option<string>,
    isFeatured: Option<bool>,
    isActive: Option<bool>,
    createdAt: Option<string>,
    updatedAt: Option<string>)

  /** `emptyProduct`, the form of a new product. */
  const EmptyProduct: ProductForm := ProductForm(
    None, Some(""), Some(""), Some("Panel Lights"), Some(""), Some(""),
    Some(Num(0.0)), Some(Num(0.0)), Some(Num(0.0)), Some(Num(0.0)),
    Some(""), Some("Round"), Some("Recessed"), Some(""), Some(""),
    Some("220-240V AC"), Some("2 Years"), Some(Num(100.0)),
    None, None, Some(false), Some(true), None, None)

  /** The form holding a stored product, column for column. */
  function FormOf(p: Product): (f: ProductForm)
    ensures f.id == Some(p.id) && f.name == Some(p.name) && f.category == Some(p.category)
    ensures f.sku == p.sku && f.subcategory == p.subcategory && f.description == p.description
    ensures f.price == Some(p.price) && f.mrp == p.mrp && f.wattage == p.wattage && f.lumens == p.lumens
    ensures f.colorTemperature == p.colorTemperature && f.shape == p.shape
    ensures f.mountingType == p.mountingType && f.material == p.material && f.ipRating == p.ipRating
    ensures f.voltage == p.voltage && f.warranty == p.warranty && f.moq == p.moq
    ensures f.certifications == p.certifications && f.imageUrl == p.imageUrl
    ensures f.isFeatured == p.isFeatured && f.isActive == p.isActive
    ensures f.createdAt == Some(p.createdAt) && f.updatedAt == Some(p.updatedAt)
  {
    ProductForm(
      Some(p.id), Some(p.name), p.sku, Some(p.category), p.subcategory, p.description,
      Some(p.price), p.mrp, p.wattage, p.lumens,
      p.colorTemperature, p.shape, p.mountingType, p.material, p.ipRating,
      p.voltage, p.warranty, p.moq,
      p.certifications, p.imageUrl, p.isFeatured, p.isActive, Some(p.createdAt), Some(p.updatedAt))
  }

  /** The save's guard: name and category are present and not empty after trimming. */
  predicate FormValid(f: ProductForm) {
    f.name.Some? && Trim(f.name.value) != "" && f.category.Some? && Trim(f.category.value) != ""
  }

  /** The guard in terms of blank (whitespace-only) text. */
  lemma FormValidMeaning(f: ProductForm)
    ensures FormValid(f) <==>
      f.name.Some? && !Blank(f.name.value) && f.category.Some? && !Blank(f.category.value)
  {
    if f.name.Some? {
      TrimEmptyIffBlank(f.name.value);
    }
    if f.category.Some? {
      TrimEmptyIffBlank(f.category.value);
    }
  }

  /** `s || null` on an optional string: absent and empty both become null. */
  function StrOrNull(s: Option<string>): (r: Option<string>)
    ensures r.Some? <==> s.Some? && s.value != ""
    ensures r.Some? ==> r == s
  {
    if s.Some? && s.value != "" then s else None
  }

  /** JavaScript falsiness of an optional number: absent, null, NaN or zero. */
  predicate Falsy(n: Option<JsNumber>) {
    n.None? || n.value.NaN? || n.value.value == 0.0
  }

  /** `n || null` on an optional number. */
  function NumOrNull(n: Option<JsNumber>): (r: Option<JsNumber>)
    ensures r.None? <==> Falsy(n)
    ensures r.Some? ==> r == n && r.value.Num? && r.value.value != 0.0
  {
    if Falsy(n) then None else n
  }

  /** `price || 0`: always a number, the form's own when it is truthy. */
  function PriceOrZero(n: Option<JsNumber>): (r: JsNumber)
    ensures r.Num?
    ensures Falsy(n) ==> r == Num(0.0)
    ensures !Falsy(n) ==> r == n.value
  {
    if Falsy(n) then Num(0.0) else n.value
  }

  /** The object `handleSave` writes, for both the insert and the update. */
  datatype ProductPayload = ProductPayload(
    name: string,
    sku: Option<string>,
    category: string,
    subcategory: Option<string>,
    description: Option<string>,
    price: JsNumber,
    mrp: Option<JsNumber>,
    wattage: Option<JsNumber>,
    lumens: Option<JsNumber>,
    colorTemperature: Option<string>,
    shape: Option<string>,
    mountingType: Option<string>,
    material: Option<string>,
    ipRating: Option<string>,
    voltage: Option<string>,
    warranty: Option<string>,
    moq: Option<JsNumber>,
    isFeatured: bool,
    isActive: bool,
    imageUrl: Option<string>)

  predicate NonEmpty(s: Option<string>) {
    s.None? || s.value != ""
  }

  predicate NonZero(n: Option<JsNumber>) {
    n.None? || (n.value.Num? && n.value.value != 0.0)
  }

  /** What the normalisation guarantees of a payload: no empty optional text, no NaN or zero in an
      optional number, a numeric price. */
  predicate Normalized(p: ProductPayload) {
    && NonEmpty(p.sku) && NonEmpty(p.subcategory) && NonEmpty(p.description)
    && NonEmpty(p.colorTemperature) && NonEmpty(p.shape) && NonEmpty(p.mountingType)
    && NonEmpty(p.material) && NonEmpty(p.ipRating) && NonEmpty(p.voltage) && NonEmpty(p.warranty)
    && NonEmpty(p.imageUrl)
    && NonZero(p.mrp) && NonZero(p.wattage) && NonZero(p.lumens) && NonZero(p.moq)
    && p.price.Num?
  }

  /** What `|| null` leaves of an optional text: null exactly when the text was absent or empty,
      otherwise the text itself. */
  predicate TextKept(before: Option<string>, after: Option<string>) {
    (after.None? <==> before.None? || before.value == "") && (after.Some? ==> after == before)
  }

  /** What `|| null` leaves of an optional number: null exactly when the number was falsy,
      otherwise the number itself. */
  predicate NumberKept(before: Option<JsNumber>, after: Option<JsNumber>) {
    (after.None? <==> Falsy(before)) && (after.Some? ==> after == before)
  }

  /** The payload of a form with a name and a category (the guard has passed by then). The name
      and category are written as typed (untrimmed); every optional text and number is kept when
      truthy and nulled when falsy; a falsy price becomes 0; the flags default to "not featured"
      and "active". */
  function Payload(f: ProductForm): (r: ProductPayload)
    requires f.name.Some? && f.category.Some?
    ensures r.name == f.name.value && r.category == f.category.value
    ensures TextKept(f.sku, r.sku) && TextKept(f.subcategory, r.subcategory)
    ensures TextKept(f.description, r.description) && TextKept(f.colorTemperature, r.colorTemperature)
    ensures TextKept(f.shape, r.shape) && TextKept(f.mountingType, r.mountingType)
    ensures TextKept(f.material, r.material) && TextKept(f.ipRating, r.ipRating)
    ensures TextKept(f.voltage, r.voltage) && TextKept(f.warranty, r.warranty)
    ensures TextKept(f.imageUrl, r.imageUrl)
    ensures NumberKept(f.mrp, r.mrp) && NumberKept(f.wattage, r.wattage)
    ensures NumberKept(f.lumens, r.lumens) && NumberKept(f.moq, r.moq)
    ensures Falsy(f.price) ==> r.price == Num(0.0)
    ensures !Falsy(f.price) ==> r.price == f.price.value
    ensures r.isFeatured == (f.isFeatured == Some(true))
    ensures r.isActive == (f.isActive != Some(false))
  {
    ProductPayload(
      f.name.value, StrOrNull(f.sku), f.category.value, StrOrNull(f.subcategory),
      StrOrNull(f.description), PriceOrZero(f.price), NumOrNull(f.mrp), NumOrNull(f.wattage),
      NumOrNull(f.lumens), StrOrNull(f.colorTemperature), StrOrNull(f.shape),
      StrOrNull(f.mountingType), StrOrNull(f.material), StrOrNull(f.ipRating),
      StrOrNull(f.voltage), StrOrNull(f.warranty), NumOrNull(f.moq),
      f.isFeatured.GetOr(false), f.isActive.GetOr(true), StrOrNull(f.imageUrl))
  }

  /** Every payload is normalised: no empty optional text, no NaN or zero in an optional number,
      a numeric price. */
  lemma PayloadIsNormalized(f: ProductForm)
    requires f.name.Some? && f.category.Some?
    ensures Normalized(Payload(f))
  {
  }

  /** Two optional texts the save cannot tell apart: both absent or empty, or the same text. */
  predicate SameText(a: Option<string>, b: Option<string>) {
    NonEmptyText(a) == NonEmptyText(b) && (NonEmptyText(a) ==> a == b)
  }

  predicate NonEmptyText(a: Option<string>) {
    a.Some? && a.value != ""
  }

  /** Two optional numbers the save cannot tell apart: both falsy, or the same number. */
  predicate SameNumber(a: Option<JsNumber>, b: Option<JsNumber>) {
    Falsy(a) == Falsy(b) && (!Falsy(a) ==> a == b)
  }

  /** Two forms that differ at most in how a falsy value is spelled (absent, null, "", NaN, 0)
      and in how an unset flag is spelled. */
  predicate SameForSave(f: ProductForm, g: ProductForm) {
    && f.name == g.name && f.category == g.category
    && SameText(f.sku, g.sku) && SameText(f.subcategory, g.subcategory)
    && SameText(f.description, g.description) && SameText(f.colorTemperature, g.colorTemperature)
    && SameText(f.shape, g.shape) && SameText(f.mountingType, g.mountingType)
    && SameText(f.material, g.material) && SameText(f.ipRating, g.ipRating)
    && SameText(f.voltage, g.voltage) && SameText(f.warranty, g.warranty)
    && SameText(f.imageUrl, g.imageUrl)
    && SameNumber(f.price, g.price) && SameNumber(f.mrp, g.mrp) && SameNumber(f.wattage, g.wattage)
    && SameNumber(f.lumens, g.lumens) && SameNumber(f.moq, g.moq)
    && (f.isFeatured == Some(true)) == (g.isFeatured == Some(true))
    && (f.isActive == Some(false)) == (g.isActive == Some(false))
  }

  /** The payload loses exactly the spelling of falsy values: two forms save alike if and only
      if they agree on every truthy value and on the flags. */
  lemma SamePayloadIff(f: ProductForm, g: ProductForm)
    requires f.name.Some? && f.category.Some? && g.name.Some? && g.category.Some?
    ensures Payload(f) == Payload(g) <==> SameForSave(f, g)
  {
    var pf, pg := Payload(f), Payload(g);
    if pf == pg {
      assert f.name == g.name && f.category == g.category;
    }
  }

  /** The new-product form, once given a name that does not start with white space, passes the
      guard: "Panel Lights" is its category. */
  lemma EmptyProductIsValid(name: string)
    requires name != [] && !IsJsWhitespace(name[0])
    ensures FormValid(EmptyProduct.(name := Some(name)))
  {
    TrimEmptyIffBlank(name);
    TrimEmptyIffBlank("Panel Lights");
    assert !IsJsWhitespace("Panel Lights"[0]);
  }

  /** The new-product form saves with a zero price and a null MRP, wattage, lumens and SKU: its
      zeros and empty strings are all falsy. */
  lemma EmptyProductPayload(name: string)
    ensures var p := Payload(EmptyProduct.(name := Some(name)));
      p.price == Num(0.0) && p.mrp.None? && p.wattage.None? && p.lumens.None? &&
      p.moq == Some(Num(100.0)) && p.sku.None? && p.shape == Some("Round") && !p.isFeatured && p.isActive
  {
  }

  /** The row an update leaves: the payload's columns over the stored row, whose id,
      certifications and timestamps stay. */
  function Updated(row: Product, p: ProductPayload): (r: Product)
    ensures r.id == row.id && r.certifications == row.certifications
    ensures r.createdAt == row.createdAt && r.updatedAt == row.updatedAt
    ensures r.name == p.name && r.category == p.category && r.price == p.price
    ensures r.sku == p.sku && r.subcategory == p.subcategory && r.description == p.description
    ensures r.mrp == p.mrp && r.wattage == p.wattage && r.lumens == p.lumens && r.moq == p.moq
    ensures r.colorTemperature == p.colorTemperature && r.shape == p.shape
    ensures r.mountingType == p.mountingType && r.material == p.material && r.ipRating == p.ipRating
    ensures r.voltage == p.voltage && r.warranty == p.warranty && r.imageUrl == p.imageUrl
    ensures r.isFeatured == Some(p.isFeatured) && r.isActive == Some(p.isActive)
  {
    row.(name := p.name, sku := p.sku, category := p.category, subcategory := p.subcategory,
         description := p.description, price := p.price, mrp := p.mrp, wattage := p.wattage,
         lumens := p.lumens, colorTemperature := p.colorTemperature, shape := p.shape,
         mountingType := p.mountingType, material := p.material, ipRating := p.ipRating,
         voltage := p.voltage, warranty := p.warranty, moq := p.moq,
         isFeatured := Some(p.isFeatured), isActive := Some(p.isActive), imageUrl := p.imageUrl)
  }

  /** The row an insert creates: the backend gives the id and both timestamps; no certifications. */
  function Inserted(p: ProductPayload, id: string, now: string): (r: Product)
    ensures r.id == id && r.certifications.None? && r.createdAt == now && r.updatedAt == now
    ensures Updated(r, p) == r
  {
    Product(id, p.name, p.sku, p.category, p.subcategory, p.description, p.price, p.mrp,
            p.wattage, p.lumens, p.colorTemperature, p.shape, p.mountingType, p.material,
            p.ipRating, p.voltage, p.warranty, p.moq, None, p.imageUrl,
            Some(p.isFeatured), Some(p.isActive), now, now)
  }

  /** Saving is idempotent: opening a just-saved row and saving it again, unchanged, writes
      exactly the same payload. */
  lemma ResaveWritesSamePayload(row: Product, f: ProductForm)
    requires FormValid(f)
    ensures FormValid(FormOf(Updated(row, Payload(f))))
    ensures Payload(FormOf(Updated(row, Payload(f)))) == Payload(f)
  {
    var saved := Updated(row, Payload(f));
    assert saved.name == f.name.value && saved.category == f.category.value;
    ResaveSamePayload(saved, f);
  }

  /** The payload of a row that an update wrote is that update's payload again. */
  lemma ResaveSamePayload(saved: Product, f: ProductForm)
    requires f.name.Some? && f.category.Some?
    requires saved == Updated(saved, Payload(f))
    ensures Payload(FormOf(saved)) == Payload(f)
  {
  }

  /** `.update(payload).eq("id", id)`: every row with that id takes the payload. */
  function UpdatedIn(table: seq<Product>, id: string, p: ProductPayload): (r: seq<Product>)
    ensures |r| == |table|
    ensures forall i :: 0 <= i < |table| ==>
      r[i] == if table[i].id == id then Updated(table[i], p) else table[i]
  {
    MapWhere(table, (x: Product) => x.id == id, (x: Product) => Updated(x, p))
  }

  /** The search: the query occurs, ignoring case, in the name, the SKU if there is one, or the category. */
  predicate MatchesProduct(p: Product, query: string) {
    ContainsIgnoreCase(p.name, query) ||
    (p.sku.Some? && ContainsIgnoreCase(p.sku.value, query)) ||
    ContainsIgnoreCase(p.category, query)
  }

  function MatchesProductQuery(query: string): Product -> bool {
    (p: Product) => MatchesProduct(p, query)
  }

  /** `filteredProducts`. */
  function FilteredProducts(products: seq<Product>, query: string): (r: seq<Product>)
    ensures forall x :: x in r <==> x in products && MatchesProduct(x, query)
  {
    Filter(products, MatchesProductQuery(query))
  }

  /** The search keeps the list's order, and an empty query keeps every product. */
  lemma FilteredProductsKeepOrder(products: seq<Product>, query: string)
    ensures Subsequence(FilteredProducts(products, query), products)
    ensures query == "" ==> FilteredProducts(products, query) == products
  {
    FilterIsSubsequence(products, MatchesProductQuery(query));
    if query == "" {
      forall i | 0 <= i < |products| ensures MatchesProductQuery(query)(products[i]) {
        EmptyQueryMatches(products[i].name);
      }
      FilterKeepsAll(products, MatchesProductQuery(query));
    }
  }

  /** The picked file: its name, its MIME type and its size in bytes. */
  datatype FileInfo = FileInfo(name: string, mimeType: string, size: nat)

  datatype UploadError = NotAnImage | TooLarge

  /** The largest accepted image, 5 MiB. */
  const MaxImageBytes: nat := 5 * 1024 * 1024

  /** The upload's checks, type first: the type must start with "image/", then the size must not
      exceed 5 MiB. */
  function ImageRejection(file: FileInfo): (r: Option<UploadError>)
    ensures r.None? <==> "image/" <= file.mimeType && file.size <= MaxImageBytes
    ensures r == Some(NotAnImage) <==> !("image/" <= file.mimeType)
    ensures r == Some(TooLarge) <==> "image/" <= file.mimeType && file.size > MaxImageBytes
  {
    if !("image/" <= file.mimeType) then Some(NotAnImage)
    else if file.size > MaxImageBytes then Some(TooLarge)
    else None
  }

  /** An image of exactly 5 MiB is accepted; one byte more is refused. */
  lemma SizeLimitIsInclusive(name: string, mimeType: string)
    requires "image/" <= mimeType
    ensures ImageRejection(FileInfo(name, mimeType, 5242880)).None?
    ensures ImageRejection(FileInfo(name, mimeType, 5242881)) == Some(TooLarge)
  {
  }

  /** The storage path `products/<stamp>.<extension>`, where `stamp` stands for the time-and-random
      file name and the extension is what follows the name's last dot (the whole name if it has none). */
  function UploadPath(stamp: string, fileName: string): (path: string)
    ensures path == "products/" + stamp + "." + LastSegment(fileName, '.')
    ensures '.' !in path[|"products/" + stamp + "."|..]
  {
    var ext := LastSegment(fileName, '.');
    var path := "products/" + stamp + "." + ext;
    assert path[|"products/" + stamp + "."|..] == ext;
    path
  }

  /** A file named `base.ext`, with no dot in `ext`, is stored under that extension. */
  lemma UploadPathKeepsExtension(stamp: string, base: string, ext: string)
    requires '.' !in ext
    ensures UploadPath(stamp, base + "." + ext) == "products/" + stamp + "." + ext
  {
    LastSegmentAfter(base, ext, '.');
  }

  datatype UploadOutcome = NoFile | Refused(error: UploadError) | UploadFailed | Uploaded(path: string)

  datatype SaveOutcome = Invalid | SaveFailed | Saved

  class ProductsPage {
    /** The fetched list, newest first. */
    var products: seq<Product>
    var isLoading: bool
    var searchQuery: string
    var dialogOpen: bool
    /** The product being edited, if the dialog was opened on one. */
    var editing: Option<Product>
    var formData: ProductForm
    var isSaving: bool
    var isUploading: bool
    /** The backend's `products` table, newest first. */
    var table: seq<Product>
    /** The paths stored in the `product-images` bucket. */
    var storage: seq<string>

    constructor (table: seq<Product>, storage: seq<string>)
      ensures this.table == table && this.storage == storage
      ensures products == [] && isLoading && searchQuery == "" && !dialogOpen
      ensures editing.None? && formData == EmptyProduct && !isSaving && !isUploading
    {
      this.table, this.storage := table, storage;
      products, isLoading, searchQuery, dialogOpen := [], true, "", false;
      editing, formData, isSaving, isUploading := None, EmptyProduct, false, false;
    }

    /** `fetchProducts`: on success the list becomes the table; loading ends either way. */
    method FetchProducts(ok: bool)
      modifies this`products, this`isLoading
      ensures products == if ok then table else old(products)
      ensures !isLoading
    {
      if ok {
        products := table;
      }
      isLoading := false;
    }

    /** `handleOpenDialog`: on a product the form copies it, otherwise it is reset to `emptyProduct`. */
    method OpenDialog(product: Option<Product>)
      modifies this`editing, this`formData, this`dialogOpen
      ensures editing == product && dialogOpen
      ensures formData == if product.Some? then FormOf(product.value) else EmptyProduct
    {
      editing := product;
      formData := if product.Some? then FormOf(product.value) else EmptyProduct;
      dialogOpen := true;
    }

    /** `handleRemoveImage`: only the image URL changes, to null. */
    method RemoveImage()
      modifies this`formData
      ensures formData == old(formData).(imageUrl := None)
    {
      formData := formData.(imageUrl := None);
    }

    /** `handleImageUpload` with the picked file (if any), the generated name `stamp`, whether the
        storage write succeeds, and the public URL the bucket gives for the path. A refused file
        changes nothing; a failed upload leaves the form as it was. */
    method UploadImage(file: Option<FileInfo>, stamp: string, uploadOk: bool, publicUrl: string)
      returns (outcome: UploadOutcome)
      modifies this`formData, this`storage, this`isUploading
      ensures file.None? ==> outcome == NoFile
      ensures file.Some? && ImageRejection(file.value).Some? ==>
        outcome == Refused(ImageRejection(file.value).value)
      ensures file.Some? && ImageRejection(file.value).None? ==>
        outcome == (if uploadOk then Uploaded(UploadPath(stamp, file.value.name)) else UploadFailed) &&
        !isUploading
      ensures outcome.Uploaded? ==>
        storage == old(storage) + [outcome.path] && formData == old(formData).(imageUrl := Some(publicUrl))
      ensures !outcome.Uploaded? ==> storage == old(storage) && formData == old(formData)
      ensures outcome.NoFile? || outcome.Refused? ==> isUploading == old(isUploading)
    {
      if file.None? {
        return NoFile;
      }
      var rejection := ImageRejection(file.value);
      if rejection.Some? {
        return Refused(rejection.value);
      }
      isUploading := true;
      var path := UploadPath(stamp, file.value.name);
      if uploadOk {
        storage := storage + [path];
        formData := formData.(imageUrl := Some(publicUrl));
        outcome := Uploaded(path);
      } else {
        outcome := UploadFailed;
      }
      isUploading := false;
    }

    /** Whether the save updates: the dialog was opened on a product with a non-empty id. */
    predicate IsEditing()
      reads this
    {
      editing.Some? && editing.value.id != ""
    }

    /** `handleSave` with the write's success, and the id and time the backend gives a new row.
        A form failing the guard writes nothing; otherwise its payload is written. */
    method Save(writeOk: bool, newId: string, now: string) returns (outcome: SaveOutcome)
      modifies this`table, this`isSaving, this`dialogOpen
      ensures outcome == Invalid <==> !FormValid(formData)
      ensures outcome == Invalid ==>
        table == old(table) && isSaving == old(isSaving) && dialogOpen == old(dialogOpen)
      ensures outcome != Invalid ==> Written(Payload(formData), writeOk, newId, now, outcome)
    {
      if !FormValid(formData) {
        return Invalid;
      }
      outcome := Write(Payload(formData), writeOk, newId, now);
    }

    /** The effect of writing `payload`: an edit updates the rows with the edited id, a new product
        is inserted at the head of the newest-first table; the dialog closes only after a
        successful write, and saving ends either way. */
    twostate predicate Written(payload: ProductPayload, writeOk: bool, newId: string, now: string,
                               outcome: SaveOutcome)
      reads this
    {
      && !isSaving
      && outcome == (if writeOk then Saved else SaveFailed)
      && (IsEditing() ==>
            table == if writeOk then UpdatedIn(old(table), editing.value.id, payload) else old(table))
      && (!IsEditing() ==>
            table == if writeOk then [Inserted(payload, newId, now)] + old(table) else old(table))
      && (writeOk ==> !dialogOpen)
      && (!writeOk ==> dialogOpen == old(dialogOpen))
    }

    /** The `try` block of `handleSave`, reached once the guard passes. */
    method Write(payload: ProductPayload, writeOk: bool, newId: string, now: string)
      returns (outcome: SaveOutcome)
      modifies this`table, this`isSaving, this`dialogOpen
      ensures Written(payload, writeOk, newId, now, outcome)
    {
      isSaving := true;
      if writeOk {
        if IsEditing() {
          table := UpdatedIn(table, editing.value.id, payload);
        } else {
          table := [Inserted(payload, newId, now)] + table;
        }
        dialogOpen := false;
        outcome := Saved;
      } else {
        outcome := SaveFailed;
      }
      isSaving := false;
    }

    /** `handleDelete`: after the browser's confirmation, one delete by id; without it, nothing. */
    method Delete(id: string, confirmed: bool, ok: bool)
      modifies this`table
      ensures table == if confirmed && ok then Filter(old(table), (x: Product) => x.id != id) else old(table)
    {
      if confirmed && ok {
        table := Filter(table, (x: Product) => x.id != id);
      }
    }
  }
}
