/**
 * The administrator's product catalogue page: the search over the product
 * list, the product form with its editable size and extra rows, the
 * validation and cleaning done before a product is saved, and deletion
 * after confirmation. Sizes and extras have the same shape on this page
 * and are edited as rows of one kind.
 */
module ProductsAdmin {
  import opened Common
  import opened Types

  /** `filteredProducts`: a product is listed when its name or its category contains the term, ignoring case. */
  predicate Listed(p: MenuItem, term: string) {
    Matches(p.name, term) || Matches(p.category, term)
  }

  function FilteredProducts(products: seq<MenuItem>, term: string): (r: seq<MenuItem>)
    ensures forall i :: 0 <= i < |r| ==> r[i] in products && Listed(r[i], term)
    ensures forall i :: 0 <= i < |products| && Listed(products[i], term) ==> products[i] in r
  {
    Filter(products, (p: MenuItem) => Listed(p, term))
  }

  /** An empty search lists the whole catalogue, in order. */
  lemma EmptySearchListsAll(products: seq<MenuItem>)
    ensures FilteredProducts(products, "") == products
  {
    forall i | 0 <= i < |products| ensures Listed(products[i], "") {
      MatchesEmpty(products[i].name);
    }
    FilterAll(products, (p: MenuItem) => Listed(p, ""));
  }

  /** The search keeps the catalogue's order: searching a concatenation concatenates the results. */
  lemma FilteredProductsAppend(a: seq<MenuItem>, b: seq<MenuItem>, term: string)
    ensures FilteredProducts(a + b, term) == FilteredProducts(a, term) + FilteredProducts(b, term)
  {
    FilterAppend(a, b, (p: MenuItem) => Listed(p, term));
  }

  /** One editable size or extra row of the form. */
  datatype Row = Row(id: string, name: string, price: real)

  function SizeRow(s: SizeOption): Row { Row(s.id, s.name, s.price) }
  function ExtraRow(e: ExtraOption): Row { Row(e.id, e.name, e.price) }

  function SizeRows(sizes: seq<SizeOption>): (r: seq<Row>)
    ensures |r| == |sizes| && forall i :: 0 <= i < |r| ==> r[i] == SizeRow(sizes[i])
  {
    seq(|sizes|, i requires 0 <= i < |sizes| => SizeRow(sizes[i]))
  }

  function ExtraRows(extras: seq<ExtraOption>): (r: seq<Row>)
    ensures |r| == |extras| && forall i :: 0 <= i < |r| ==> r[i] == ExtraRow(extras[i])
  {
    seq(|extras|, i requires 0 <= i < |extras| => ExtraRow(extras[i]))
  }

  /** The field an input of a row edits, with its new value. */
  datatype Edit = SetName(name: string) | SetPrice(price: real)

  function ApplyEdit(row: Row, e: Edit): (r: Row)
    ensures r.id == row.id
    ensures e.SetName? ==> r.name == e.name && r.price == row.price
    ensures e.SetPrice? ==> r.price == e.price && r.name == row.name
  {
    match e
    case SetName(n) => row.(name := n)
    case SetPrice(p) => row.(price := p)
  }

  /** `handleDynamicChange`: the edit is applied to every row carrying `id`; the others are untouched. */
  function DynamicChange(rows: seq<Row>, id: string, e: Edit): (r: seq<Row>)
    ensures |r| == |rows|
    ensures forall i :: 0 <= i < |rows| ==> r[i].id == rows[i].id
    ensures forall i :: 0 <= i < |rows| && rows[i].id != id ==> r[i] == rows[i]
    ensures forall i :: 0 <= i < |rows| && rows[i].id == id ==> r[i] == ApplyEdit(rows[i], e)
  {
    seq(|rows|, i requires 0 <= i < |rows| => if rows[i].id == id then ApplyEdit(rows[i], e) else rows[i])
  }

  /** Repeating the same edit changes nothing more. */
  lemma DynamicChangeIdempotent(rows: seq<Row>, id: string, e: Edit)
    ensures DynamicChange(DynamicChange(rows, id, e), id, e) == DynamicChange(rows, id, e)
  {
  }

  /** `addItem`: one blank row, identified by the prefix and the current time in milliseconds, at the end. */
  function AddRow(rows: seq<Row>, prefix: string, now: int): (r: seq<Row>)
    ensures |r| == |rows| + 1 && r[..|rows|] == rows
    ensures r[|rows|] == Row(prefix + IntToString(now), "", 0.0)
  {
    rows + [Row(prefix + IntToString(now), "", 0.0)]
  }

  /** `removeItem`: every row carrying `id` goes; the rest keep their order. */
  function RemoveRow(rows: seq<Row>, id: string): (r: seq<Row>)
    ensures forall i :: 0 <= i < |r| ==> r[i].id != id && r[i] in rows
    ensures forall i :: 0 <= i < |rows| && rows[i].id != id ==> rows[i] in r
  {
    Filter(rows, (row: Row) => row.id != id)
  }

  /** Removing from a concatenation removes from each part, in order. */
  lemma RemoveRowAppend(a: seq<Row>, b: seq<Row>, id: string)
    ensures RemoveRow(a + b, id) == RemoveRow(a, id) + RemoveRow(b, id)
  {
    FilterAppend(a, b, (row: Row) => row.id != id);
  }

  /** Removing a row that was just added under a fresh identifier gives back the rows as they were. */
  lemma RemoveUndoesAdd(rows: seq<Row>, prefix: string, now: int)
    requires forall i :: 0 <= i < |rows| ==> rows[i].id != prefix + IntToString(now)
    ensures RemoveRow(AddRow(rows, prefix, now), prefix + IntToString(now)) == rows
  {
    var id := prefix + IntToString(now);
    var p := (row: Row) => row.id != id;
    assert AddRow(rows, prefix, now) == rows + [Row(id, "", 0.0)];
    FilterAppend(rows, [Row(id, "", 0.0)], p);
    FilterAll(rows, p);
    assert Filter([Row(id, "", 0.0)], p) == [];
  }

  /** An edit to rows that are then removed leaves no trace. */
  lemma RemoveAfterChange(rows: seq<Row>, id: string, e: Edit)
    ensures RemoveRow(DynamicChange(rows, id, e), id) == RemoveRow(rows, id)
  {
    RemoveAfterChangeFrom(rows, DynamicChange(rows, id, e), id, e);
  }

  lemma {:induction false} RemoveAfterChangeFrom(rows: seq<Row>, changed: seq<Row>, id: string, e: Edit)
    requires |changed| == |rows|
    requires forall i :: 0 <= i < |rows| ==> changed[i] == if rows[i].id == id then ApplyEdit(rows[i], e) else rows[i]
    ensures RemoveRow(changed, id) == RemoveRow(rows, id)
  {
    if rows != [] {
      RemoveAfterChangeFrom(rows[1..], changed[1..], id, e);
    }
  }

  /** What the server receives for a size or an extra: its name and price only. */
  datatype CleanRow = CleanRow(name: string, price: real)

  function Cleaned(rows: seq<Row>): (r: seq<CleanRow>)
    ensures |r| == |rows|
    ensures forall i :: 0 <= i < |rows| ==> r[i].name == rows[i].name && r[i].price == rows[i].price
  {
    seq(|rows|, i requires 0 <= i < |rows| => CleanRow(rows[i].name, rows[i].price))
  }

  /** The time-based identifier of a freshly added row never reaches the server: only a blank entry does. */
  lemma CleanedAfterAdd(rows: seq<Row>, prefix: string, now: int)
    ensures Cleaned(AddRow(rows, prefix, now)) == Cleaned(rows) + [CleanRow("", 0.0)]
  {
  }

  /** The form's image: nothing chosen, the stored image's address, or a newly chosen file. */
  datatype ImageValue = NoImage | Url(url: string) | NewFile(fileName: string)

  predicate TruthyImage(image: ImageValue) {
    image.NewFile? || (image.Url? && image.url != "")
  }

  /** `handleSave`'s guard: name, description and category are required, and an image on creation only. */
  function SaveAllowed(name: string, description: string, category: string, image: ImageValue, editing: bool): (ok: bool)
    ensures ok <==> name != "" && description != "" && category != "" && (editing || TruthyImage(image))
  {
    !(name == "" || description == "" || category == "" || (!TruthyImage(image) && !editing))
  }

  /** Editing a product never needs a new image. */
  lemma EditNeedsNoImage(name: string, description: string, category: string)
    requires name != "" && description != "" && category != ""
    ensures SaveAllowed(name, description, category, NoImage, true)
    ensures !SaveAllowed(name, description, category, NoImage, false)
  {
  }

  /** The form data `handleSave` sends; a file is attached only when one was chosen. */
  datatype FormPayload = FormPayload(
    name: string,
    description: string,
    basePrice: real,
    category: string,
    sizes: seq<CleanRow>,
    extras: seq<CleanRow>,
    image: Option<string>)

  datatype SaveRequest = Create(payload: FormPayload) | Update(productId: string, payload: FormPayload)

  datatype SaveOutcome =
    | Invalid
    | Saved(request: SaveRequest)
    | SaveFailed(request: SaveRequest, message: string)

  /** The product form in its modal. */
  class ProductForm {
    var modalOpen: bool
    var editing: Option<MenuItem>
    var name: string
    var description: string
    var basePrice: real
    var image: ImageValue
    var category: string
    var sizes: seq<Row>
    var extras: seq<Row>

    constructor ()
      ensures !modalOpen && editing.None? && name == "" && description == "" && basePrice == 0.0
      ensures image == NoImage && category == "" && sizes == [] && extras == []
    {
      modalOpen := false;
      editing := None;
      name, description, basePrice := "", "", 0.0;
      image := NoImage;
      category := "";
      sizes, extras := [], [];
    }

    /** `openModal(product)` fills the form from the product; `openModal()` clears it. Either way the modal opens. */
    method OpenModal(product: Option<MenuItem>)
      modifies this
      ensures modalOpen && editing == product
      ensures product.Some? ==>
        && name == product.value.name && description == product.value.description
        && basePrice == product.value.basePrice && image == Url(product.value.image)
        && category == product.value.category
        && sizes == SizeRows(product.value.sizes) && extras == ExtraRows(product.value.extras)
      ensures product.None? ==>
        && name == "" && description == "" && basePrice == 0.0 && image == NoImage
        && category == "" && sizes == [] && extras == []
    {
      editing := product;
      if product.Some? {
        var p := product.value;
        name, description, basePrice := p.name, p.description, p.basePrice;
        image := Url(p.image);
        category := p.category;
        sizes, extras := SizeRows(p.sizes), ExtraRows(p.extras);
      } else {
        name, description, basePrice := "", "", 0.0;
        image := NoImage;
        category := "";
        sizes, extras := [], [];
      }
      modalOpen := true;
    }

    method CloseModal()
      modifies this
      ensures !modalOpen
      ensures editing == old(editing) && name == old(name) && description == old(description)
      ensures basePrice == old(basePrice) && image == old(image) && category == old(category)
      ensures sizes == old(sizes) && extras == old(extras)
    {
      modalOpen := false;
    }

    /**
     * `handleImageChange`: the first chosen file becomes the image; an input
     * with no file list, or an empty one, leaves the image as it was.
     */
    method ChooseImage(files: seq<string>)
      modifies this
      ensures files != [] ==> image == NewFile(files[0]) && Payload().image == Some(files[0])
      ensures files == [] ==> image == old(image)
      ensures modalOpen == old(modalOpen) && editing == old(editing) && name == old(name)
      ensures description == old(description) && basePrice == old(basePrice) && category == old(category)
      ensures sizes == old(sizes) && extras == old(extras)
    {
      if |files| > 0 {
        image := NewFile(files[0]);
      }
    }

    /** The payload built from the current form. */
    function Payload(): (p: FormPayload)
      reads this
      ensures p.sizes == Cleaned(sizes) && p.extras == Cleaned(extras)
      ensures p.image.Some? <==> image.NewFile?
    {
      FormPayload(name, description, basePrice, category, Cleaned(sizes), Cleaned(extras),
        if image.NewFile? then Some(image.fileName) else None)
    }

    /**
     * `handleSave`. An invalid form sends nothing. Otherwise an update is
     * sent for the product being edited and a creation otherwise; success
     * closes the modal, and a failure keeps it open and reports the
     * server's message, or a generic one when there is none.
     */
    method HandleSave(succeeds: bool, serverMessage: Option<string>) returns (outcome: SaveOutcome)
      modifies this
      ensures !SaveAllowed(old(name), old(description), old(category), old(image), old(editing).Some?) ==>
        outcome == Invalid && modalOpen == old(modalOpen)
      ensures SaveAllowed(old(name), old(description), old(category), old(image), old(editing).Some?) ==>
        && !outcome.Invalid?
        && outcome.request == (if old(editing).Some? then Update(old(editing).value.id, old(Payload())) else Create(old(Payload())))
        && (succeeds ==> outcome.Saved? && !modalOpen)
        && (!succeeds ==> outcome.SaveFailed? && modalOpen == old(modalOpen))
        && (!succeeds ==> outcome.message == if Truthy(serverMessage) then serverMessage.value else "Something went wrong")
      ensures editing == old(editing) && name == old(name) && description == old(description)
      ensures basePrice == old(basePrice) && image == old(image) && category == old(category)
      ensures sizes == old(sizes) && extras == old(extras)
    {
      if name == "" || description == "" || category == "" || (!TruthyImage(image) && editing.None?) {
        return Invalid;
      }
      var payload := Payload();
      var request := if editing.Some? then Update(editing.value.id, payload) else Create(payload);
      if succeeds {
        outcome := Saved(request);
        CloseModal();
      } else {
        var message := if serverMessage.Some? && serverMessage.value != "" then serverMessage.value else "Something went wrong";
        outcome := SaveFailed(request, message);
      }
    }

    method ChangeSize(id: string, e: Edit)
      modifies this
      ensures sizes == DynamicChange(old(sizes), id, e) && extras == old(extras)
      ensures modalOpen == old(modalOpen) && editing == old(editing) && name == old(name)
      ensures description == old(description) && basePrice == old(basePrice) && image == old(image) && category == old(category)
    {
      sizes := DynamicChange(sizes, id, e);
    }

    method ChangeExtra(id: string, e: Edit)
      modifies this
      ensures extras == DynamicChange(old(extras), id, e) && sizes == old(sizes)
      ensures modalOpen == old(modalOpen) && editing == old(editing) && name == old(name)
      ensures description == old(description) && basePrice == old(basePrice) && image == old(image) && category == old(category)
    {
      extras := DynamicChange(extras, id, e);
    }

    /** `addItem(setSizes, 's')`, at time `now`. */
    method AddSize(now: int)
      modifies this
      ensures sizes == AddRow(old(sizes), "s", now) && extras == old(extras)
      ensures modalOpen == old(modalOpen) && editing == old(editing) && name == old(name)
      ensures description == old(description) && basePrice == old(basePrice) && image == old(image) && category == old(category)
    {
      sizes := AddRow(sizes, "s", now);
    }

    /** `addItem(setExtras, 'e')`, at time `now`. */
    method AddExtra(now: int)
      modifies this
      ensures extras == AddRow(old(extras), "e", now) && sizes == old(sizes)
      ensures modalOpen == old(modalOpen) && editing == old(editing) && name == old(name)
      ensures description == old(description) && basePrice == old(basePrice) && image == old(image) && category == old(category)
    {
      extras := AddRow(extras, "e", now);
    }

    method RemoveSize(id: string)
      modifies this
      ensures sizes == RemoveRow(old(sizes), id) && extras == old(extras)
      ensures modalOpen == old(modalOpen) && editing == old(editing) && name == old(name)
      ensures description == old(description) && basePrice == old(basePrice) && image == old(image) && category == old(category)
    {
      sizes := RemoveRow(sizes, id);
    }

    method RemoveExtra(id: string)
      modifies this
      ensures extras == RemoveRow(old(extras), id) && sizes == old(sizes)
      ensures modalOpen == old(modalOpen) && editing == old(editing) && name == old(name)
      ensures description == old(description) && basePrice == old(basePrice) && image == old(image) && category == old(category)
    {
      extras := RemoveRow(extras, id);
    }
  }

  /** The products without those carrying `id`, in their order. */
  function WithoutProduct(products: seq<MenuItem>, id: string): (r: seq<MenuItem>)
    ensures forall i :: 0 <= i < |r| ==> r[i].id != id && r[i] in products
    ensures forall i :: 0 <= i < |products| && products[i].id != id ==> products[i] in r
  {
    Filter(products, (p: MenuItem) => p.id != id)
  }

  /** The list, the search term and the delete confirmation of the page. */
  class ProductsPage {
    var products: seq<MenuItem>
    var searchTerm: string
    var deleteModalOpen: bool
    var productToDelete: Option<MenuItem>

    constructor ()
      ensures products == [] && searchTerm == "" && !deleteModalOpen && productToDelete.None?
    {
      products := [];
      searchTerm := "";
      deleteModalOpen := false;
      productToDelete := None;
    }

    /** `handleDeleteClick`: remember the product and ask for confirmation. */
    method DeleteClick(p: MenuItem)
      modifies this
      ensures productToDelete == Some(p) && deleteModalOpen
      ensures products == old(products) && searchTerm == old(searchTerm)
    {
      productToDelete := Some(p);
      deleteModalOpen := true;
    }

    /**
     * `confirmDelete`: with no product chosen nothing happens. Otherwise,
     * when the server accepts, exactly the products carrying the chosen
     * `_id` leave the list; either way the dialog closes.
     */
    method ConfirmDelete(succeeds: bool)
      modifies this
      ensures old(productToDelete).None? ==>
        products == old(products) && deleteModalOpen == old(deleteModalOpen)
      ensures old(productToDelete).Some? ==>
        && !deleteModalOpen
        && products == (if succeeds then WithoutProduct(old(products), old(productToDelete).value.id) else old(products))
      ensures productToDelete == old(productToDelete) && searchTerm == old(searchTerm)
    {
      if productToDelete.None? {
        return;
      }
      if succeeds {
        products := WithoutProduct(products, productToDelete.value.id);
      }
      deleteModalOpen := false;
    }
  }
}
