/**
 * The manager's suppliers page: the supplier list with its search and status filter, the
 * add/edit form and its submit target, and the rule that disables the delete button.
 */
module SuppliersManagement {
  import opened Common
  import opened Lists
  import opened Text

  /** A supplier as the listing returns it; columns stored as NULL arrive missing. */
  datatype Supplier = Supplier(
    id: int,
    name: string,
    contactPerson: Option<string>,
    email: Option<string>,
    phone: Option<string>,
    address: Option<string>,
    isActive: bool,
    productCount: Option<int>)

  /** The add/edit form. */
  datatype SupplierForm = SupplierForm(
    name: string,
    contactPerson: string,
    email: string,
    phone: string,
    address: string,
    isActive: bool)

  /** The form's initial and reset value: empty texts and active. */
  function EmptySupplierForm(): (f: SupplierForm)
    ensures f.name == "" && f.contactPerson == "" && f.email == "" && f.phone == "" && f.address == "" && f.isActive
  {
    SupplierForm("", "", "", "", "", true)
  }

  /** `value || ''` on an optional text: a missing value becomes the empty text. */
  function OrEmpty(value: Option<string>): (s: string)
    ensures value.Some? ==> s == value.value
    ensures value.None? ==> s == ""
  {
    if value.Some? then value.value else ""
  }

  /** The search: name, contact person or e-mail; a missing contact or e-mail never matches. */
  predicate MatchesText(s: Supplier, term: string) {
    MatchesSearch(s.name, term) || MatchesOptional(s.contactPerson, term) || MatchesOptional(s.email, term)
  }

  /** The status filter: `'all'`, `'active'` or `'inactive'`; any other value matches nothing. */
  predicate MatchesStatus(s: Supplier, filterStatus: string) {
    filterStatus == "all" || (filterStatus == "active" && s.isActive) || (filterStatus == "inactive" && !s.isActive)
  }

  function FilteredSuppliers(suppliers: seq<Supplier>, searchTerm: string, filterStatus: string): (r: seq<Supplier>)
    ensures IsSubsequence(r, suppliers)
    ensures forall s :: s in r <==> s in suppliers && MatchesText(s, searchTerm) && MatchesStatus(s, filterStatus)
  {
    Filter(suppliers, s => MatchesText(s, searchTerm) && MatchesStatus(s, filterStatus))
  }

  /** `'active'` keeps exactly the active suppliers and `'inactive'` exactly the others (the search aside). */
  lemma StatusFilterIsExact(s: Supplier)
    ensures MatchesStatus(s, "active") <==> s.isActive
    ensures MatchesStatus(s, "inactive") <==> !s.isActive
    ensures MatchesStatus(s, "all")
  {
  }

  /** With the same search, the active and the inactive lists split the full list between them. */
  lemma ActiveAndInactivePartition(suppliers: seq<Supplier>, searchTerm: string)
    ensures |FilteredSuppliers(suppliers, searchTerm, "active")| + |FilteredSuppliers(suppliers, searchTerm, "inactive")| ==
            |FilteredSuppliers(suppliers, searchTerm, "all")|
  {
    CountSplit(suppliers, s => MatchesText(s, searchTerm) && MatchesStatus(s, "all"),
               s => MatchesText(s, searchTerm) && MatchesStatus(s, "active"),
               s => MatchesText(s, searchTerm) && MatchesStatus(s, "inactive"));
  }

  /** The delete button is disabled iff the listing's `product_count` is present and positive. */
  function DeleteDisabled(s: Supplier): (d: bool)
    ensures d <==> s.productCount.Some? && s.productCount.value > 0
  {
    s.productCount.Some? && s.productCount.value != 0 && s.productCount.value > 0
  }

  /** The request the dialog's submit sends. */
  datatype SubmitRequest = PutSupplier(id: int) | PostSupplier

  /** `editingId ? PUT : POST`: an id of 0 is falsy, so editing supplier 0 creates a new one. */
  function SubmitRequestFor(editingId: Option<int>): (r: SubmitRequest)
    ensures r.PutSupplier? <==> editingId.Some? && editingId.value != 0
    ensures r.PutSupplier? ==> r.id == editingId.value
  {
    if editingId.Some? && editingId.value != 0 then PutSupplier(editingId.value) else PostSupplier
  }

  /** The page's list and form state. */
  class SuppliersManagementPage {
    var suppliers: seq<Supplier>
    var form: SupplierForm
    var editingId: Option<int>
    var showSupplierModal: bool
    var error: string

    constructor ()
      ensures suppliers == [] && form == EmptySupplierForm() && editingId.None? && !showSupplierModal && error == ""
    {
      suppliers := [];
      form := EmptySupplierForm();
      editingId := None;
      showSupplierModal := false;
      error := "";
    }

    /** `handleEdit`: copy the supplier into the form, missing texts as empty, and remember its id. */
    method HandleEdit(s: Supplier)
      modifies this
      ensures editingId == Some(s.id) && showSupplierModal && error == old(error) && suppliers == old(suppliers)
      ensures form == SupplierForm(s.name, OrEmpty(s.contactPerson), OrEmpty(s.email), OrEmpty(s.phone),
                                   OrEmpty(s.address), s.isActive)
    {
      editingId := Some(s.id);
      form := SupplierForm(s.name, OrEmpty(s.contactPerson), OrEmpty(s.email), OrEmpty(s.phone),
                           OrEmpty(s.address), s.isActive);
      showSupplierModal := true;
    }

    /** `resetForm`: the defaults, and no supplier being edited. */
    method ResetForm()
      modifies this
      ensures form == EmptySupplierForm() && editingId.None?
      ensures showSupplierModal == old(showSupplierModal) && error == old(error) && suppliers == old(suppliers)
    {
      form := EmptySupplierForm();
      editingId := None;
    }

    /**
     * `loadSuppliers`: clears the error banner, then an OK response replaces the list with the
     * body's `suppliers` (an empty list when the body has none); a failure sets the banner and
     * keeps the list.
     */
    method LoadSuppliers(outcome: FetchOutcome, body: Option<seq<Supplier>>)
      modifies this
      ensures outcome == ResponseOk ==> error == "" && suppliers == (if body.Some? then body.value else [])
      ensures outcome == ResponseNotOk ==> error == "Failed to load suppliers" && suppliers == old(suppliers)
      ensures outcome == Thrown ==> error == "Error loading suppliers" && suppliers == old(suppliers)
      ensures form == old(form) && editingId == old(editingId) && showSupplierModal == old(showSupplierModal)
    {
      error := "";
      match outcome {
        case ResponseOk =>
          suppliers := if body.Some? then body.value else [];
        case ResponseNotOk =>
          error := "Failed to load suppliers";
        case Thrown =>
          error := "Error loading suppliers";
      }
    }

    /**
     * `handleSubmit`: returns the request sent; `outcome` is how it ended. An OK response reloads
     * the list (`reload` and `body` are how that fetch ended), then resets the form and closes
     * the dialog; otherwise the error banner says which failure it was and the form stays.
     */
    method HandleSubmit(outcome: FetchOutcome, reload: FetchOutcome, body: Option<seq<Supplier>>)
      returns (request: SubmitRequest)
      modifies this
      ensures request == SubmitRequestFor(old(editingId))
      ensures outcome == ResponseOk ==>
        form == EmptySupplierForm() && editingId.None? && !showSupplierModal &&
        (reload == ResponseOk ==> error == "" && suppliers == (if body.Some? then body.value else [])) &&
        (reload == ResponseNotOk ==> error == "Failed to load suppliers" && suppliers == old(suppliers)) &&
        (reload == Thrown ==> error == "Error loading suppliers" && suppliers == old(suppliers))
      ensures outcome == ResponseNotOk ==>
        form == old(form) && editingId == old(editingId) && showSupplierModal == old(showSupplierModal) &&
        error == "Failed to save supplier" && suppliers == old(suppliers)
      ensures outcome == Thrown ==>
        form == old(form) && editingId == old(editingId) && showSupplierModal == old(showSupplierModal) &&
        error == "Error saving supplier" && suppliers == old(suppliers)
    {
      request := SubmitRequestFor(editingId);
      match outcome {
        case ResponseOk =>
          LoadSuppliers(reload, body);
          ResetForm();
          showSupplierModal := false;
        case ResponseNotOk =>
          error := "Failed to save supplier";
        case Thrown =>
          error := "Error saving supplier";
      }
    }
  }

  /** Editing a supplier and submitting sends a PUT for it, unless its id is 0. */
  lemma EditThenSubmitUpdates(s: Supplier)
    ensures SubmitRequestFor(Some(s.id)) == if s.id == 0 then PostSupplier else PutSupplier(s.id)
    ensures SubmitRequestFor(None) == PostSupplier
  {
  }
}
