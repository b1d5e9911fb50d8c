// The admin product table: the search, the category column, the statistics
// and the list updates after a create, an update or a delete. The server's
// answers are parameters.

module AdminDashboard {
  import opened Common
  import opened AdminApi

  /** A name looked up in a reference map, kept only when it is truthy. */
  function Present(names: map<string, string>, id: Option<string>): (r: Option<string>)
    ensures r.Some? ==> r.value != ""
  {
    var key := id.GetOr("");
    if key in names && names[key] != "" then Some(names[key]) else None
  }

  /** `[a, b].filter(Boolean).join(" · ")`. */
  function JoinPresent(a: Option<string>, b: Option<string>): string {
    match (a, b)
    case (Some(x), Some(y)) => x + " · " + y
    case (Some(x), None) => x
    case (None, Some(y)) => y
    case (None, None) => ""
  }

  /** The category text the search looks in. */
  function CategoryText(p: AdminProductDto, genders: map<string, string>, types: map<string, string>): string {
    JoinPresent(Present(genders, p.genderId), Present(types, p.shoeTypeId))
  }

  /** `displayCategory`: the category text, or "—" when it is empty. */
  function DisplayCategory(p: AdminProductDto, genders: map<string, string>, types: map<string, string>): (r: string)
    ensures r != ""
  {
    var text := CategoryText(p, genders, types);
    if text == "" then "—" else text
  }

  /** The category cell shows gender and type joined by " · " when both
      names are known, the one known name alone, and "—" when neither is. */
  lemma DisplayCategoryCases(p: AdminProductDto, genders: map<string, string>, types: map<string, string>)
    ensures var g := Present(genders, p.genderId);
      var t := Present(types, p.shoeTypeId);
      DisplayCategory(p, genders, types) ==
        if g.Some? && t.Some? then g.value + " · " + t.value
        else if g.Some? then g.value
        else if t.Some? then t.value
        else "—"
  {
  }

  /** The search on a non-blank query: the query lower-cased, untrimmed, in
      name, SKU, description or category text. */
  predicate Matches(p: AdminProductDto, q: string, genders: map<string, string>, types: map<string, string>) {
    var t := ToLower(q);
    Includes(ToLower(p.name), t) || Includes(ToLower(p.sku), t)
    || Includes(ToLower(p.description), t) || Includes(ToLower(CategoryText(p, genders, types)), t)
  }

  /** `filtered`. */
  function Filtered(items: seq<AdminProductDto>, q: string, genders: map<string, string>, types: map<string, string>)
    : seq<AdminProductDto>
  {
    if IsBlank(q) then items else Filter(items, p => Matches(p, q, genders, types))
  }

  /** A blank query lists every product; any other lists, in order, exactly
      the products it matches. */
  lemma FilteredSpec(items: seq<AdminProductDto>, q: string, genders: map<string, string>, types: map<string, string>)
    ensures IsBlank(q) ==> Filtered(items, q, genders, types) == items
    ensures !IsBlank(q) ==> forall p :: p in Filtered(items, q, genders, types) <==> p in items && Matches(p, q, genders, types)
  {
    FilterSpec(items, p => Matches(p, q, genders, types));
  }

  datatype Stats = Stats(totalProducts: int, orders: int, revenue: int)

  /** `stats`. */
  function StatsOf(items: seq<AdminProductDto>): (s: Stats)
    ensures s.totalProducts == |items| && s.orders == 0 && s.revenue == 0
  {
    Stats(|items|, 0, 0)
  }

  /** The list after an update: every product with the returned id becomes
      the returned product. */
  function Replaced(items: seq<AdminProductDto>, updated: AdminProductDto): (r: seq<AdminProductDto>)
    ensures |r| == |items|
    ensures forall k :: 0 <= k < |items| ==> r[k] == if items[k].id == updated.id then updated else items[k]
  {
    seq(|items|, k requires 0 <= k < |items| => if items[k].id == updated.id then updated else items[k])
  }

  /** The list after a delete. */
  function Removed(items: seq<AdminProductDto>, id: string): seq<AdminProductDto> {
    Filter(items, (p: AdminProductDto) => p.id != id)
  }

  /** An update keeps the ids in place, so a delete afterwards leaves what a
      delete before would have, and an update for an id not in the list
      changes nothing. */
  lemma {:induction false} ReplaceThenRemove(items: seq<AdminProductDto>, updated: AdminProductDto)
    ensures Removed(Replaced(items, updated), updated.id) == Removed(items, updated.id)
    ensures (forall k :: 0 <= k < |items| ==> items[k].id != updated.id) ==> Replaced(items, updated) == items
  {
    if |items| > 0 {
      ReplaceThenRemove(items[1..], updated);
      assert Replaced(items, updated)[1..] == Replaced(items[1..], updated);
    }
  }

  /** A created product goes first; deleting it again, when its id was new,
      gives the list back, and the product count goes up by one. */
  lemma CreateThenRemove(items: seq<AdminProductDto>, created: AdminProductDto)
    requires forall k :: 0 <= k < |items| ==> items[k].id != created.id
    ensures Removed([created] + items, created.id) == items
    ensures StatsOf([created] + items).totalProducts == StatsOf(items).totalProducts + 1
  {
    assert ([created] + items)[1..] == items;
    FilterSpec(items, (p: AdminProductDto) => p.id != created.id);
  }

  class Page {
    var items: seq<AdminProductDto>
    var openForm: bool
    var editing: Option<AdminProductDto>
    var confirmOpen: bool
    var confirmId: Option<string>
    var formSubmitting: bool
    var formError: Option<string>

    constructor(items: seq<AdminProductDto>)
      ensures this.items == items && !openForm && editing.None? && !confirmOpen && confirmId.None?
      ensures !formSubmitting && formError.None?
    {
      this.items := items;
      openForm := false;
      editing := None;
      confirmOpen := false;
      confirmId := None;
      formSubmitting := false;
      formError := None;
    }

    /** `handleCreate`: on success the returned product goes first and the
        form closes; on failure the list stays and the form shows the error. */
    method HandleCreate(reply: Reply<AdminProductDto>)
      modifies this
      ensures !formSubmitting && editing == old(editing) && confirmOpen == old(confirmOpen) && confirmId == old(confirmId)
      ensures reply.Ok? ==> items == [reply.value] + old(items) && !openForm && formError.None?
      ensures reply.Err? ==>
        items == old(items) && openForm == old(openForm) && formError == Some(reply.message.GetOr("Création impossible"))
    {
      formSubmitting := true;
      formError := None;
      match reply {
        case Ok(created) =>
          items := [created] + items;
          openForm := false;
        case Err(message) =>
          formError := Some(message.GetOr("Création impossible"));
      }
      formSubmitting := false;
    }

    /** `handleUpdate`: nothing without a product being edited; on success
        the products with the returned id are replaced and the form closes;
        on failure the list stays and the form shows the error. */
    method HandleUpdate(reply: Reply<AdminProductDto>)
      modifies this
      ensures confirmOpen == old(confirmOpen) && confirmId == old(confirmId)
      ensures old(editing).None? ==>
        items == old(items) && openForm == old(openForm) && editing == old(editing)
        && formSubmitting == old(formSubmitting) && formError == old(formError)
      ensures old(editing).Some? && reply.Ok? ==>
        items == Replaced(old(items), reply.value) && !openForm && editing.None? && !formSubmitting && formError.None?
      ensures old(editing).Some? && reply.Err? ==>
        items == old(items) && openForm == old(openForm) && editing == old(editing) && !formSubmitting
        && formError == Some(reply.message.GetOr("Mise à jour impossible"))
    {
      if editing.None? {
        return;
      }
      formSubmitting := true;
      formError := None;
      match reply {
        case Ok(updated) =>
          items := Replaced(items, updated);
          openForm := false;
          editing := None;
        case Err(message) =>
          formError := Some(message.GetOr("Mise à jour impossible"));
      }
      formSubmitting := false;
    }

    /** `handleDelete`: nothing without a confirmed id; on success every
        product with that id goes and the dialog closes; on failure the list
        stays and the message is alerted. */
    method HandleDelete(reply: Reply<()>) returns (alerted: Option<string>)
      modifies this
      ensures openForm == old(openForm) && editing == old(editing)
      ensures formSubmitting == old(formSubmitting) && formError == old(formError)
      ensures old(confirmId).None? ==>
        alerted.None? && items == old(items) && confirmOpen == old(confirmOpen) && confirmId == old(confirmId)
      ensures old(confirmId).Some? && reply.Ok? ==>
        alerted.None? && items == Removed(old(items), old(confirmId).value) && !confirmOpen && confirmId.None?
      ensures old(confirmId).Some? && reply.Err? ==>
        alerted == Some(reply.message.GetOr("Suppression impossible"))
        && items == old(items) && confirmOpen == old(confirmOpen) && confirmId == old(confirmId)
    {
      if confirmId.None? {
        return None;
      }
      var id := confirmId.value;
      match reply {
        case Ok(_) =>
          items := Removed(items, id);
          confirmOpen := false;
          confirmId := None;
          alerted := None;
        case Err(message) =>
          alerted := Some(message.GetOr("Suppression impossible"));
      }
    }
  }
}
