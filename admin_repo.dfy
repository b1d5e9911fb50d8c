// The admin back office's local product and user lists. Each operation loads
// the list from its storage key (seeding four demo entries when nothing usable
// is stored), changes it and writes it back. The generated ids are parameters.

module AdminRepo {
  import opened Common
  import MockAuth

  datatype AdminCategory = Homme | Femme | Enfant

  datatype SizeStock = SizeStock(size: int, stock: int)

  /** A product; the price is in cents. */
  datatype AdminProduct = AdminProduct(id: string, name: string, category: AdminCategory, price: int,
                                       sizes: seq<SizeStock>, image: Option<string>)

  /** A product without its id, as `createProduct` takes it. */
  datatype NewProduct = NewProduct(name: string, category: AdminCategory, price: int,
                                   sizes: seq<SizeStock>, image: Option<string>)

  /** The fields a patch carries; `None` for a field it leaves out. */
  datatype ProductPatch = ProductPatch(id: Option<string>, name: Option<string>, category: Option<AdminCategory>,
                                       price: Option<int>, sizes: Option<seq<SizeStock>>, image: Option<string>)

  datatype AdminUser = AdminUser(id: string, name: string, email: string, role: MockAuth.Role, active: bool)

  /** The content of a storage key: nothing usable (absent, empty or not
      parsable) or a stored list. */
  datatype Slot<T> = Unusable | Saved(list: seq<T>)

  /** The value of an operation that may throw. */
  datatype Outcome<T> = Done(value: T) | Thrown(message: string)

  /** The list a load returns: the stored one, or else the seed. */
  function Loaded<T>(slot: Slot<T>, seed: seq<T>): seq<T> {
    if slot.Saved? then slot.list else seed
  }

  /** The slot after a load: a usable slot is kept, anything else now holds
      the seed. */
  function AfterLoad<T>(slot: Slot<T>, seed: seq<T>): (r: Slot<T>)
    ensures r == Saved(Loaded(slot, seed))
  {
    if slot.Saved? then slot else Saved(seed)
  }

  function Sizes(a: int, sa: int, b: int, sb: int, c: int, sc: int): seq<SizeStock> {
    [SizeStock(a, sa), SizeStock(b, sb), SizeStock(c, sc)]
  }

  /** The four demo products, with the given generated ids. */
  function SeedProducts(ids: seq<string>): (r: seq<AdminProduct>)
    requires |ids| == 4
    ensures |r| == 4 && forall k :: 0 <= k < 4 ==> r[k].id == ids[k] && |r[k].sizes| == 3 && r[k].image.None?
  {
    [AdminProduct(ids[0], "Adventure Kids", Enfant, 6999, Sizes(30, 12, 31, 10, 32, 8), None),
     AdminProduct(ids[1], "Adventure Kids Blanc Cuir", Enfant, 8511, Sizes(29, 6, 30, 11, 31, 12), None),
     AdminProduct(ids[2], "Urban Runner", Femme, 8999, Sizes(37, 8, 38, 11, 39, 7), None),
     AdminProduct(ids[3], "Air Max Classic", Homme, 12999, Sizes(41, 12, 42, 9, 43, 7), None)]
  }

  /** The four demo users, with the given generated ids; all active. */
  function SeedUsers(ids: seq<string>): (r: seq<AdminUser>)
    requires |ids| == 4
    ensures |r| == 4 && forall k :: 0 <= k < 4 ==> r[k].id == ids[k] && r[k].active
  {
    [AdminUser(ids[0], "Admin SHOOZYOU", "admin@shoozyou.com", MockAuth.Admin, true),
     AdminUser(ids[1], "Sophie Vendeur", "sophie@shoozyou.com", MockAuth.Seller, true),
     AdminUser(ids[2], "Marc Vendeur", "marc@shoozyou.com", MockAuth.Seller, true),
     AdminUser(ids[3], "Camille Client", "camille@client.com", MockAuth.Client, true)]
  }

  function ProductIds(list: seq<AdminProduct>): (r: seq<string>)
    ensures |r| == |list| && forall k :: 0 <= k < |list| ==> r[k] == list[k].id
  {
    seq(|list|, k requires 0 <= k < |list| => list[k].id)
  }

  function UserIds(list: seq<AdminUser>): (r: seq<string>)
    ensures |r| == |list| && forall k :: 0 <= k < |list| ==> r[k] == list[k].id
  {
    seq(|list|, k requires 0 <= k < |list| => list[k].id)
  }

  /** `findIndex` on ids: the first position holding `id`, or `None` for -1. */
  function FirstIndex(ids: seq<string>, id: string): (r: Option<nat>)
    ensures r.None? <==> id !in ids
    ensures r.Some? ==> r.value < |ids| && ids[r.value] == id && id !in ids[..r.value]
  {
    if |ids| == 0 then None
    else if ids[0] == id then Some(0)
    else
      var rest := FirstIndex(ids[1..], id);
      assert ids[1..][..if rest.Some? then rest.value else 0] == ids[1..if rest.Some? then rest.value + 1 else 1];
      if rest.Some? then Some(rest.value + 1) else None
  }

  /** `{ ...p, id }`. */
  function WithId(p: NewProduct, id: string): (r: AdminProduct)
    ensures r.id == id
  {
    AdminProduct(id, p.name, p.category, p.price, p.sizes, p.image)
  }

  /** `{ ...product, ...patch, id }`: the patch's fields win, except the id. */
  function Patched(p: AdminProduct, patch: ProductPatch, id: string): AdminProduct {
    AdminProduct(id, patch.name.GetOr(p.name), patch.category.GetOr(p.category), patch.price.GetOr(p.price),
                 patch.sizes.GetOr(p.sizes), if patch.image.Some? then patch.image else p.image)
  }

  /** `filter(p => p.id !== id)`. */
  function Without(list: seq<AdminProduct>, id: string): seq<AdminProduct> {
    if |list| == 0 then []
    else (if list[0].id == id then [] else [list[0]]) + Without(list[1..], id)
  }

  /** The filter keeps exactly the products with another id, in order, and
      is the identity when no product has the id. */
  lemma {:induction false} WithoutSpec(list: seq<AdminProduct>, id: string)
    ensures forall p :: p in Without(list, id) <==> p in list && p.id != id
    ensures id !in ProductIds(list) ==> Without(list, id) == list
    ensures |Without(list, id)| <= |list|
  {
    if |list| > 0 {
      WithoutSpec(list[1..], id);
      assert list == [list[0]] + list[1..];
      assert ProductIds(list[1..]) == ProductIds(list)[1..];
    }
  }

  /** Creating a product with a fresh id and then removing it gives back the
      list as it was. */
  lemma CreateThenRemove(list: seq<AdminProduct>, p: NewProduct, id: string)
    requires id !in ProductIds(list)
    ensures Without([WithId(p, id)] + list, id) == list
  {
    assert ([WithId(p, id)] + list)[1..] == list;
    WithoutSpec(list, id);
  }

  /** An update keeps every id, so removing the id afterwards removes the
      same entries, and leaves the same list, as removing it before. */
  lemma {:induction false} UpdateThenRemove(list: seq<AdminProduct>, i: nat, patch: ProductPatch, id: string)
    requires i < |list| && list[i].id == id
    ensures Without(list[i := Patched(list[i], patch, id)], id) == Without(list, id)
  {
    if i > 0 {
      var list' := list[i := Patched(list[i], patch, id)];
      assert list'[1..] == list[1..][i - 1 := Patched(list[i], patch, id)];
      UpdateThenRemove(list[1..], i - 1, patch, id);
    } else {
      assert list[i := Patched(list[i], patch, id)][1..] == list[1..];
    }
  }

  class Repo {
    var products: Slot<AdminProduct>
    var users: Slot<AdminUser>

    constructor(products: Slot<AdminProduct>, users: Slot<AdminUser>)
      ensures this.products == products && this.users == users
    {
      this.products := products;
      this.users := users;
    }

    /** `loadProducts`: the stored list, or the four demo products, which are
        then stored. */
    method LoadProducts(seedIds: seq<string>) returns (list: seq<AdminProduct>)
      requires |seedIds| == 4
      modifies this
      ensures list == Loaded(old(products), SeedProducts(seedIds))
      ensures products == AfterLoad(old(products), SeedProducts(seedIds)) && users == old(users)
    {
      if products.Saved? {
        list := products.list;
      } else {
        list := SeedProducts(seedIds);
        products := Saved(list);
      }
    }

    /** `createProduct`: the new product, with the fresh id, goes first and
        the others follow in their order. */
    method CreateProduct(p: NewProduct, freshId: string, seedIds: seq<string>) returns (np: AdminProduct)
      requires |seedIds| == 4
      modifies this
      ensures np == WithId(p, freshId)
      ensures products == Saved([np] + Loaded(old(products), SeedProducts(seedIds))) && users == old(users)
    {
      var list := LoadProducts(seedIds);
      np := WithId(p, freshId);
      products := Saved([np] + list);
    }

    /** `updateProduct`: throws for an unknown id (after the load, which may
        have stored the seed); otherwise the first product with the id is
        patched, keeping its id, and nothing else changes. */
    method UpdateProduct(id: string, patch: ProductPatch, seedIds: seq<string>) returns (r: Outcome<AdminProduct>)
      requires |seedIds| == 4
      modifies this
      ensures users == old(users)
      ensures var before := Loaded(old(products), SeedProducts(seedIds));
        match FirstIndex(ProductIds(before), id)
        case None => r == Thrown("Produit introuvable") && products == AfterLoad(old(products), SeedProducts(seedIds))
        case Some(i) => r == Done(Patched(before[i], patch, id)) && products == Saved(before[i := r.value])
    {
      var list := LoadProducts(seedIds);
      var idx := FirstIndex(ProductIds(list), id);
      if idx.None? {
        return Thrown("Produit introuvable");
      }
      var i := idx.value;
      var updated := Patched(list[i], patch, id);
      products := Saved(list[i := updated]);
      r := Done(updated);
    }

    /** `removeProduct`: every product with the id goes. */
    method RemoveProduct(id: string, seedIds: seq<string>)
      requires |seedIds| == 4
      modifies this
      ensures products == Saved(Without(Loaded(old(products), SeedProducts(seedIds)), id)) && users == old(users)
    {
      var list := LoadProducts(seedIds);
      products := Saved(Without(list, id));
    }

    /** `loadUsers`: the stored list, or the four demo users, which are then
        stored. */
    method LoadUsers(seedIds: seq<string>) returns (list: seq<AdminUser>)
      requires |seedIds| == 4
      modifies this
      ensures list == Loaded(old(users), SeedUsers(seedIds))
      ensures users == AfterLoad(old(users), SeedUsers(seedIds)) && products == old(products)
    {
      if users.Saved? {
        list := users.list;
      } else {
        list := SeedUsers(seedIds);
        users := Saved(list);
      }
    }

    /** `updateUserRole`: throws for an unknown id; otherwise only the role of
        the first user with the id changes. */
    method UpdateUserRole(id: string, role: MockAuth.Role, seedIds: seq<string>) returns (r: Outcome<AdminUser>)
      requires |seedIds| == 4
      modifies this
      ensures products == old(products)
      ensures var before := Loaded(old(users), SeedUsers(seedIds));
        match FirstIndex(UserIds(before), id)
        case None => r == Thrown("Utilisateur introuvable") && users == AfterLoad(old(users), SeedUsers(seedIds))
        case Some(i) => r == Done(before[i].(role := role)) && users == Saved(before[i := r.value])
    {
      var list := LoadUsers(seedIds);
      var idx := FirstIndex(UserIds(list), id);
      if idx.None? {
        return Thrown("Utilisateur introuvable");
      }
      var i := idx.value;
      var updated := list[i].(role := role);
      users := Saved(list[i := updated]);
      r := Done(updated);
    }

    /** `toggleUserActive`: throws for an unknown id; otherwise only the
        `active` flag of the first user with the id changes. */
    method ToggleUserActive(id: string, active: bool, seedIds: seq<string>) returns (r: Outcome<AdminUser>)
      requires |seedIds| == 4
      modifies this
      ensures products == old(products)
      ensures var before := Loaded(old(users), SeedUsers(seedIds));
        match FirstIndex(UserIds(before), id)
        case None => r == Thrown("Utilisateur introuvable") && users == AfterLoad(old(users), SeedUsers(seedIds))
        case Some(i) => r == Done(before[i].(active := active)) && users == Saved(before[i := r.value])
    {
      var list := LoadUsers(seedIds);
      var idx := FirstIndex(UserIds(list), id);
      if idx.None? {
        return Thrown("Utilisateur introuvable");
      }
      var i := idx.value;
      var updated := list[i].(active := active);
      users := Saved(list[i := updated]);
      r := Done(updated);
    }
  }

  /** Without anything usable stored, a load yields exactly four products
      and four users, and a second load reads the same lists back. */
  method SeedThenReload(repo: Repo, productIds: seq<string>, userIds: seq<string>, otherIds: seq<string>)
    returns (first: seq<AdminProduct>, again: seq<AdminProduct>, people: seq<AdminUser>, peopleAgain: seq<AdminUser>)
    requires |productIds| == 4 && |userIds| == 4 && |otherIds| == 4
    requires repo.products == Unusable && repo.users == Unusable
    modifies repo
    ensures |first| == 4 && again == first && |people| == 4 && peopleAgain == people
  {
    first := repo.LoadProducts(productIds);
    again := repo.LoadProducts(otherIds);
    people := repo.LoadUsers(userIds);
    peopleAgain := repo.LoadUsers(otherIds);
  }
}
