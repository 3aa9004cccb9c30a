/**
 * The coffee-shop directory: the active filter, lookups by code and by id,
 * creation, partial update and deactivation. The repository is an in-memory
 * table of rows in insertion order; ids come from a counter, as an identity
 * column would hand them out.
 */
module ShopDirectory {
  import opened Wrappers
  import opened OrderEntity
  import Seqs

  /** Position of the first shop with database id `id`. */
  function IndexOfId(shops: seq<CoffeeShop>, id: int): (r: Option<nat>)
    ensures r.Some? ==> r.value < |shops| && shops[r.value].id == id
    ensures r.None? <==> forall i :: 0 <= i < |shops| ==> shops[i].id != id
    decreases |shops|
  {
    if shops == [] then None
    else if shops[0].id == id then Some(0)
    else match IndexOfId(shops[1..], id)
      case None => None
      case Some(k) => Some(k + 1)
  }

  /** The first shop of the list that satisfies `p` (`stream().filter(p).findFirst()`). */
  function FirstWhere(shops: seq<CoffeeShop>, p: CoffeeShop -> bool): (r: Option<CoffeeShop>)
    ensures r.Some? ==> r.value in shops && p(r.value)
    ensures r.Some? ==> exists i :: 0 <= i < |shops| && shops[i] == r.value && forall j :: 0 <= j < i ==> !p(shops[j])
    ensures r.None? <==> forall s :: s in shops ==> !p(s)
    decreases |shops|
  {
    if shops == [] then None
    else if p(shops[0]) then Some(shops[0])
    else FirstWhere(shops[1..], p)
  }

  /** The first shop whose location code is `code` (`findByCode`). */
  function FirstWithCode(shops: seq<CoffeeShop>, code: string): Option<CoffeeShop> {
    FirstWhere(shops, (s: CoffeeShop) => s.code == code)
  }

  /** A reply keyboard with one button per shop, by name, in list order. */
  function ShopButtons(shops: seq<CoffeeShop>): (r: seq<string>)
    ensures |r| == |shops| && forall i :: 0 <= i < |r| ==> r[i] == shops[i].name
    decreases |shops|
  {
    if shops == [] then [] else [shops[0].name] + ShopButtons(shops[1..])
  }

  /** The first shop of the list with exactly that name. */
  function FirstShopNamed(shops: seq<CoffeeShop>, name: string): Option<CoffeeShop> {
    FirstWhere(shops, (s: CoffeeShop) => s.name == name)
  }

  /** A name is on the shop keyboard iff some shop of the list carries it. */
  lemma ShopButtonsNames(shops: seq<CoffeeShop>, t: string)
    ensures t in ShopButtons(shops) <==> FirstShopNamed(shops, t).Some?
  {
    var b := ShopButtons(shops);
    if t in b {
      var i :| 0 <= i < |b| && b[i] == t;
      assert shops[i] in shops;
    }
    if FirstShopNamed(shops, t).Some? {
      var i :| 0 <= i < |shops| && shops[i] == FirstShopNamed(shops, t).value;
      assert b[i] == t;
    }
  }

  /**
   * The partial update of `updateCoffeeShop`: each absent (null) argument
   * keeps the shop's field, each present one overwrites it; the id never moves.
   */
  function Patched(s: CoffeeShop, name: Option<string>, address: Option<string>,
                   code: Option<string>, active: Option<bool>): (r: CoffeeShop)
  {
    CoffeeShop(
      s.id,
      if name.Some? then name.value else s.name,
      if address.Some? then address.value else s.address,
      if code.Some? then code.value else s.code,
      if active.Some? then active.value else s.active)
  }

  /** An update with every argument null rewrites the shop as it was. */
  lemma PatchedNothing(s: CoffeeShop)
    ensures Patched(s, None, None, None, None) == s
  {
  }

  /** Deactivation is the partial update that sets only the active flag to false. */
  lemma DeactivateIsPatch(s: CoffeeShop)
    ensures Patched(s, None, None, None, Some(false)) == s.(active := false)
    ensures Patched(s, None, None, None, Some(false)).active == false
  {
  }

  /** Overwriting a field and then reading it gives the new value; the other fields keep theirs. */
  lemma PatchedFields(s: CoffeeShop, name: Option<string>, address: Option<string>,
                      code: Option<string>, active: Option<bool>)
    ensures var r := Patched(s, name, address, code, active);
      && r.id == s.id
      && (name.None? ==> r.name == s.name) && (name.Some? ==> r.name == name.value)
      && (address.None? ==> r.address == s.address) && (address.Some? ==> r.address == address.value)
      && (code.None? ==> r.code == s.code) && (code.Some? ==> r.code == code.value)
      && (active.None? ==> r.active == s.active) && (active.Some? ==> r.active == active.value)
  {
  }

  class CoffeeShopService {
    /** The repository's rows, in insertion order. */
    var shops: seq<CoffeeShop>
    /** The id the next created shop receives. */
    var nextId: nat

    /** Ids are distinct and all below the counter. */
    ghost predicate Valid()
      reads this
    {
      && (forall i :: 0 <= i < |shops| ==> shops[i].id < nextId)
      && (forall i, j :: 0 <= i < j < |shops| ==> shops[i].id != shops[j].id)
    }

    constructor ()
      ensures Valid() && shops == [] && nextId == 1
    {
      shops := [];
      nextId := 1;
    }

    /** `getAllActiveShops`: exactly the shops whose active flag is set, in table order. */
    function GetAllActiveShops(): (r: seq<CoffeeShop>)
      reads this
      ensures forall s :: s in r <==> s in shops && s.active
    {
      Seqs.Filter(shops, (s: CoffeeShop) => s.active)
    }

    /** `getShopByCode`: present iff some shop has that code. */
    function GetShopByCode(code: string): (r: Option<CoffeeShop>)
      reads this
      ensures r.Some? ==> r.value in shops && r.value.code == code
      ensures r.None? <==> forall s :: s in shops ==> s.code != code
    {
      FirstWithCode(shops, code)
    }

    /** `findById`: present iff some shop has that id. */
    function FindById(id: int): (r: Option<CoffeeShop>)
      reads this
      ensures r.Some? ==> r.value in shops && r.value.id == id
      ensures r.None? <==> forall s :: s in shops ==> s.id != id
    {
      match IndexOfId(shops, id)
      case None => None
      case Some(i) => Some(shops[i])
    }

    /** `createCoffeeShop`: a new active shop with the given name, address and code and a fresh id. */
    method CreateCoffeeShop(name: string, address: string, code: string) returns (s: CoffeeShop)
      requires Valid()
      modifies this
      ensures Valid()
      ensures s == CoffeeShop(old(nextId), name, address, code, true)
      ensures forall t :: t in old(shops) ==> t.id != s.id
      ensures shops == old(shops) + [s] && nextId == old(nextId) + 1
    {
      s := CoffeeShop(nextId, name, address, code, true);
      shops := shops + [s];
      nextId := nextId + 1;
    }

    /**
     * `updateCoffeeShop`: the shop with that id is patched and returned; an
     * unknown id returns None and changes nothing.
     */
    method UpdateCoffeeShop(id: int, name: Option<string>, address: Option<string>,
                            code: Option<string>, active: Option<bool>) returns (r: Option<CoffeeShop>)
      requires Valid()
      modifies this
      ensures Valid() && nextId == old(nextId)
      ensures old(IndexOfId(shops, id)).None? ==> r.None? && shops == old(shops)
      ensures old(IndexOfId(shops, id)).Some? ==>
        var i := old(IndexOfId(shops, id)).value;
        && r == Some(Patched(old(shops)[i], name, address, code, active))
        && shops == old(shops)[i := r.value]
    {
      match IndexOfId(shops, id)
      case None =>
        r := None;
      case Some(i) =>
        var patched := Patched(shops[i], name, address, code, active);
        shops := shops[i := patched];
        r := Some(patched);
    }

    /**
     * `deactivateShop`: the shop with that id loses its active flag and nothing
     * else; an unknown id returns None and changes nothing.
     */
    method DeactivateShop(id: int) returns (r: Option<CoffeeShop>)
      requires Valid()
      modifies this
      ensures Valid() && nextId == old(nextId)
      ensures old(IndexOfId(shops, id)).None? ==> r.None? && shops == old(shops)
      ensures old(IndexOfId(shops, id)).Some? ==>
        var i := old(IndexOfId(shops, id)).value;
        && r == Some(old(shops)[i].(active := false))
        && shops == old(shops)[i := r.value]
    {
      match IndexOfId(shops, id)
      case None =>
        r := None;
      case Some(i) =>
        var off := shops[i].(active := false);
        shops := shops[i := off];
        r := Some(off);
    }
  }
}
