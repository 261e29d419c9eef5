/**
 * A user's address book (src/controllers/address.controller.js): the
 * `addresses` list of one user document, each address carrying the flags
 * `isDefaultShipping` and `isDefaultBilling`. The handlers change the list in
 * place (`$push`, `$pull`, positional `$set`), so the book is an object whose
 * methods update its `addresses` field.
 */
module Addresses {
  import opened Common

  datatype Address = Address(
    id: Id, name: string, phone: string, region: string, district: string, thana: string,
    building: string, colony: string, address: string, addressLabel: string,
    isDefaultShipping: bool, isDefaultBilling: bool)

  /** The body of an add or update request; an absent field is the empty string. */
  datatype AddressInput = AddressInput(
    name: string, phone: string, region: string, district: string, thana: string,
    building: string, colony: string, address: string, addressLabel: string)

  /** The two default flags an address can carry. */
  datatype DefaultKind = Shipping | Billing

  function OtherKind(kind: DefaultKind): DefaultKind {
    if kind == Shipping then Billing else Shipping
  }

  predicate IsDefault(a: Address, kind: DefaultKind) {
    if kind == Shipping then a.isDefaultShipping else a.isDefaultBilling
  }

  /** Sets one default flag and leaves everything else, the other flag included, as it is. */
  function WithDefault(a: Address, kind: DefaultKind, flag: bool): (b: Address)
    ensures IsDefault(b, kind) == flag
    ensures IsDefault(b, OtherKind(kind)) == IsDefault(a, OtherKind(kind))
    ensures b.id == a.id
  {
    if kind == Shipping then a.(isDefaultShipping := flag) else a.(isDefaultBilling := flag)
  }

  function DefaultFor(kind: DefaultKind): Address -> int {
    (a: Address) => if IsDefault(a, kind) then 1 else 0
  }

  /** How many addresses of `s` carry the `kind` flag. */
  function DefaultCount(s: seq<Address>, kind: DefaultKind): int {
    SumOf(s, DefaultFor(kind))
  }

  function Ids(s: seq<Address>): set<Id> {
    set i | 0 <= i < |s| :: s[i].id
  }

  ghost predicate DistinctIds(s: seq<Address>) {
    forall i, j :: 0 <= i < j < |s| ==> s[i].id != s[j].id
  }

  /** The invariant of the book: a non-empty book has exactly one default address of each kind. */
  ghost predicate OneDefaultEach(s: seq<Address>) {
    |s| > 0 ==> DefaultCount(s, Shipping) == 1 && DefaultCount(s, Billing) == 1
  }

  /** The position the positional operator `addresses.$` selects: the first address with `id`. */
  function IndexOfId(s: seq<Address>, id: Id): (i: nat)
    ensures i <= |s|
    ensures i < |s| <==> id in Ids(s)
    ensures i < |s| ==> s[i].id == id
    ensures forall j :: 0 <= j < i ==> s[j].id != id
  {
    FirstIndex(s, (a: Address) => a.id == id)
  }

  /** `$pull: {addresses: {_id: id}}`: drops every address with that id. */
  function WithoutId(s: seq<Address>, id: Id): (r: seq<Address>)
    ensures |r| <= |s|
    ensures id !in Ids(r)
  {
    if s == [] then []
    else if s[0].id == id then WithoutId(s[1..], id)
    else [s[0]] + WithoutId(s[1..], id)
  }

  /** Name, phone, region, district, thana and address must all be present (truthy). */
  predicate HasRequiredFields(input: AddressInput) {
    input.name != "" && input.phone != "" && input.region != "" &&
    input.district != "" && input.thana != "" && input.address != ""
  }

  /** `label || "HOME"`. */
  function LabelOrHome(givenLabel: string): (r: string)
    ensures r != ""
    ensures givenLabel != "" ==> r == givenLabel
  {
    if givenLabel == "" then "HOME" else givenLabel
  }

  /**
   * The address `addUserAddresses` stores: a missing label becomes "HOME", and
   * the first address of a book is the default for shipping and for billing.
   */
  function NewAddress(id: Id, input: AddressInput, first: bool): (a: Address)
    ensures a.id == id && a.addressLabel == LabelOrHome(input.addressLabel)
    ensures IsDefault(a, Shipping) == first && IsDefault(a, Billing) == first
    ensures a.name == input.name && a.phone == input.phone && a.address == input.address
    ensures a.region == input.region && a.district == input.district && a.thana == input.thana
    ensures a.building == input.building && a.colony == input.colony
  {
    Address(id, input.name, input.phone, input.region, input.district, input.thana,
            input.building, input.colony, input.address, LabelOrHome(input.addressLabel), first, first)
  }

  /**
   * The positional `$set` of `updateUserAddress`: overwrites the editable
   * fields and keeps the id, the colony and both default flags.
   */
  function Patch(a: Address, input: AddressInput): (b: Address)
    ensures b.id == a.id && b.colony == a.colony
    ensures b.isDefaultShipping == a.isDefaultShipping && b.isDefaultBilling == a.isDefaultBilling
    ensures b.addressLabel == LabelOrHome(input.addressLabel) && b.building == input.building
    ensures b.name == input.name && b.phone == input.phone && b.region == input.region
    ensures b.district == input.district && b.thana == input.thana && b.address == input.address
  {
    a.(name := input.name, phone := input.phone, region := input.region, district := input.district,
       thana := input.thana, building := input.building, address := input.address,
       addressLabel := LabelOrHome(input.addressLabel))
  }

  /** A count of one names the single address that carries the flag. */
  lemma {:induction false} TheDefault(s: seq<Address>, kind: DefaultKind) returns (i: nat)
    requires DefaultCount(s, kind) == 1
    ensures i < |s| && IsDefault(s[i], kind)
    ensures forall j :: 0 <= j < |s| && j != i ==> !IsDefault(s[j], kind)
  {
    SumOfNonNegative(s[1..], DefaultFor(kind));
    if IsDefault(s[0], kind) {
      i := 0;
      NoDefaults(s[1..], kind);
      forall j | 1 <= j < |s| ensures !IsDefault(s[j], kind) {
        assert s[j] == s[1..][j - 1];
      }
    } else {
      var k := TheDefault(s[1..], kind);
      i := k + 1;
      forall j | 1 <= j < |s| && j != i ensures !IsDefault(s[j], kind) {
        assert s[j] == s[1..][j - 1];
      }
    }
  }

  /** Conversely, a flag set on exactly one address makes a count of one. */
  lemma {:induction false} OnlyChosenIsDefault(s: seq<Address>, kind: DefaultKind, k: nat)
    requires k < |s|
    requires forall j :: 0 <= j < |s| ==> (IsDefault(s[j], kind) <==> j == k)
    ensures DefaultCount(s, kind) == 1
  {
    if k == 0 {
      forall j | 0 <= j < |s[1..]| ensures !IsDefault(s[1..][j], kind) {
        assert s[1..][j] == s[j + 1];
      }
      NoDefaults(s[1..], kind);
    } else {
      forall j | 0 <= j < |s[1..]| ensures IsDefault(s[1..][j], kind) <==> j == k - 1 {
        assert s[1..][j] == s[j + 1];
      }
      OnlyChosenIsDefault(s[1..], kind, k - 1);
    }
  }

  /** A count of zero means no address carries the flag. */
  lemma {:induction false} NoDefaults(s: seq<Address>, kind: DefaultKind)
    ensures DefaultCount(s, kind) == 0 <==> forall j :: 0 <= j < |s| ==> !IsDefault(s[j], kind)
  {
    if s != [] {
      NoDefaults(s[1..], kind);
      SumOfNonNegative(s[1..], DefaultFor(kind));
      assert forall j :: 1 <= j < |s| ==> s[j] == s[1..][j - 1];
    }
  }

  /** With distinct ids, `$pull` removes exactly the one position holding the id. */
  lemma {:induction false} WithoutIdRemovesOne(s: seq<Address>, id: Id, i: nat)
    requires i < |s| && s[i].id == id
    requires forall j :: 0 <= j < |s| && j != i ==> s[j].id != id
    ensures WithoutId(s, id) == s[..i] + s[i + 1..]
  {
    forall j | 0 <= j < |s[1..]| ensures s[1..][j] == s[j + 1] { }
    if i == 0 {
      WithoutAbsentId(s[1..], id);
    } else {
      WithoutIdRemovesOne(s[1..], id, i - 1);
      assert s[..i] + s[i + 1..] == [s[0]] + (s[1..][..i - 1] + s[1..][i..]);
    }
  }

  lemma {:induction false} WithoutAbsentId(s: seq<Address>, id: Id)
    requires forall j :: 0 <= j < |s| ==> s[j].id != id
    ensures WithoutId(s, id) == s
  {
    if s != [] {
      forall j | 0 <= j < |s[1..]| ensures s[1..][j] == s[j + 1] { }
      WithoutAbsentId(s[1..], id);
    }
  }

  /** Lists with the same ids position by position have the same id set and the same distinctness. */
  lemma SameIds(s: seq<Address>, t: seq<Address>)
    requires |s| == |t|
    requires forall j :: 0 <= j < |s| ==> s[j].id == t[j].id
    ensures Ids(s) == Ids(t)
    ensures DistinctIds(s) <==> DistinctIds(t)
  {
    forall x | x in Ids(s) ensures x in Ids(t) {
      var j :| 0 <= j < |s| && s[j].id == x;
      assert t[j].id == x;
    }
    forall x | x in Ids(t) ensures x in Ids(s) {
      var j :| 0 <= j < |t| && t[j].id == x;
      assert s[j].id == x;
    }
  }

  /**
   * Pulling the address at `i` out of a valid book keeps the other ids
   * distinct and drops exactly its flags from the counts.
   */
  lemma PullOne(s: seq<Address>, i: nat)
    requires DistinctIds(s) && OneDefaultEach(s) && i < |s|
    ensures var rest := WithoutId(s, s[i].id);
            && rest == s[..i] + s[i + 1..]
            && DistinctIds(rest)
            && Ids(rest) == Ids(s) - {s[i].id}
            && DefaultCount(rest, Shipping) == (if s[i].isDefaultShipping then 0 else 1)
            && DefaultCount(rest, Billing) == (if s[i].isDefaultBilling then 0 else 1)
  {
    assert forall j :: 0 <= j < |s| && j != i ==> s[j].id != s[i].id by {
      forall j | 0 <= j < |s| && j != i ensures s[j].id != s[i].id {
        if j < i { assert s[j].id != s[i].id; } else { assert s[i].id != s[j].id; }
      }
    }
    WithoutIdRemovesOne(s, s[i].id, i);
    RemoveIndexIds(s, i);
    CountWithoutIndex(s, i, Shipping);
    CountWithoutIndex(s, i, Billing);
  }

  lemma RemoveIndexIds(s: seq<Address>, i: nat)
    requires DistinctIds(s) && i < |s|
    ensures DistinctIds(s[..i] + s[i + 1..])
    ensures Ids(s[..i] + s[i + 1..]) == Ids(s) - {s[i].id}
  {
    var rest := s[..i] + s[i + 1..];
    assert forall j :: 0 <= j < |rest| ==> rest[j] == s[if j < i then j else j + 1];
    forall x | x in Ids(s) - {s[i].id} ensures x in Ids(rest) {
      var j :| 0 <= j < |s| && s[j].id == x;
      assert rest[if j < i then j else j - 1] == s[j];
    }
  }

  lemma CountWithoutIndex(s: seq<Address>, i: nat, kind: DefaultKind)
    requires i < |s|
    ensures DefaultCount(s[..i] + s[i + 1..], kind) == DefaultCount(s, kind) - DefaultFor(kind)(s[i])
  {
    var f := DefaultFor(kind);
    assert s == s[..i] + [s[i]] + s[i + 1..];
    SumOfAppend(s[..i] + [s[i]], s[i + 1..], f);
    SumOfSnoc(s[..i], s[i], f);
    SumOfAppend(s[..i], s[i + 1..], f);
  }

  /** The first remaining address after a delete, holding the flags the removed one gave up. */
  function TakeOverDefaults(first: Address, removed: Address): (a: Address)
    ensures a.id == first.id
    ensures IsDefault(a, Shipping) == (IsDefault(first, Shipping) || IsDefault(removed, Shipping))
    ensures IsDefault(a, Billing) == (IsDefault(first, Billing) || IsDefault(removed, Billing))
  {
    first.(isDefaultShipping := first.isDefaultShipping || removed.isDefaultShipping,
           isDefaultBilling := first.isDefaultBilling || removed.isDefaultBilling)
  }

  /** Handing the removed address's flags to the first remaining one restores one default of each kind. */
  lemma HandOver(rest: seq<Address>, removed: Address)
    requires rest != [] && DistinctIds(rest)
    requires DefaultCount(rest, Shipping) == (if removed.isDefaultShipping then 0 else 1)
    requires DefaultCount(rest, Billing) == (if removed.isDefaultBilling then 0 else 1)
    ensures var after := rest[0 := TakeOverDefaults(rest[0], removed)];
            DistinctIds(after) && OneDefaultEach(after) && Ids(after) == Ids(rest)
  {
    var first := TakeOverDefaults(rest[0], removed);
    var after := rest[0 := first];
    SumOfUpdate(rest, 0, first, DefaultFor(Shipping));
    SumOfUpdate(rest, 0, first, DefaultFor(Billing));
    SumOfBoundsTerm(rest, 0, DefaultFor(Shipping));
    SumOfBoundsTerm(rest, 0, DefaultFor(Billing));
    SameIds(after, rest);
  }

  class AddressBook {
    var addresses: seq<Address>

    ghost predicate Valid()
      reads this
    {
      DistinctIds(addresses) && OneDefaultEach(addresses)
    }

    /** A user without addresses (`user.addresses` missing reads as the empty list). */
    constructor ()
      ensures Valid() && addresses == []
    {
      addresses := [];
    }

    /** `getUserAddresses`. */
    function GetUserAddresses(): (r: seq<Address>)
      reads this
      requires Valid()
      ensures OneDefaultEach(r) && DistinctIds(r)
    {
      addresses
    }

    /**
     * `addUserAddresses`: validates, then appends the new address; the first
     * address of the book becomes the default of both kinds. `newId` is the
     * freshly generated ObjectId.
     */
    method AddUserAddress(input: AddressInput, newId: Id) returns (r: Result<string>)
      requires Valid()
      requires newId !in Ids(addresses)
      modifies this
      ensures Valid()
      ensures !HasRequiredFields(input) ==>
                r == Err(Failure(400, "All required fields must be provided")) && addresses == old(addresses)
      ensures HasRequiredFields(input) ==>
                && r == Ok("Address added successfully")
                && addresses == old(addresses) + [NewAddress(newId, input, old(addresses) == [])]
    {
      if !HasRequiredFields(input) {
        return Err(Failure(400, "All required fields must be provided"));
      }
      var addressToAdd := NewAddress(newId, input, addresses == []);
      ghost var before := addresses;
      addresses := addresses + [addressToAdd];
      SumOfSnoc(before, addressToAdd, DefaultFor(Shipping));
      SumOfSnoc(before, addressToAdd, DefaultFor(Billing));
      if before == [] {
        assert DefaultCount(before, Shipping) == 0 && DefaultCount(before, Billing) == 0;
      }
      assert forall j :: 0 <= j < |before| ==> addresses[j] == before[j];
      assert newId !in Ids(before);
      forall i, j | 0 <= i < j < |addresses| ensures addresses[i].id != addresses[j].id {
        if j == |before| {
          assert addresses[i].id in Ids(before);
        }
      }
      r := Ok("Address added successfully");
    }

    /**
     * `updateUserAddress`: validates, finds the address and overwrites its
     * editable fields. A write that changes nothing is reported as a failure,
     * as MongoDB reports no modified document.
     */
    method UpdateUserAddress(id: Id, input: AddressInput) returns (r: Result<string>)
      requires Valid()
      modifies this
      ensures Valid()
      ensures id == "" ==> r == Err(Failure(400, "Address ID is required")) && addresses == old(addresses)
      ensures id != "" && !HasRequiredFields(input) ==>
                r == Err(Failure(400, "All required fields must be provided")) && addresses == old(addresses)
      ensures id != "" && HasRequiredFields(input) && id !in Ids(old(addresses)) ==>
                r == Err(Failure(404, "Address not found")) && addresses == old(addresses)
      ensures id != "" && HasRequiredFields(input) && id in Ids(old(addresses)) ==>
                var i := IndexOfId(old(addresses), id);
                var patched := Patch(old(addresses)[i], input);
                if patched == old(addresses)[i] then
                  r == Err(Failure(400, "Failed to update address")) && addresses == old(addresses)
                else
                  r == Ok("Address updated successfully") && addresses == old(addresses)[i := patched]
    {
      if id == "" {
        return Err(Failure(400, "Address ID is required"));
      }
      if !HasRequiredFields(input) {
        return Err(Failure(400, "All required fields must be provided"));
      }
      if id !in Ids(addresses) {
        return Err(Failure(404, "Address not found"));
      }
      var i := IndexOfId(addresses, id);
      var patched := Patch(addresses[i], input);
      if patched == addresses[i] {
        return Err(Failure(400, "Failed to update address"));
      }
      ghost var before := addresses;
      addresses := addresses[i := patched];
      SumOfUpdate(before, i, patched, DefaultFor(Shipping));
      SumOfUpdate(before, i, patched, DefaultFor(Billing));
      assert forall j :: 0 <= j < |addresses| ==> addresses[j].id == before[j].id;
      r := Ok("Address updated successfully");
    }

    /**
     * `deleteUserAddress`: pulls the address; when it carried a default flag
     * and addresses remain, the address now first receives that flag.
     */
    method DeleteUserAddress(id: Id) returns (r: Result<string>)
      requires Valid()
      modifies this
      ensures Valid()
      ensures id == "" ==> r == Err(Failure(400, "Address ID is required")) && addresses == old(addresses)
      ensures id != "" && id !in Ids(old(addresses)) ==>
                r == Err(Failure(404, "Address not found")) && addresses == old(addresses)
      ensures id != "" && id in Ids(old(addresses)) ==>
                var removed := old(addresses)[IndexOfId(old(addresses), id)];
                var rest := WithoutId(old(addresses), id);
                && r == Ok("Address deleted successfully")
                && |rest| == |old(addresses)| - 1
                && Ids(addresses) == Ids(old(addresses)) - {id}
                && addresses == (if rest == [] then [] else rest[0 := TakeOverDefaults(rest[0], removed)])
    {
      if id == "" {
        return Err(Failure(400, "Address ID is required"));
      }
      if id !in Ids(addresses) {
        return Err(Failure(404, "Address not found"));
      }
      var i := IndexOfId(addresses, id);
      var addressToDelete := addresses[i];
      PullOne(addresses, i);
      addresses := WithoutId(addresses, id);
      if |addresses| > 0 {
        HandOver(addresses, addressToDelete);
        if addressToDelete.isDefaultShipping || addressToDelete.isDefaultBilling {
          addresses := addresses[0 := TakeOverDefaults(addresses[0], addressToDelete)];
        } else {
          assert addresses[0 := TakeOverDefaults(addresses[0], addressToDelete)] == addresses;
        }
      }
      r := Ok("Address deleted successfully");
    }

    /** `setDefaultShippingAddress`. */
    method SetDefaultShippingAddress(id: Id) returns (r: Result<string>)
      requires Valid()
      modifies this
      ensures Valid()
      ensures id == "" ==> r == Err(Failure(400, "Address ID is required")) && addresses == old(addresses)
      ensures id != "" && id !in Ids(old(addresses)) ==>
                r == Err(Failure(404, "Address not found")) && addresses == old(addresses)
      ensures id != "" && id in Ids(old(addresses)) ==>
                && r == Ok("Default shipping address updated successfully")
                && |addresses| == |old(addresses)|
                && forall i :: 0 <= i < |addresses| ==>
                     && addresses[i].isDefaultShipping == (addresses[i].id == id)
                     && addresses[i] == old(addresses)[i].(isDefaultShipping := addresses[i].isDefaultShipping)
    {
      r := SetDefault(id, Shipping);
    }

    /** `setDefaultBillingAddress`. */
    method SetDefaultBillingAddress(id: Id) returns (r: Result<string>)
      requires Valid()
      modifies this
      ensures Valid()
      ensures id == "" ==> r == Err(Failure(400, "Address ID is required")) && addresses == old(addresses)
      ensures id != "" && id !in Ids(old(addresses)) ==>
                r == Err(Failure(404, "Address not found")) && addresses == old(addresses)
      ensures id != "" && id in Ids(old(addresses)) ==>
                && r == Ok("Default billing address updated successfully")
                && |addresses| == |old(addresses)|
                && forall i :: 0 <= i < |addresses| ==>
                     && addresses[i].isDefaultBilling == (addresses[i].id == id)
                     && addresses[i] == old(addresses)[i].(isDefaultBilling := addresses[i].isDefaultBilling)
    {
      r := SetDefault(id, Billing);
    }

    /** `addresses.$[]`: clears the flag on every address, leaving everything else as it is. */
    method ClearDefault(kind: DefaultKind)
      modifies this
      ensures |addresses| == |old(addresses)|
      ensures forall j :: 0 <= j < |addresses| ==> addresses[j] == WithDefault(old(addresses)[j], kind, false)
    {
      var i := 0;
      while i < |addresses|
        invariant 0 <= i <= |addresses| == |old(addresses)|
        invariant forall j :: 0 <= j < i ==> addresses[j] == WithDefault(old(addresses)[j], kind, false)
        invariant forall j :: i <= j < |addresses| ==> addresses[j] == old(addresses)[j]
      {
        addresses := addresses[i := WithDefault(addresses[i], kind, false)];
        i := i + 1;
      }
    }

    /** Clears the flag on every address (`addresses.$[]`), then sets it on the chosen one. */
    method SetDefault(id: Id, kind: DefaultKind) returns (r: Result<string>)
      requires Valid()
      modifies this
      ensures Valid()
      ensures id == "" ==> r == Err(Failure(400, "Address ID is required")) && addresses == old(addresses)
      ensures id != "" && id !in Ids(old(addresses)) ==>
                r == Err(Failure(404, "Address not found")) && addresses == old(addresses)
      ensures id != "" && id in Ids(old(addresses)) ==>
                && r == Ok(if kind == Shipping then "Default shipping address updated successfully"
                           else "Default billing address updated successfully")
                && |addresses| == |old(addresses)|
                && forall i :: 0 <= i < |addresses| ==>
                     addresses[i] == WithDefault(old(addresses)[i], kind, old(addresses)[i].id == id)
    {
      if id == "" {
        return Err(Failure(400, "Address ID is required"));
      }
      if id !in Ids(addresses) {
        return Err(Failure(404, "Address not found"));
      }
      var chosen := IndexOfId(addresses, id);
      ClearDefault(kind);
      addresses := addresses[chosen := WithDefault(addresses[chosen], kind, true)];
      assert forall j :: 0 <= j < |addresses| ==> addresses[j].id == old(addresses)[j].id;
      forall j | 0 <= j < |addresses|
        ensures addresses[j] == WithDefault(old(addresses)[j], kind, old(addresses)[j].id == id)
      {
        if j != chosen {
          assert old(addresses)[j].id != id;
        }
      }
      OnlyChosenIsDefault(addresses, kind, chosen);
      assert DefaultCount(addresses, OtherKind(kind)) == DefaultCount(old(addresses), OtherKind(kind)) by {
        SumOfSameAcross(addresses, old(addresses), DefaultFor(OtherKind(kind)));
      }
      assert kind == Shipping || kind == Billing;
      r := Ok(if kind == Shipping then "Default shipping address updated successfully"
              else "Default billing address updated successfully");
    }
  }

  /** Two lists whose elements agree under `f` have the same sum. */
  lemma {:induction false} SumOfSameAcross(s: seq<Address>, t: seq<Address>, f: Address -> int)
    requires |s| == |t|
    requires forall j :: 0 <= j < |s| ==> f(s[j]) == f(t[j])
    ensures SumOf(s, f) == SumOf(t, f)
  {
    if s != [] {
      SumOfSameAcross(s[1..], t[1..], f);
    }
  }
}
