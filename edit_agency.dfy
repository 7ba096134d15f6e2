/**
 * The agency editor (`EditAgencyModal`): the chefs it offers, the name and
 * chef loaded from the stored agency (or cleared for a new one), and the
 * agency record it saves. The user dictionary is given as its values in
 * order, each keyed by its id.
 */
module EditAgency {
  import opened Wrappers
  import opened Js
  import opened Lists
  import opened Domain

  /** A chef is available when unassigned or already assigned to this agency. */
  predicate IsAvailableChef(agencyId: Option<string>, u: User) {
    u.ChefAgence? && (!Present(u.agencyId) || u.agencyId == agencyId)
  }

  /** `availableChefs` */
  function AvailableChefs(users: seq<User>, agencyId: Option<string>): seq<User> {
    Filter(users, u => IsAvailableChef(agencyId, u))
  }

  /** Exactly the chefs of the dictionary with no agency or with this one are offered. */
  lemma AvailableChefsExact(users: seq<User>, agencyId: Option<string>, u: User)
    ensures u in AvailableChefs(users, agencyId) <==>
      u in users && RoleOf(u) == RoleChefAgence && (!Present(u.agencyId) || u.agencyId == agencyId)
  {
    FilterMember(users, u => IsAvailableChef(agencyId, u), u);
  }

  predicate HasUser(users: seq<User>, id: string) {
    exists u :: u in users && u.id == id
  }

  /**
   * The values of the chef select, after its disabled placeholder: the
   * available chefs, then the current chef when it is set, known and not
   * already listed.
   */
  function ChefOptions(users: seq<User>, agencyId: Option<string>, chefId: Option<string>): (r: seq<string>)
    ensures forall i :: 0 <= i < |r| ==> HasUser(users, r[i])
    ensures UserIds(AvailableChefs(users, agencyId)) <= r
    ensures |r| <= |AvailableChefs(users, agencyId)| + 1
    ensures forall x :: x in r <==>
      (exists u :: u in users && IsAvailableChef(agencyId, u) && u.id == x)
      || (Present(chefId) && x == chefId.value && HasUser(users, x))
  {
    var available := AvailableChefs(users, agencyId);
    var ids := UserIds(available);
    assert forall i :: 0 <= i < |ids| ==> HasUser(users, ids[i]) by {
      forall i | 0 <= i < |ids| ensures HasUser(users, ids[i]) {
        FilterMember(users, u => IsAvailableChef(agencyId, u), available[i]);
        assert available[i] in available;
      }
    }
    assert forall x :: x in ids <==> exists u :: u in users && IsAvailableChef(agencyId, u) && u.id == x by {
      forall x ensures x in ids <==> exists u :: u in users && IsAvailableChef(agencyId, u) && u.id == x {
        if x in ids {
          var i :| 0 <= i < |ids| && ids[i] == x;
          FilterMember(users, u => IsAvailableChef(agencyId, u), available[i]);
          assert available[i] in available;
        }
        if exists u :: u in users && IsAvailableChef(agencyId, u) && u.id == x {
          var u :| u in users && IsAvailableChef(agencyId, u) && u.id == x;
          FilterMember(users, u => IsAvailableChef(agencyId, u), u);
          var i :| 0 <= i < |available| && available[i] == u;
          assert ids[i] == x;
        }
      }
    }
    if Present(chefId) && chefId.value !in ids && HasUser(users, chefId.value) then ids + [chefId.value] else ids
  }

  /** The agency's current chef stays selectable even when it is not available. */
  lemma CurrentChefOffered(users: seq<User>, agencyId: Option<string>, chefId: Option<string>)
    requires Present(chefId) && HasUser(users, chefId.value)
    ensures chefId.value in ChefOptions(users, agencyId, chefId)
  {
  }

  /** `Date.now().toString().slice(-3)` */
  function LastThreeDigits(now: nat): (r: string)
    ensures 1 <= |r| <= 3 && AllDigits(r)
  {
    var s := NatToString(now);
    Slice(s, -3, |s|)
  }

  /** For a clock past 99 ms the suffix is the clock's value modulo 1000, written with three digits. */
  lemma LastThreeDigitsValue(now: nat)
    requires now >= 100
    ensures |LastThreeDigits(now)| == 3 && ParseDigits(LastThreeDigits(now)) == now % 1000
  {
    var x, y, z := now / 100 % 10, now / 10 % 10, now % 10;
    var head := LastDigitsSplit(now);
    assert LastThreeDigits(now) == [DigitChar(x), DigitChar(y), DigitChar(z)];
    ParseThree(x, y, z);
    ThreeDigitsOfMod(now);
  }

  /** A rendering of at least three digits ends with the hundreds, tens and units digits. */
  lemma LastDigitsSplit(now: nat) returns (head: string)
    requires now >= 100
    ensures NatToString(now) == head + [DigitChar(now / 100 % 10), DigitChar(now / 10 % 10), DigitChar(now % 10)]
  {
    head := if now / 100 < 10 then [] else NatToString(now / 1000);
    assert NatToString(now / 100) == head + [DigitChar(now / 100 % 10)] by {
      if now / 100 >= 10 { assert now / 100 / 10 == now / 1000; }
    }
    assert now / 10 / 10 == now / 100;
  }

  /** Three digits read back as their decimal value. */
  lemma ParseThree(x: nat, y: nat, z: nat)
    requires x < 10 && y < 10 && z < 10
    ensures ParseDigits([DigitChar(x), DigitChar(y), DigitChar(z)]) == (x * 10 + y) * 10 + z
  {
    var a, b, c := DigitChar(x), DigitChar(y), DigitChar(z);
    assert ParseDigits([a]) == x by {
      assert [a][..0] == [];
    }
    assert ParseDigits([a, b]) == x * 10 + y by {
      assert [a, b][..1] == [a];
    }
    assert [a, b, c][..2] == [a, b];
  }

  /** The hundreds, tens and units digits make up the value modulo 1000. */
  lemma ThreeDigitsOfMod(now: nat)
    ensures (now / 100 % 10 * 10 + now / 10 % 10) * 10 + now % 10 == now % 1000
  {
    var u, n1 := now % 10, now / 10;
    var t, n2 := n1 % 10, n1 / 10;
    var h, n3 := n2 % 10, n2 / 10;
    assert now == n2 * 100 + (t * 10 + u);
    DivMod100(now, n2, t * 10 + u);
    assert now == n3 * 1000 + (h * 100 + t * 10 + u);
    DivMod1000(now, n3, h * 100 + t * 10 + u);
  }

  lemma DivMod100(x: int, q: int, r: int)
    requires x == q * 100 + r && 0 <= r < 100
    ensures x / 100 == q && x % 100 == r
  {
  }

  lemma DivMod1000(x: int, q: int, r: int)
    requires x == q * 1000 + r && 0 <= r < 1000
    ensures x % 1000 == r
  {
  }

  /** `finalAgencyData`: the given id when editing, otherwise "AG" and the clock's last digits. */
  function SavedAgency(agencyId: Option<string>, name: string, chefId: Option<string>, now: nat): (r: Agency)
    ensures r.name == name && r.chefId == chefId
    ensures Present(agencyId) ==> r.id == agencyId.value
    ensures !Present(agencyId) ==> r.id == "AG" + LastThreeDigits(now)
  {
    Agency(if Present(agencyId) then agencyId.value else "AG" + LastThreeDigits(now), name, chefId)
  }

  class AgencyEditor {
    const users: seq<User>
    /** The stored agencies the editor looks the edited one up in. */
    const agencies: seq<Agency>
    var isOpen: bool
    var agencyId: Option<string>
    var name: string
    var chefId: Option<string>

    constructor (users: seq<User>, agencies: seq<Agency>)
      ensures this.users == users && this.agencies == agencies
      ensures !isOpen && agencyId.None? && name == "" && chefId == Some("")
    {
      this.users, this.agencies := users, agencies;
      isOpen, agencyId, name, chefId := false, None, "", Some("");
    }

    /**
     * A render with the props `isOpen` and `agencyId`. The load/reset effect
     * runs only when one of them differs from the previous render: an open
     * editor with an id loads that agency's name and chef (nothing changes
     * when no agency has the id); an open editor without one clears both.
     * The same props again leave the typed name and chef alone.
     */
    method PropsChange(open: bool, id: Option<string>)
      modifies this
      ensures isOpen == open && agencyId == id
      ensures open == old(isOpen) && id == old(agencyId) ==> name == old(name) && chefId == old(chefId)
      ensures var found := Find(agencies, (a: Agency) => Present(id) && a.id == id.value);
        if (open != old(isOpen) || id != old(agencyId)) && open && Present(id) && found.Some? then
          name == found.value.name && chefId == found.value.chefId
        else if (open != old(isOpen) || id != old(agencyId)) && open && !Present(id) then name == "" && chefId == Some("")
        else name == old(name) && chefId == old(chefId)
    {
      var depsChanged := open != isOpen || id != agencyId;
      isOpen, agencyId := open, id;
      if depsChanged && open {
        if Present(id) {
          var found := Find(agencies, (a: Agency) => Present(id) && a.id == id.value);
          if found.Some? {
            name, chefId := found.value.name, found.value.chefId;
          }
        } else {
          name, chefId := "", Some("");
        }
      }
    }

    method NameChange(text: string)
      modifies this
      ensures name == text && chefId == old(chefId) && agencyId == old(agencyId) && isOpen == old(isOpen)
    {
      name := text;
    }

    method ChefChange(value: string)
      modifies this
      ensures chefId == Some(value) && name == old(name) && agencyId == old(agencyId) && isOpen == old(isOpen)
    {
      chefId := Some(value);
    }

    /** `handleSubmit`: the record goes to `onSave`, then the editor closes. */
    method Submit(now: nat) returns (saved: Agency, closes: bool)
      ensures saved == SavedAgency(agencyId, name, chefId, now) && closes
    {
      saved := SavedAgency(agencyId, name, chefId, now);
      closes := true;
    }
  }
}
