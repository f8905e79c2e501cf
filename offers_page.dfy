/** The coupons page (src/modules/offers/OffersPage.tsx): a list of
    coupons held as page state, whose `isActive` switch the user flips. */
module OffersPage {
  import opened Wrappers
  import opened Types

  /** mockCoupons */
  const MockCoupons: seq<Coupon> := [
    Coupon("coupon-1", "WELCOME20", "20% off for new users", Percentage, 20.0, 30.0, Some(15.0),
           1000, 456, AllTargets, None, "2024-01-01T00:00:00Z", "2024-12-31T23:59:59Z", true),
    Coupon("coupon-2", "FLAT10", "$10 off on orders above $50", Fixed, 10.0, 50.0, None,
           500, 234, AllTargets, None, "2024-03-01T00:00:00Z", "2024-06-30T23:59:59Z", true)
  ]

  /** The coupon with its switch flipped; nothing else about it changes. */
  function Flipped(c: Coupon): (d: Coupon)
    ensures d.isActive == !c.isActive
    ensures d.(isActive := c.isActive) == c
  {
    c.(isActive := !c.isActive)
  }

  /** The list `handleToggleActive(id)` installs: every coupon whose id is
      `id` flipped, every other coupon as it was, in the same order. */
  function ToggleActive(coupons: seq<Coupon>, id: string): (r: seq<Coupon>)
    ensures |r| == |coupons|
    ensures forall i :: 0 <= i < |coupons| && coupons[i].id == id ==> r[i] == Flipped(coupons[i])
    ensures forall i :: 0 <= i < |coupons| && coupons[i].id != id ==> r[i] == coupons[i]
    decreases |coupons|
  {
    if coupons == [] then []
    else [if coupons[0].id == id then Flipped(coupons[0]) else coupons[0]] + ToggleActive(coupons[1..], id)
  }

  /** The ids, and so the keys of the rows, never change. */
  lemma ToggleKeepsIds(coupons: seq<Coupon>, id: string)
    ensures forall i :: 0 <= i < |coupons| ==> ToggleActive(coupons, id)[i].id == coupons[i].id
  {
  }

  /** Flipping the same coupon twice restores the list. */
  lemma ToggleTwiceRestores(coupons: seq<Coupon>, id: string)
    ensures ToggleActive(ToggleActive(coupons, id), id) == coupons
  {
    var once := ToggleActive(coupons, id);
    var twice := ToggleActive(once, id);
    forall i | 0 <= i < |coupons|
      ensures twice[i] == coupons[i]
    {
      if coupons[i].id == id {
        assert once[i] == Flipped(coupons[i]);
        assert twice[i] == Flipped(once[i]);
      }
    }
  }

  /** An id no coupon carries leaves the list unchanged. */
  lemma ToggleUnknownIdIsNoOp(coupons: seq<Coupon>, id: string)
    requires forall i :: 0 <= i < |coupons| ==> coupons[i].id != id
    ensures ToggleActive(coupons, id) == coupons
  {
  }

  /** Flips for different ids are independent of each other's order. */
  lemma TogglesCommute(coupons: seq<Coupon>, id1: string, id2: string)
    ensures ToggleActive(ToggleActive(coupons, id1), id2) == ToggleActive(ToggleActive(coupons, id2), id1)
  {
    var a := ToggleActive(ToggleActive(coupons, id1), id2);
    var b := ToggleActive(ToggleActive(coupons, id2), id1);
    forall i | 0 <= i < |coupons|
      ensures a[i] == b[i]
    {
    }
  }

  /** The toast shown after a flip. */
  const StatusUpdatedToast := "Coupon status updated"
  /** The toast shown after a copy. */
  const CodeCopiedToast := "Coupon code copied!"

  class OffersPage {
    var coupons: seq<Coupon>

    constructor ()
      ensures coupons == MockCoupons
    {
      coupons := MockCoupons;
    }

    /** handleToggleActive */
    method HandleToggleActive(id: string) returns (toast: string)
      modifies this
      ensures coupons == ToggleActive(old(coupons), id)
      ensures toast == StatusUpdatedToast
    {
      coupons := ToggleActive(coupons, id);
      toast := StatusUpdatedToast;
    }

    /** handleCopyCode: the code goes to the clipboard, and the coupon list
        is left alone. */
    method HandleCopyCode(code: string) returns (clipboard: string, toast: string)
      ensures clipboard == code
      ensures toast == CodeCopiedToast
    {
      clipboard, toast := code, CodeCopiedToast;
    }
  }
}
