/** One row of the time-report list: its category line and its
    swipe-to-delete flow. */
module TimeReportRow {
  import opened Types

  datatype Label = LdcLabel | TagLabel(tag: string)

  /** The category line under the date and duration. */
  datatype CategoryLine = CategoryLine(diggingIcon: bool, text: Label, creditBadge: bool)

  /** `report.ldc || report.tag`: the category line shows when the report
      is LDC or carries a non-empty tag. Inside it the digging icon shows
      for LDC, the label is the LDC text for LDC and the tag otherwise, and
      the credit badge shows for credit or LDC. */
  function Category(r: ServiceReport): (line: Option<CategoryLine>)
    ensures line.Some? <==> r.ldc || Truthy(r.tag)
    ensures line.Some? ==> line.value.diggingIcon == r.ldc
    ensures line.Some? ==> line.value.text == if r.ldc then LdcLabel else TagLabel(r.tag.value)
    ensures line.Some? ==> line.value.creditBadge == (r.credit || r.ldc)
  {
    if r.ldc || Truthy(r.tag) then
      Some(CategoryLine(r.ldc, if r.ldc then LdcLabel else TagLabel(r.tag.value), r.credit || r.ldc))
    else None
  }

  /** LDC wins over a stray tag, and the badge sits inside the category
      line: a credit report with neither LDC nor a tag shows no badge. */
  lemma LdcWinsAndBadgeNeedsLine(r: ServiceReport)
    ensures r.ldc ==> Category(r) == Some(CategoryLine(true, LdcLabel, true))
    ensures (Category(r).Some? && Category(r).value.creditBadge) <==> r.ldc || (r.credit && Truthy(r.tag))
  {
  }

  /** The row's `Swipeable`; `reset` closes it. */
  class Swipeable {
    var isOpen: bool

    constructor ()
      ensures isOpen
    {
      isOpen := true;
    }

    method Reset()
      modifies this
      ensures !isOpen
    {
      isOpen := false;
    }
  }

  /** What `deleteServiceReport` was handed; the store's own removal and
      persistence are not part of this model. */
  class ServiceReportStore {
    var deleted: seq<ServiceReport>

    constructor ()
      ensures deleted == []
    {
      deleted := [];
    }

    method DeleteServiceReport(r: ServiceReport)
      modifies this
      ensures deleted == old(deleted) + [r]
    {
      deleted := deleted + [r];
    }
  }

  /** The toasts shown; the translated texts are opaque. */
  datatype Toast = SuccessDeleted

  class Toaster {
    var shown: seq<Toast>

    constructor ()
      ensures shown == []
    {
      shown := [];
    }

    method Show(t: Toast)
      modifies this
      ensures shown == old(shown) + [t]
    {
      shown := shown + [t];
    }
  }

  datatype Direction = Left | Right

  /** The button the user presses in the delete confirmation alert. */
  datatype AlertChoice = Cancel | ConfirmDelete

  /** `handleSwipeOpen`: a left swipe does nothing. A right swipe asks for
      confirmation (`choice` is the button pressed); cancel only resets the
      swipeable; delete resets it, shows the success toast and deletes
      exactly this report. */
  method HandleSwipeOpen(direction: Direction, swipeable: Swipeable, report: ServiceReport, choice: AlertChoice,
                         store: ServiceReportStore, toaster: Toaster)
    modifies swipeable, store, toaster
    ensures direction == Left ==>
              swipeable.isOpen == old(swipeable.isOpen) && store.deleted == old(store.deleted) && toaster.shown == old(toaster.shown)
    ensures direction == Right ==> !swipeable.isOpen
    ensures direction == Right && choice == Cancel ==>
              store.deleted == old(store.deleted) && toaster.shown == old(toaster.shown)
    ensures direction == Right && choice == ConfirmDelete ==>
              store.deleted == old(store.deleted) + [report] && toaster.shown == old(toaster.shown) + [SuccessDeleted]
  {
    if direction == Right {
      match choice
      case Cancel =>
        swipeable.Reset();
      case ConfirmDelete =>
        swipeable.Reset();
        toaster.Show(SuccessDeleted);
        store.DeleteServiceReport(report);
    }
  }
}
