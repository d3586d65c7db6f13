/**
 * `DataTable` (src/components/ui/data-table.tsx): which row actions a
 * table offers, the delete-confirmation dialog, and its inline status badge.
 * Callbacks are modelled by whether they were passed; rendering is not.
 */
module DataTable {
  import opened Wrappers
  import opened JsText
  import StatusBadge

  /** The flags and callbacks the table receives; an omitted boolean prop is None. */
  datatype Props = Props(
    canCreate: Option<bool>, canEdit: Option<bool>, canDelete: Option<bool>,
    hasOnAdd: bool, hasOnEdit: bool, hasOnDelete: bool, hasOnView: bool)

  /** `canCreate = false`, `canEdit = false`, `canDelete = false`. */
  function Flag(prop: Option<bool>): bool {
    prop.GetOr(false)
  }

  /** Whether the actions column is added. */
  predicate HasActionsColumn(p: Props) {
    Flag(p.canEdit) || Flag(p.canDelete) || p.hasOnView
  }

  /** `enhancedColumns`: the given columns, with the actions column appended last when any action may apply. */
  function EnhancedColumns<C>(columns: seq<C>, actions: C, p: Props): (r: seq<C>)
    ensures HasActionsColumn(p) ==> |r| == |columns| + 1 && r[..|columns|] == columns && r[|columns|] == actions
    ensures !HasActionsColumn(p) ==> r == columns
  {
    if !HasActionsColumn(p) then columns else columns + [actions]
  }

  datatype MenuItem = ActionsLabel | ViewDetails | Edit | Separator | Delete

  /** The row menu of the actions column. */
  function MenuItems(p: Props): (items: seq<MenuItem>)
    ensures |items| >= 1 && items[0] == ActionsLabel
    ensures ViewDetails in items <==> p.hasOnView
    ensures Edit in items <==> Flag(p.canEdit) && p.hasOnEdit
    ensures Delete in items <==> Flag(p.canDelete) && p.hasOnDelete
  {
    [ActionsLabel] +
    (if p.hasOnView then [ViewDetails] else []) +
    (if Flag(p.canEdit) && p.hasOnEdit then [Edit] else []) +
    (if Flag(p.canDelete) && p.hasOnDelete then [Separator, Delete] else [])
  }

  /** Every item besides the label belongs to a column that exists. */
  lemma ItemsImplyActionsColumn(p: Props, item: MenuItem)
    requires item in MenuItems(p) && item != ActionsLabel
    ensures HasActionsColumn(p)
  {
  }

  /** `canEdit` without `onEdit` gives an actions column whose menu holds only its label. */
  lemma EditFlagWithoutCallbackLeavesEmptyMenu(p: Props)
    requires Flag(p.canEdit) && !p.hasOnEdit && !p.hasOnView && !Flag(p.canDelete)
    ensures HasActionsColumn(p)
    ensures MenuItems(p) == [ActionsLabel]
  {
  }

  /** `canCreate && onAdd`: the Add button. */
  predicate AddShown(p: Props) {
    Flag(p.canCreate) && p.hasOnAdd
  }

  /** With the flags left out, the table is read-only: no Add, no Edit, no Delete. */
  lemma OmittedFlagsMeanReadOnly(p: Props)
    requires p.canCreate.None? && p.canEdit.None? && p.canDelete.None?
    ensures !AddShown(p)
    ensures Edit !in MenuItems(p) && Delete !in MenuItems(p)
    ensures HasActionsColumn(p) <==> p.hasOnView
  {
  }

  /**
   * The delete confirmation: `itemToDelete`, `deleteDialogOpen`, and the
   * rows handed to `onDelete`, in order.
   */
  class DeleteDialog<T> {
    var open: bool
    var itemToDelete: Option<T>
    var deleted: seq<T>
    const hasOnDelete: bool

    /** The dialog is never open without a recorded row. */
    ghost predicate Valid()
      reads this
    {
      open ==> itemToDelete.Some?
    }

    constructor (hasOnDelete: bool)
      ensures Valid()
      ensures !open && itemToDelete.None? && deleted == [] && this.hasOnDelete == hasOnDelete
    {
      open := false;
      itemToDelete := None;
      deleted := [];
      this.hasOnDelete := hasOnDelete;
    }

    /** The Delete menu item: record the row and open the dialog. */
    method ClickDelete(row: T)
      modifies this
      ensures Valid()
      ensures open && itemToDelete == Some(row) && deleted == old(deleted)
    {
      itemToDelete := Some(row);
      open := true;
    }

    /** Cancel (or dismissing the dialog): close it, leaving the recorded row set. */
    method Cancel()
      requires Valid()
      modifies this
      ensures Valid()
      ensures !open && itemToDelete == old(itemToDelete) && deleted == old(deleted)
    {
      open := false;
    }

    /**
     * `handleDelete`: with a recorded row and an `onDelete`, call it once on
     * that row, close the dialog and clear the row; otherwise nothing happens.
     */
    method Confirm()
      requires Valid()
      modifies this
      ensures Valid()
      ensures old(itemToDelete).Some? && hasOnDelete ==>
                deleted == old(deleted) + [old(itemToDelete).value] && !open && itemToDelete.None?
      ensures !(old(itemToDelete).Some? && hasOnDelete) ==>
                deleted == old(deleted) && open == old(open) && itemToDelete == old(itemToDelete)
    {
      if itemToDelete.Some? && hasOnDelete {
        deleted := deleted + [itemToDelete.value];
        open := false;
        itemToDelete := None;
      }
    }
  }

  /** Choosing Delete on a row and confirming deletes exactly that row. */
  method DeleteThenConfirm<T>(d: DeleteDialog<T>, row: T)
    requires d.Valid() && d.hasOnDelete
    modifies d
    ensures d.Valid()
    ensures d.deleted == old(d.deleted) + [row] && !d.open && d.itemToDelete.None?
  {
    d.ClickDelete(row);
    d.Confirm();
  }

  /** Cancelling keeps the row, so the next Delete click replaces it rather than adding a second one. */
  method CancelThenDeleteOther<T>(d: DeleteDialog<T>, first: T, second: T)
    requires d.Valid() && d.hasOnDelete
    modifies d
    ensures d.Valid()
    ensures d.deleted == old(d.deleted) + [second]
  {
    d.ClickDelete(first);
    d.Cancel();
    assert d.itemToDelete == Some(first);
    d.ClickDelete(second);
    d.Confirm();
  }

  /** The inline badge's `getVariant`: the same `switch`, with `variant = "default"` as the fallback. */
  function InlineVariant(status: string, variant: Option<StatusBadge.Variant>): StatusBadge.Variant {
    var fallback := variant.GetOr(StatusBadge.Default);
    match ToLower(status)
    case "active" => StatusBadge.Default
    case "completed" => StatusBadge.Default
    case "paid" => StatusBadge.Default
    case "inactive" => StatusBadge.Destructive
    case "cancelled" => StatusBadge.Destructive
    case "overdue" => StatusBadge.Destructive
    case "pending" => StatusBadge.Secondary
    case "draft" => StatusBadge.Secondary
    case "paused" => StatusBadge.Outline
    case _ => fallback
  }

  /** The inline badge text: the status as given, first underscore turned into a space. */
  function InlineLabel(status: string): (text: string)
    ensures |text| == |status|
  {
    ReplaceFirst(status, '_', ' ')
  }

  /** The inline badge picks exactly the variant the standalone badge picks. */
  lemma InlineVariantMatchesStandalone(status: string, variant: Option<StatusBadge.Variant>)
    ensures InlineVariant(status, variant) == StatusBadge.GetVariant(status, variant)
  {
  }

  /** The two badges' texts differ only in letter case. */
  lemma InlineLabelDiffersOnlyInCase(status: string)
    ensures ToLower(InlineLabel(status)) == StatusBadge.Label(status)
  {
    ToLowerReplaceFirst(status, '_', ' ');
  }

  /** "PENDING" reads "PENDING" inline and "pending" in the standalone badge. */
  lemma InlineLabelKeepsCase()
    ensures InlineLabel("PENDING") == "PENDING"
    ensures StatusBadge.Label("PENDING") == "pending"
  {
    var lower := ToLower("PENDING");
    assert lower[0] == 'p' && lower[1] == 'e' && lower[2] == 'n' && lower[3] == 'd';
    assert lower[4] == 'i' && lower[5] == 'n' && lower[6] == 'g';
    assert lower == "pending";
    ReplaceFirstChangesOnlyFirst("PENDING", '_', ' ', 7);
    ReplaceFirstChangesOnlyFirst("pending", '_', ' ', 7);
  }
}
