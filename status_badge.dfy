/**
 * `StatusBadge` (src/components/ui/status-badge.tsx): the badge variant a
 * status string gets, compared case-insensitively, and the text it shows.
 */
module StatusBadge {
  import opened Wrappers
  import opened JsText

  datatype Variant = Default | Secondary | Destructive | Outline

  const DefaultStatuses := {"active", "completed", "paid"}
  const DestructiveStatuses := {"inactive", "cancelled", "overdue"}
  const SecondaryStatuses := {"pending", "draft"}
  const OutlineStatuses := {"paused"}

  /** `getVariant`: the `switch` over the lowercased status, falling back to the `variant` prop or "default". */
  function GetVariant(status: string, variant: Option<Variant>): (v: Variant)
    ensures ToLower(status) in DefaultStatuses ==> v == Default
    ensures ToLower(status) in DestructiveStatuses ==> v == Destructive
    ensures ToLower(status) in SecondaryStatuses ==> v == Secondary
    ensures ToLower(status) in OutlineStatuses ==> v == Outline
    ensures ToLower(status) !in DefaultStatuses + DestructiveStatuses + SecondaryStatuses + OutlineStatuses ==>
            v == variant.GetOr(Default)
  {
    match ToLower(status)
    case "active" => Default
    case "completed" => Default
    case "paid" => Default
    case "inactive" => Destructive
    case "cancelled" => Destructive
    case "overdue" => Destructive
    case "pending" => Secondary
    case "draft" => Secondary
    case "paused" => Outline
    case _ => variant.GetOr(Default)
  }

  /** The badge text: the lowercased status with its first underscore turned into a space. */
  function Label(status: string): (text: string)
    ensures |text| == |status|
  {
    ReplaceFirst(ToLower(status), '_', ' ')
  }

  /** Statuses that differ only in the case of their letters get the same variant and the same text. */
  lemma CaseDoesNotMatter(a: string, b: string, variant: Option<Variant>)
    requires |a| == |b|
    requires forall i :: 0 <= i < |a| ==> LowerChar(a[i]) == LowerChar(b[i])
    ensures GetVariant(a, variant) == GetVariant(b, variant)
    ensures Label(a) == Label(b)
  {
    assert ToLower(a) == ToLower(b);
  }

  /** The upper-case statuses the tables store each get their intended variant. */
  lemma StoredStatusesAreRecognised(variant: Option<Variant>)
    ensures GetVariant("ACTIVE", variant) == Default
    ensures GetVariant("COMPLETED", variant) == Default
    ensures GetVariant("PAID", variant) == Default
    ensures GetVariant("CANCELLED", variant) == Destructive
    ensures GetVariant("OVERDUE", variant) == Destructive
    ensures GetVariant("PENDING", variant) == Secondary
    ensures GetVariant("DRAFT", variant) == Secondary
    ensures GetVariant("PAUSED", variant) == Outline
  {
    assert ToLower("ACTIVE") == "active";
    assert ToLower("COMPLETED") == "completed";
    assert ToLower("PAID") == "paid";
    assert ToLower("CANCELLED") == "cancelled";
    assert ToLower("OVERDUE") == "overdue";
    assert ToLower("PENDING") == "pending";
    assert ToLower("DRAFT") == "draft";
    assert ToLower("PAUSED") == "paused";
  }

  /** Only the first underscore becomes a space: "IN_APP_ADS" reads "in app_ads". */
  lemma OnlyFirstUnderscoreReplaced()
    ensures Label("IN_APP_ADS") == "in app_ads"
  {
    assert ToLower("IN_APP_ADS") == "in_app_ads";
    ReplaceFirstChangesOnlyFirst("in_app_ads", '_', ' ', 2);
    assert "in_app_ads"[..2] + [' '] + "in_app_ads"[3..] == "in app_ads";
  }
}
