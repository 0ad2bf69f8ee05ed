/**
  The shared `StatusBadge` component: a status string becomes an outlined chip whose label is
  the status and whose colour and icon come from one `switch`.
*/
module StatusBadge {
  import Api

  /** The colour names the component passes to the chip. */
  datatype Color = Success | Warning | Error | Default | Info | Primary | Secondary

  /** The icons the component picks from. */
  datatype Icon = DeliveredIcon | ShippingIcon | WarningIcon | NavigationIcon | PendingIcon | InventoryIcon

  /** What the badge renders: the chip's label text, colour and icon (size and variant are fixed). */
  datatype Chip = Chip(text: string, color: Color, icon: Icon)

  const PROCESSING := "Processing"

  /** The six statuses that have a case of their own; every other string takes the default. */
  const BADGE_STATUSES: set<string> :=
    {Api.DELIVERED, Api.IN_TRANSIT, Api.DELAYED, Api.FAILED, Api.OUT_FOR_DELIVERY, PROCESSING}

  /** The colour of the `switch (status)`, stated case by case in both directions. */
  function BadgeColor(status: string): (c: Color)
    ensures c == Success <==> status == Api.DELIVERED
    ensures c == Info <==> status == Api.IN_TRANSIT
    ensures c == Warning <==> status == Api.DELAYED
    ensures c == Error <==> status == Api.FAILED
    ensures c == Primary <==> status == Api.OUT_FOR_DELIVERY
    ensures c == Secondary <==> status == PROCESSING
    ensures c == Default <==> status !in BADGE_STATUSES
  {
    if status == Api.DELIVERED then Success
    else if status == Api.IN_TRANSIT then Info
    else if status == Api.DELAYED then Warning
    else if status == Api.FAILED then Error
    else if status == Api.OUT_FOR_DELIVERY then Primary
    else if status == PROCESSING then Secondary
    else Default
  }

  /** The icon of the same `switch`: delayed and failed share the warning icon. */
  function BadgeIcon(status: string): (i: Icon)
    ensures i == DeliveredIcon <==> status == Api.DELIVERED
    ensures i == ShippingIcon <==> status == Api.IN_TRANSIT
    ensures i == WarningIcon <==> status == Api.DELAYED || status == Api.FAILED
    ensures i == NavigationIcon <==> status == Api.OUT_FOR_DELIVERY
    ensures i == PendingIcon <==> status == PROCESSING
    ensures i == InventoryIcon <==> status !in BADGE_STATUSES
  {
    if status == Api.DELIVERED then DeliveredIcon
    else if status == Api.IN_TRANSIT then ShippingIcon
    else if status == Api.DELAYED then WarningIcon
    else if status == Api.FAILED then WarningIcon
    else if status == Api.OUT_FOR_DELIVERY then NavigationIcon
    else if status == PROCESSING then PendingIcon
    else InventoryIcon
  }

  /** The chip `StatusBadge` renders for `status`. */
  function Badge(status: string): (chip: Chip)
    ensures chip.text == status
  {
    Chip(status, BadgeColor(status), BadgeIcon(status))
  }

  /** The icon a colour goes with: warning and error share the warning icon. */
  function IconOfColor(c: Color): Icon {
    match c
    case Success => DeliveredIcon
    case Info => ShippingIcon
    case Warning => WarningIcon
    case Error => WarningIcon
    case Primary => NavigationIcon
    case Secondary => PendingIcon
    case Default => InventoryIcon
  }

  /** The icon is a function of the colour, so the two never disagree. */
  lemma IconFollowsColor(status: string)
    ensures BadgeIcon(status) == IconOfColor(BadgeColor(status))
  {
  }

  /**
    Every status `list_customer_orders` can report has a colour of its own except "Unknown",
    which falls to the default; "Processing" is never such an order status.
  */
  lemma BackendStatusesColoured(status: string)
    requires status in Api.ORDER_STATUSES
    ensures BadgeColor(status) == Default <==> status == Api.UNKNOWN
    ensures BadgeColor(status) != Secondary
  {
  }

  /** A failed and a delayed shipment look different: error against warning. */
  lemma FailedNotDelayed()
    ensures BadgeColor(Api.FAILED) == Error && BadgeColor(Api.DELAYED) == Warning
  {
  }
}
