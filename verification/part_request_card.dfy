/**
 The part-request card: a status badge (colour class, icon, label) and,
 for pending requests only, Accept / Decline buttons.

 The card's `status` prop is declared as one of four strings, but the
 callers pass statuses of their own, and the lookup tables are plain
 JavaScript objects indexed at run time. The model therefore takes the
 status as a string and lets a missing key (JavaScript's `undefined`)
 show as `None`. Every prop is optional and falls back to its own
 default when it is undefined.
 */
module PartRequestCard {
  import opened Wrappers
  import MechanicDashboard

  /** The four statuses the card declares. */
  const CardStatuses: set<string> := {"pending", "approved", "declined", "shipped"}

  /** `statusColors`. */
  const StatusColors: map<string, string> := map[
    "pending" := "bg-yellow-500",
    "approved" := "bg-green-500",
    "declined" := "bg-red-500",
    "shipped" := "bg-blue-500"]

  /** `statusText`. */
  const StatusText: map<string, string> := map[
    "pending" := "Pending",
    "approved" := "Approved",
    "declined" := "Declined",
    "shipped" := "Shipped"]

  function UpperAscii(c: char): char {
    if 'a' <= c <= 'z' then (c as int - 32) as char else c
  }

  /** The first letter in upper case, the rest unchanged. */
  function Capitalize(s: string): string {
    if s == [] then [] else [UpperAscii(s[0])] + s[1..]
  }

  /** The badge colour class: defined exactly on the four card statuses. */
  function ColorClass(status: string): (r: Option<string>)
    ensures r.Some? <==> status in CardStatuses
  {
    if status in StatusColors then Some(StatusColors[status]) else None
  }

  /** The four card statuses get four different colours. */
  lemma ColorsDistinct(a: string, b: string)
    requires a in CardStatuses && b in CardStatuses && a != b
    ensures ColorClass(a) != ColorClass(b)
  {
  }

  /** The badge label: defined exactly on the four card statuses, and
      there it is the status name with its first letter capitalised. */
  function Label(status: string): (r: Option<string>)
    ensures r.Some? <==> status in CardStatuses
    ensures r.Some? ==> r.value == Capitalize(status)
  {
    if status in StatusText then Some(StatusText[status]) else None
  }

  datatype IconShape = Clock | CheckCircle | AlertCircle
  datatype Icon = Icon(shape: IconShape, color: string)

  /** `StatusIcon`: a switch with a default, so every string gets an icon. */
  function StatusIcon(status: string): (i: Icon)
    ensures i.shape == CheckCircle <==> status == "approved" || status == "shipped"
    ensures i.shape == AlertCircle <==> status == "declined"
    ensures i.shape == Clock <==> status !in {"approved", "declined", "shipped"}
  {
    match status
    case "approved" => Icon(CheckCircle, "#10b981")
    case "declined" => Icon(AlertCircle, "#ef4444")
    case "shipped" => Icon(CheckCircle, "#3b82f6")
    case _ => Icon(Clock, "#f59e0b")
  }

  /** The card's props; `None` is a prop left undefined. */
  datatype CardProps = CardProps(
    partName: Option<string>,
    partNumber: Option<string>,
    requestDate: Option<string>,
    status: Option<string>,
    supplierName: Option<string>)

  /** The defaults of the destructured props. */
  const DefaultPartName := "Brake Pads"
  const DefaultPartNumber := "BP-2023-456"
  const DefaultRequestDate := "2023-05-15"
  const DefaultStatus := "pending"
  const DefaultSupplierName := "AutoParts Plus"

  /** A card given no props at all. */
  const NoProps := CardProps(None, None, None, None, None)

  /** What the card shows. `colorClass` and `badgeText` are `None` where the
      source renders `undefined`. */
  datatype CardView = CardView(
    partName: string,
    partNumber: string,
    colorClass: Option<string>,
    icon: Icon,
    badgeText: Option<string>,
    supplierName: string,
    requestDate: string,
    offersAcceptDecline: bool)

  /** Each prop takes its default exactly when it is undefined. */
  function Render(p: CardProps): (v: CardView)
    ensures v.partName == (if p.partName.Some? then p.partName.value else DefaultPartName)
    ensures v.partNumber == (if p.partNumber.Some? then p.partNumber.value else DefaultPartNumber)
    ensures v.requestDate == (if p.requestDate.Some? then p.requestDate.value else DefaultRequestDate)
    ensures v.supplierName == (if p.supplierName.Some? then p.supplierName.value else DefaultSupplierName)
    ensures v.offersAcceptDecline <==> p.status.None? || p.status.value == "pending"
    ensures v.colorClass.Some? <==> v.badgeText.Some?
    ensures p.status.Some? ==> (v.badgeText.Some? <==> p.status.value in CardStatuses)
    ensures var status := if p.status.Some? then p.status.value else DefaultStatus;
            && v.colorClass == ColorClass(status)
            && v.badgeText == Label(status)
            && v.icon == StatusIcon(status)
    ensures v.offersAcceptDecline ==> v.icon.shape == Clock && v.badgeText == Some("Pending")
  {
    var status := p.status.GetOr(DefaultStatus);
    CardView(p.partName.GetOr(DefaultPartName), p.partNumber.GetOr(DefaultPartNumber),
             ColorClass(status), StatusIcon(status), Label(status),
             p.supplierName.GetOr(DefaultSupplierName), p.requestDate.GetOr(DefaultRequestDate),
             status == "pending")
  }

  /** A card rendered with no props is a pending "Brake Pads" card
      offering Accept / Decline. */
  lemma DefaultCardOffersActions()
    ensures Render(NoProps).offersAcceptDecline
    ensures Render(NoProps).badgeText == Some("Pending")
    ensures Render(NoProps).colorClass == Some("bg-yellow-500")
    ensures Render(NoProps).partName == "Brake Pads"
  {
  }

  // ---- callers ----

  /** The status string the mechanic's dashboard passes to the card. */
  function StatusName(s: MechanicDashboard.RequestStatus): (name: string)
    ensures name in {"pending", "quoted", "confirmed", "shipped", "delivered"}
  {
    match s
    case Pending => "pending"
    case Quoted => "quoted"
    case Confirmed => "confirmed"
    case Shipped => "shipped"
    case Delivered => "delivered"
  }

  /** The dashboard passes each status under its own name. */
  lemma StatusNamesDistinct(s: MechanicDashboard.RequestStatus, t: MechanicDashboard.RequestStatus)
    requires s != t
    ensures StatusName(s) != StatusName(t)
  {
  }

  /** Of the five dashboard statuses, only "pending" and "shipped" have a
      colour and a label on the card: quoted, confirmed and delivered
      requests show an unstyled badge with no text. */
  lemma MechanicStatusesOutsideCardDomain(s: MechanicDashboard.RequestStatus)
    ensures Label(StatusName(s)).Some? <==> s == MechanicDashboard.Pending || s == MechanicDashboard.Shipped
    ensures ColorClass(StatusName(s)).Some? <==> s == MechanicDashboard.Pending || s == MechanicDashboard.Shipped
  {
  }

  /** The props the mechanic's dashboard gives each card: part name,
      request date, status and the supplier's name if there is a
      supplier. It never gives a part number. */
  function MechanicCardProps(r: MechanicDashboard.Request): (p: CardProps)
    ensures p.partName == Some(r.partName) && p.requestDate == Some(r.requestDate)
    ensures p.status == Some(StatusName(r.status))
    ensures p.partNumber == None
    ensures p.supplierName.Some? <==> r.supplier.Some?
    ensures r.supplier.Some? ==> p.supplierName.value == r.supplier.value.name
  {
    CardProps(Some(r.partName), None, Some(r.requestDate), Some(StatusName(r.status)),
              if r.supplier.Some? then Some(r.supplier.value.name) else None)
  }

  /** On the mechanic's dashboard every card shows the default part
      number, and a request without a supplier shows the default
      supplier name. */
  lemma MechanicCardsShowDefaults(r: MechanicDashboard.Request)
    ensures Render(MechanicCardProps(r)).partNumber == "BP-2023-456"
    ensures Render(MechanicCardProps(r)).partName == r.partName
    ensures r.supplier.None? ==> Render(MechanicCardProps(r)).supplierName == "AutoParts Plus"
    ensures r.supplier.Some? ==> Render(MechanicCardProps(r)).supplierName == r.supplier.value.name
  {
  }

  /** The supplier's dashboard passes "quoted" and "accepted", neither of
      which the card knows. */
  lemma SupplierStatusesOutsideCardDomain()
    ensures Label("quoted") == None && ColorClass("quoted") == None
    ensures Label("accepted") == None && ColorClass("accepted") == None
  {
  }

  /** The props the supplier's dashboard gives each card: part name,
      request date and status, but no part number and no supplier name.
      It also passes `mechanicName` and `vehicleInfo`, which the card does
      not declare and ignores, so they are not part of `CardProps`. */
  function SupplierCardProps(partName: string, requestDate: string, status: string): (p: CardProps)
    ensures p.partName == Some(partName) && p.requestDate == Some(requestDate)
    ensures p.status == Some(status)
    ensures p.partNumber == None && p.supplierName == None
  {
    CardProps(Some(partName), None, Some(requestDate), Some(status), None)
  }

  /** On the supplier's dashboard every card names the default supplier
      and shows the default part number. */
  lemma SupplierCardsShowDefaults(partName: string, requestDate: string, status: string)
    ensures Render(SupplierCardProps(partName, requestDate, status)).supplierName == "AutoParts Plus"
    ensures Render(SupplierCardProps(partName, requestDate, status)).partNumber == "BP-2023-456"
    ensures Render(SupplierCardProps(partName, requestDate, status)).offersAcceptDecline <==> status == "pending"
  {
  }
}
