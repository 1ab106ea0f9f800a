/** The rows of the four backend tables the console reads and writes
    (`admin_requests`, `user_roles`, `products`, `inquiries`), their status
    enumerations, and the inquiry-status constant list. A nullable column is an
    `Option`; a JavaScript `number` column is a `JsNumber`. */
module Schema {
  import opened Common

  /** An admin request is in exactly one of three states. */
  datatype RequestStatus = Pending | Approved | Rejected

  /** The status as stored in the `status` column. */
  function RequestStatusName(s: RequestStatus): string {
    match s
    case Pending => "pending"
    case Approved => "approved"
    case Rejected => "rejected"
  }

  /** Reading a stored status: exactly the three names are accepted, each as its own status. */
  function ParseRequestStatus(s: string): (r: Option<RequestStatus>)
    ensures forall st :: r == Some(st) <==> RequestStatusName(st) == s
  {
    if s == "pending" then Some(Pending)
    else if s == "approved" then Some(Approved)
    else if s == "rejected" then Some(Rejected)
    else None
  }

  /** The seven inquiry states, declared in the order of the `InquiryStatus` type. */
  datatype InquiryStatus = New | Contacted | Negotiating | Quoted | Won | Lost | Closed

  function InquiryStatusName(s: InquiryStatus): string {
    match s
    case New => "new"
    case Contacted => "contacted"
    case Negotiating => "negotiating"
    case Quoted => "quoted"
    case Won => "won"
    case Lost => "lost"
    case Closed => "closed"
  }

  /** `Constants.public.Enums.inquiry_status`. */
  const InquiryStatusConstants: seq<string> :=
    ["new", "contacted", "negotiating", "quoted", "won", "lost", "closed"]

  /** The position of a status in the type's declaration order; `Constants` lists the
      status's name at exactly that position. */
  function InquiryStatusIndex(s: InquiryStatus): (k: nat)
    ensures k < |InquiryStatusConstants| && InquiryStatusConstants[k] == InquiryStatusName(s)
  {
    match s
    case New => 0
    case Contacted => 1
    case Negotiating => 2
    case Quoted => 3
    case Won => 4
    case Lost => 5
    case Closed => 6
  }

  /** `Constants` lists seven distinct names, so every status appears exactly once. */
  lemma InquiryConstantsDistinct()
    ensures |InquiryStatusConstants| == 7
    ensures forall i, j :: 0 <= i < j < |InquiryStatusConstants| ==>
              InquiryStatusConstants[i] != InquiryStatusConstants[j]
  {
  }

  /** Reading a stored inquiry status: exactly the seven names are accepted. */
  function ParseInquiryStatus(s: string): (r: Option<InquiryStatus>)
    ensures forall st :: r == Some(st) <==> InquiryStatusName(st) == s
  {
    if s == "new" then Some(New)
    else if s == "contacted" then Some(Contacted)
    else if s == "negotiating" then Some(Negotiating)
    else if s == "quoted" then Some(Quoted)
    else if s == "won" then Some(Won)
    else if s == "lost" then Some(Lost)
    else if s == "closed" then Some(Closed)
    else None
  }

  /** A row of `admin_requests`. */
  datatype AdminRequest = AdminRequest(
    id: string,
    userId: string,
    fullName: string,
    email: string,
    status: RequestStatus,
    reviewedBy: Option<string>,
    reviewedAt: Option<string>,
    rejectionReason: Option<string>,
    createdAt: string)

  /** An insert into `admin_requests`: the user, name and e-mail are required,
      the status and the review columns may be left out (`None`). */
  datatype AdminRequestInsert = AdminRequestInsert(
    userId: string,
    fullName: string,
    email: string,
    status: Option<RequestStatus>,
    reviewedBy: Option<string>,
    reviewedAt: Option<string>,
    rejectionReason: Option<string>)

  /** The row the backend stores for an insert: it supplies the id, the creation time and,
      for a left-out status, the column default (which the sources do not show). */
  function StoredRequest(ins: AdminRequestInsert, id: string, createdAt: string,
                         statusDefault: RequestStatus): (r: AdminRequest)
    ensures r.userId == ins.userId && r.fullName == ins.fullName && r.email == ins.email
    ensures ins.status.Some? ==> r.status == ins.status.value
    ensures ins.status.None? ==> r.status == statusDefault
    ensures r.reviewedBy == ins.reviewedBy && r.reviewedAt == ins.reviewedAt
    ensures r.rejectionReason == ins.rejectionReason
    ensures r.id == id && r.createdAt == createdAt
  {
    AdminRequest(id, ins.userId, ins.fullName, ins.email, ins.status.GetOr(statusDefault),
                 ins.reviewedBy, ins.reviewedAt, ins.rejectionReason, createdAt)
  }

  /** A row of `user_roles`. The role is any string: "admin" is only what the callers write and test for. */
  datatype UserRole = UserRole(userId: string, role: string)

  /** A JavaScript number as the product form holds it (`parseFloat` and `parseInt` may give NaN). */
  datatype JsNumber = NaN | Num(value: real)

  /** A row of `products`. */
  datatype Product = Product(
    id: string,
    name: string,
    sku: Option<string>,
    category: string,
    subcategory: Option<string>,
    description: Option<string>,
    price: JsNumber,
    mrp: Option<JsNumber>,
    wattage: Option<JsNumber>,
    lumens: Option<JsNumber>,
    colorTemperature: Option<string>,
    shape: Option<string>,
    mountingType: Option<string>,
    material: Option<string>,
    ipRating: Option<string>,
    voltage: Option<string>,
    warranty: Option<string>,
    moq: Option<JsNumber>,
    certifications: Option<seq<string>>,
    imageUrl: Option<string>,
    isFeatured: Option<bool>,
    isActive: Option<bool>,
    createdAt: string,
    updatedAt: string)

  /** A row of `inquiries`. */
  datatype Inquiry = Inquiry(
    id: string,
    name: string,
    email: string,
    phone: Option<string>,
    company: Option<string>,
    message: string,
    productInterest: Option<string>,
    quantity: Option<int>,
    status: InquiryStatus,
    priority: Option<string>,
    notes: Option<string>,
    followUpDate: Option<string>,
    createdAt: string,
    updatedAt: string)
}
