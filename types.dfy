/** Record shapes, enumerations and constants shared by the whole site
    (lib/types.ts). Rows of the database tables are datatypes; the tables
    themselves live in module Store. */
module Types {

  datatype Option<+T> = None | Some(value: T) {
    function GetOr(default: T): T {
      match this
      case Some(v) => v
      case None => default
    }
  }

  /** Row identifiers: the database's uuids, kept as text. */
  type Id = string

  /** Registration.payment_status (lib/types.ts:94). */
  datatype PaymentStatus = Pending | Paid | Refunded | CharterPending | CharterApproved

  /** Registration.payment_method (lib/types.ts:93). */
  datatype PaymentMethod = Stripe | CharterSchool

  /** Profile.role (lib/types.ts:31). */
  datatype Role = Parent | Admin | Instructor

  /** AgeGroup (lib/types.ts:15). */
  datatype AgeGroup = TkTo2 | Grades3To5 | Grades6To8 | Grades9To12

  function StatusName(s: PaymentStatus): string {
    match s
    case Pending => "pending"
    case Paid => "paid"
    case Refunded => "refunded"
    case CharterPending => "charter_pending"
    case CharterApproved => "charter_approved"
  }

  /** The status stored for a text value: exactly the five names of the
      column's type are accepted, and each names exactly one status. */
  function ParseStatus(s: string): (r: Option<PaymentStatus>)
    ensures forall st :: r == Some(st) <==> StatusName(st) == s
  {
    if s == "pending" then Some(Pending)
    else if s == "paid" then Some(Paid)
    else if s == "refunded" then Some(Refunded)
    else if s == "charter_pending" then Some(CharterPending)
    else if s == "charter_approved" then Some(CharterApproved)
    else None
  }

  function MethodName(m: PaymentMethod): string {
    match m
    case Stripe => "stripe"
    case CharterSchool => "charter_school"
  }

  function ParseMethod(s: string): (r: Option<PaymentMethod>)
    ensures forall m :: r == Some(m) <==> MethodName(m) == s
  {
    if s == "stripe" then Some(Stripe)
    else if s == "charter_school" then Some(CharterSchool)
    else None
  }

  function RoleName(r: Role): string {
    match r
    case Parent => "parent"
    case Admin => "admin"
    case Instructor => "instructor"
  }

  function ParseRole(s: string): (r: Option<Role>)
    ensures forall role :: r == Some(role) <==> RoleName(role) == s
  {
    if s == "parent" then Some(Parent)
    else if s == "admin" then Some(Admin)
    else if s == "instructor" then Some(Instructor)
    else None
  }

  /** The key of an age group, as used in the classes filter's query. */
  function AgeGroupKey(a: AgeGroup): string {
    match a
    case TkTo2 => "tk-2"
    case Grades3To5 => "3-5"
    case Grades6To8 => "6-8"
    case Grades9To12 => "9-12"
  }

  /** AGE_GROUP_LABELS (lib/types.ts:18-23): a label for every age group,
      and no two groups share one. */
  function AgeGroupLabel(a: AgeGroup): (l: string)
    ensures l != []
  {
    match a
    case TkTo2 => "TK - 2nd Grade"
    case Grades3To5 => "3rd - 5th Grade"
    case Grades6To8 => "6th - 8th Grade"
    case Grades9To12 => "9th - 12th Grade"
  }

  lemma {:induction false} AgeGroupLabelsDistinct(a: AgeGroup, b: AgeGroup)
    ensures AgeGroupLabel(a) == AgeGroupLabel(b) ==> a == b
  {
  }

  /** GRADE_LEVELS (lib/types.ts:183-198): fourteen distinct grades, TK
      first and 12th last. */
  function GradeLevels(): (g: seq<string>)
    ensures |g| == 14 && g[0] == "TK" && g[13] == "12th"
    ensures forall i, j :: 0 <= i < j < |g| ==> g[i] != g[j]
  {
    ["TK", "K", "1st", "2nd", "3rd", "4th", "5th", "6th", "7th", "8th", "9th", "10th", "11th", "12th"]
  }

  /** A parent, admin or instructor account (profiles table). */
  datatype Profile = Profile(email: string, fullName: Option<string>, role: Role)

  /** A child owned by one parent (students table). */
  datatype Student = Student(
    parentId: Id,
    fullName: string,
    firstName: Option<string>,
    gradeLevel: string,
    dateOfBirth: Option<string>,
    notes: Option<string>)

  /** A class offering (classes table, lib/types.ts:54-85). The optional
      prices may be null; price, max_spots and spots_taken are always there. */
  datatype ClassRow = ClassRow(
    name: string,
    description: Option<string>,
    gradeLevels: Option<seq<string>>,
    startDate: string,
    endDate: Option<string>,
    startTime: string,
    endTime: string,
    price: real,
    charterPrice: Option<real>,
    oneOnOnePrice: Option<real>,
    maxSpots: int,
    spotsTaken: int,
    isOnline: bool,
    isIndividual: bool,
    isPublished: bool,
    zoomLink: Option<string>,
    location: Option<string>)

  /** A registration (registrations table, lib/types.ts:87-103), together
      with the two columns the code writes that lib/types.ts does not list:
      `status` and `user_id`. */
  datatype Registration = Registration(
    classId: Id,
    studentId: Id,
    parentId: Option<Id>,
    userId: Option<Id>,
    isOneOnOne: bool,
    paymentMethod: PaymentMethod,
    paymentStatus: PaymentStatus,
    status: Option<string>,
    stripePaymentIntentId: Option<string>,
    charterSchoolName: Option<string>,
    charterSchoolContact: Option<string>,
    amountPaid: real)

  /** An event (events table, lib/types.ts:105-122). */
  datatype EventRow = EventRow(
    name: string,
    description: Option<string>,
    eventDate: string,
    startTime: Option<string>,
    endTime: Option<string>,
    location: Option<string>,
    isOnline: bool,
    isFree: bool,
    price: Option<real>,
    maxAttendees: Option<int>,
    isPublished: bool,
    currentAttendees: int)

  /** A gallery picture (gallery table, lib/types.ts:124-133); the admin
      actions only ever delete one. */
  datatype GalleryItem = GalleryItem(title: Option<string>, imageUrl: string, isPublished: bool)

  /** A contact-form message (contact_submissions table, lib/types.ts:147-158). */
  datatype ContactSubmission = ContactSubmission(email: string, message: string, isRead: bool)

  /** A blog post as app/actions/blog.ts writes it (blog_posts table). */
  datatype BlogPost = BlogPost(
    title: string,
    slug: string,
    excerpt: Option<string>,
    content: Option<string>,
    authorId: Id,
    authorName: string,
    isPublished: bool,
    publishDate: Option<nat>,
    updatedAt: nat)

  /** A completed sponsorship as the Stripe webhook records it
      (sponsorships table). */
  datatype Sponsorship = Sponsorship(
    amount: real,
    sponsorFirstName: string,
    sponsorLastName: string,
    sponsorEmail: string,
    studentName: Option<string>,
    organizationName: Option<string>,
    billingAddress: Option<string>,
    billingCity: Option<string>,
    billingState: Option<string>,
    billingZip: Option<string>,
    status: string,
    paymentMethod: string,
    paymentIntentId: Option<string>)

  /** A row of admin_users, the separate password login of
      app/actions/admin-auth.ts. */
  datatype AdminUser = AdminUser(
    email: string,
    passwordHash: string,
    fullName: string,
    role: string,
    isActive: bool,
    lastLogin: Option<nat>)

  /** An outgoing email; the rendered HTML body is not modelled. */
  datatype Email = Email(to: string, subject: string)

  /** The outcome of a server action: `{ success: true, checkoutUrl? }`,
      `{ success: false, error }`, or an exception the caller's `catch`
      receives. */
  datatype ActionResult = Success(checkoutUrl: Option<string>) | Failure(error: string) | Threw
}
