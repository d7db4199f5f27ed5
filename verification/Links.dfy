/**
 The signed links in e-mails: managing and reviewing an appointment, a support ticket, leaving
 the waiting list (src/barbershop/appointment-link.ts). The signature is a parameter: a function
 from payloads to strings.
 */
module Links {
  import opened Prelude
  import opened Text

  const MAX_SAFE := 9_007_199_254_740_991   // Number.MAX_SAFE_INTEGER
  const MANAGE_DAYS := 14
  const REVIEW_DAYS := 30
  const DAY := 86_400_000

  datatype Purpose = Manage | Review | Support | Waitlist

  /** What a signature is over. */
  datatype Message =
    | Plain(purpose: Purpose, id: nat)
    | Versioned(purpose: Purpose, id: nat, version: nat)
    | StaffMark(id: nat, version: nat, user: nat)

  function PurposeName(p: Purpose): string {
    match p
    case Manage => "appointment-manage"
    case Review => "appointment-review"
    case Support => "support-ticket"
    case Waitlist => "waitlist-leave"
  }

  const STAFF_NAME := "appointment-review-staff"

  function Payload(m: Message): string {
    match m
    case Plain(p, id) => PurposeName(p) + [':'] + Decimal(id)
    case Versioned(p, id, version) => PurposeName(p) + [':'] + (Decimal(id) + [':'] + Decimal(version))
    case StaffMark(id, version, user) =>
      STAFF_NAME + [':'] + (Decimal(id) + [':'] + (Decimal(version) + [':'] + Decimal(user)))
  }

  type Mac = string -> string

  predicate MacChar(c: char) {
    'A' <= c <= 'Z' || 'a' <= c <= 'z' || IsDigit(c) || c == '_' || c == '-'
  }

  /** 32 characters of the base64url alphabet (RFC 4648, section 5). */
  predicate IsMac(s: string) {
    |s| == 32 && forall k :: 0 <= k < |s| ==> MacChar(s[k])
  }

  ghost predicate WellFormed(mac: Mac) {
    forall payload: string :: IsMac(mac(payload))
  }

  /** There are signatures of that form, as the premises on them suppose. */
  lemma SomeSignature() returns (mac: Mac)
    ensures WellFormed(mac)
  {
    mac := (payload: string) => seq(32, k => 'A');
  }

  // ---- creating ----

  function Token2(a: string, b: string): string {
    a + ['.'] + b
  }

  function Token3(a: string, b: string, c: string): string {
    a + ['.'] + (b + ['.'] + c)
  }

  /** createAppointmentToken and createReviewToken. */
  function CreateLink(mac: Mac, p: Purpose, id: nat, version: nat): string {
    Token3(Decimal(id), Decimal(version), mac(Payload(Versioned(p, id, version))))
  }

  /** createStaffReviewToken: the review link marked with who asked for it. */
  function CreateStaffReview(mac: Mac, id: nat, user: nat, version: nat): string {
    Decimal(id) + ['.'] + (Decimal(version) + ['.'] + (mac(Payload(Versioned(Review, id, version))) + ['.']
      + (Decimal(user) + ['.'] + mac(Payload(StaffMark(id, version, user))))))
  }

  /** createSupportToken and createWaitlistLeaveToken, and the links sent before versions. */
  function CreatePlain(mac: Mac, p: Purpose, id: nat): string {
    Token2(Decimal(id), mac(Payload(Plain(p, id))))
  }

  // ---- reading ----

  predicate SafeNumber(s: string) {
    IsNumber(s) && Value(s) <= MAX_SAFE
  }

  datatype Peeled = Peeled(token: string, requester: Option<nat>)

  predicate StaffShape(f: seq<string>) {
    |f| == 5 && IsNumber(f[0]) && IsNumber(f[1]) && IsMac(f[2]) && IsNumber(f[3]) && IsMac(f[4])
  }

  /** stripStaffReview (51-68). */
  function StripStaff(mac: Mac, raw: string): Option<Peeled> {
    var f := Fields(raw, '.');
    if !StaffShape(f) then Some(Peeled(raw, None))
    else if !SafeNumber(f[0]) || !SafeNumber(f[1]) || !SafeNumber(f[3]) || Value(f[3]) < 1 then None
    else
      var id, version, user := Value(f[0]), Value(f[1]), Value(f[3]);
      if mac(Payload(StaffMark(id, version, user))) != f[4] then None
      else Some(Peeled(Token3(Decimal(id), Decimal(version), f[2]), Some(user)))
  }

  /** reviewLinkRequester (70-72). */
  function Requester(mac: Mac, token: string): Option<nat> {
    var peeled := StripStaff(mac, Trim(token));
    if peeled.Some? then peeled.value.requester else None
  }

  datatype Link = Link(id: nat, version: nat)

  /** The current format, then the one without a version (92-103). */
  function ReadBody(mac: Mac, body: string, p: Purpose): Option<Link> {
    var f := Fields(body, '.');
    if |f| == 3 && IsNumber(f[0]) && IsNumber(f[1]) && IsMac(f[2]) then
      if !SafeNumber(f[0]) || !SafeNumber(f[1]) then None
      else if mac(Payload(Versioned(p, Value(f[0]), Value(f[1])))) == f[2] then Some(Link(Value(f[0]), Value(f[1])))
      else None
    else if |f| == 2 && SafeNumber(f[0]) && IsMac(f[1]) then
      if mac(Payload(Plain(p, Value(f[0])))) == f[1] then Some(Link(Value(f[0]), 0)) else None
    else None
  }

  /** readAppointmentLink (81-104). */
  function ReadLink(mac: Mac, token: string, p: Purpose): Option<Link> {
    var raw := Trim(token);
    if p != Review then ReadBody(mac, raw, p)
    else
      var peeled := StripStaff(mac, raw);
      if peeled.None? then None else ReadBody(mac, peeled.value.token, p)
  }

  /** verify (138-144): support tickets and the waiting list. */
  function Verify(mac: Mac, token: string, p: Purpose): Option<nat> {
    var f := Fields(Trim(token), '.');
    if |f| == 2 && SafeNumber(f[0]) && IsMac(f[1]) && mac(Payload(Plain(p, Value(f[0])))) == f[1]
    then Some(Value(f[0])) else None
  }

  datatype Mode = Current | Previous | Shut

  datatype Appointment = Appointment(id: nat, endAt: int, linkVersion: nat)

  function Days(p: Purpose): int {
    if p == Review then REVIEW_DAYS else MANAGE_DAYS
  }

  /** appointmentLinkMode (107-126), of a link already read. */
  function ModeOf(link: Option<Link>, p: Purpose, a: Appointment, now: int): Mode {
    if link.None? || link.value.id != a.id || now > a.endAt + Days(p) * DAY then Shut
    else if link.value.version == a.linkVersion then Current
    else if p == Manage && a.linkVersion > 0 && link.value.version == a.linkVersion - 1 then Previous
    else Shut
  }

  function LinkMode(mac: Mac, token: string, p: Purpose, a: Appointment, now: int): Mode {
    ModeOf(ReadLink(mac, token, p), p, a, now)
  }

  // ---- payloads say exactly what was signed ----

  lemma NumberFields(n: nat)
    ensures ':' !in Decimal(n) && '.' !in Decimal(n)
  {
    DecimalReads(n);
    DigitsOnly(Decimal(n), ':');
    DigitsOnly(Decimal(n), '.');
  }

  function Parts(m: Message): seq<string> {
    match m
    case Plain(p, id) => [PurposeName(p), Decimal(id)]
    case Versioned(p, id, version) => [PurposeName(p), Decimal(id), Decimal(version)]
    case StaffMark(id, version, user) => [STAFF_NAME, Decimal(id), Decimal(version), Decimal(user)]
  }

  lemma PayloadFields(m: Message)
    ensures Fields(Payload(m), ':') == Parts(m)
  {
    NumberFields(m.id);
    match m
    case Plain(p, id) =>
      FirstField(PurposeName(p), Decimal(id), ':');
      OneField(Decimal(id), ':');
    case Versioned(p, id, version) =>
      NumberFields(version);
      FirstField(PurposeName(p), Decimal(id) + [':'] + Decimal(version), ':');
      FirstField(Decimal(id), Decimal(version), ':');
      OneField(Decimal(version), ':');
    case StaffMark(id, version, user) =>
      NumberFields(version);
      NumberFields(user);
      FirstField(STAFF_NAME, Decimal(id) + [':'] + (Decimal(version) + [':'] + Decimal(user)), ':');
      FirstField(Decimal(id), Decimal(version) + [':'] + Decimal(user), ':');
      FirstField(Decimal(version), Decimal(user), ':');
      OneField(Decimal(user), ':');
  }

  lemma DecimalIsInjective(m: nat, n: nat)
    requires Decimal(m) == Decimal(n)
    ensures m == n
  {
    DecimalReads(m);
    DecimalReads(n);
  }

  lemma PurposeNamesDiffer(p: Purpose, q: Purpose)
    requires PurposeName(p) == PurposeName(q)
    ensures p == q
  {
    assert |PurposeName(Manage)| == 18 && |PurposeName(Support)| == 14 && |PurposeName(Waitlist)| == 14;
    assert PurposeName(Support)[0] == 's' && PurposeName(Waitlist)[0] == 'w';
    assert PurposeName(Manage)[12] == 'm' && PurposeName(Review)[12] == 'r';
  }

  /** Signed payloads are injective over every purpose, id, version and staff mark. */
  lemma PayloadIsInjective(m: Message, n: Message)
    requires Payload(m) == Payload(n)
    ensures m == n
  {
    PayloadFields(m);
    PayloadFields(n);
    assert Parts(m) == Parts(n);
    var a, b := Parts(m), Parts(n);
    assert |a| == |b| && a[0] == b[0] && a[1] == b[1];
    DecimalIsInjective(m.id, n.id);
    if |a| >= 3 { assert a[2] == b[2]; DecimalIsInjective(m.version, n.version); }
    if |a| == 4 { assert a[3] == b[3]; DecimalIsInjective(m.user, n.user); }
    if |a| < 4 { PurposeNamesDiffer(m.purpose, n.purpose); }
  }

  // ---- reading what was created ----

  lemma MacHasNoDot(s: string)
    requires IsMac(s)
    ensures '.' !in s
  {
  }

  lemma Fields3(a: nat, b: nat, c: string)
    requires '.' !in c
    ensures Fields(Token3(Decimal(a), Decimal(b), c), '.') == [Decimal(a), Decimal(b), c]
  {
    NumberFields(a);
    NumberFields(b);
    FirstField(Decimal(a), Decimal(b) + ['.'] + c, '.');
    FirstField(Decimal(b), c, '.');
    OneField(c, '.');
  }

  lemma Fields2(a: nat, b: string)
    requires '.' !in b
    ensures Fields(Token2(Decimal(a), b), '.') == [Decimal(a), b]
  {
    NumberFields(a);
    FirstField(Decimal(a), b, '.');
    OneField(b, '.');
  }

  /** A text that begins with a digit and ends with a character of the signature has nothing to trim. */
  lemma NothingToTrim(s: string)
    requires s != "" && IsDigit(s[0]) && MacChar(s[|s| - 1])
    ensures Trim(s) == s
  {
  }

  lemma DecimalBegins(n: nat)
    ensures Decimal(n) != "" && IsDigit(Decimal(n)[0])
  {
    DecimalReads(n);
  }

  lemma ReadsBody(mac: Mac, p: Purpose, id: nat, version: nat)
    requires WellFormed(mac) && id <= MAX_SAFE && version <= MAX_SAFE
    ensures ReadBody(mac, CreateLink(mac, p, id, version), p) == Some(Link(id, version))
    ensures Trim(CreateLink(mac, p, id, version)) == CreateLink(mac, p, id, version)
    ensures StripStaff(mac, CreateLink(mac, p, id, version)) == Some(Peeled(CreateLink(mac, p, id, version), None))
  {
    var sig := mac(Payload(Versioned(p, id, version)));
    assert IsMac(sig);
    MacHasNoDot(sig);
    Fields3(id, version, sig);
    DecimalReads(id);
    DecimalReads(version);
    DecimalBegins(id);
    var t := CreateLink(mac, p, id, version);
    assert t[0] == Decimal(id)[0] && t[|t| - 1] == sig[31];
    NothingToTrim(t);
  }

  /** A created manage or review link is read back: its id and its version. */
  lemma LinkRoundTrip(mac: Mac, p: Purpose, id: nat, version: nat)
    requires WellFormed(mac) && id <= MAX_SAFE && version <= MAX_SAFE && (p == Manage || p == Review)
    ensures ReadLink(mac, CreateLink(mac, p, id, version), p) == Some(Link(id, version))
    ensures Requester(mac, CreateLink(mac, p, id, version)) == None
  {
    ReadsBody(mac, p, id, version);
  }

  lemma StaffFields(mac: Mac, id: nat, user: nat, version: nat)
    requires WellFormed(mac)
    ensures Fields(CreateStaffReview(mac, id, user, version), '.') ==
      [Decimal(id), Decimal(version), mac(Payload(Versioned(Review, id, version))),
       Decimal(user), mac(Payload(StaffMark(id, version, user)))]
  {
    var sig := mac(Payload(Versioned(Review, id, version)));
    var mark := mac(Payload(StaffMark(id, version, user)));
    assert IsMac(sig) && IsMac(mark);
    MacHasNoDot(sig);
    MacHasNoDot(mark);
    NumberFields(id);
    NumberFields(version);
    NumberFields(user);
    var last := Decimal(user) + ['.'] + mark;
    FirstField(Decimal(id), Decimal(version) + ['.'] + (sig + ['.'] + last), '.');
    FirstField(Decimal(version), sig + ['.'] + last, '.');
    FirstField(sig, last, '.');
    FirstField(Decimal(user), mark, '.');
    OneField(mark, '.');
  }

  /** A staff review link is read back too, with who asked for it. */
  lemma StaffRoundTrip(mac: Mac, id: nat, user: nat, version: nat)
    requires WellFormed(mac) && id <= MAX_SAFE && version <= MAX_SAFE && 1 <= user <= MAX_SAFE
    ensures ReadLink(mac, CreateStaffReview(mac, id, user, version), Review) == Some(Link(id, version))
    ensures Requester(mac, CreateStaffReview(mac, id, user, version)) == Some(user)
  {
    var t := CreateStaffReview(mac, id, user, version);
    var mark := mac(Payload(StaffMark(id, version, user)));
    StaffFields(mac, id, user, version);
    assert IsMac(mark) && IsMac(mac(Payload(Versioned(Review, id, version))));
    DecimalReads(id);
    DecimalReads(version);
    DecimalReads(user);
    DecimalBegins(id);
    assert t[0] == Decimal(id)[0] && t[|t| - 1] == mark[31];
    NothingToTrim(t);
    ReadsBody(mac, Review, id, version);
  }

  /** The links without a version: tickets, the waiting list, and appointments as version 0. */
  lemma PlainRoundTrip(mac: Mac, p: Purpose, id: nat)
    requires WellFormed(mac) && id <= MAX_SAFE
    ensures Verify(mac, CreatePlain(mac, p, id), p) == Some(id)
    ensures ReadLink(mac, CreatePlain(mac, p, id), p) == Some(Link(id, 0))
  {
    var sig := mac(Payload(Plain(p, id)));
    var t := CreatePlain(mac, p, id);
    assert IsMac(sig);
    MacHasNoDot(sig);
    Fields2(id, sig);
    DecimalReads(id);
    DecimalBegins(id);
    assert t[0] == Decimal(id)[0] && t[|t| - 1] == sig[31];
    NothingToTrim(t);
  }

  // ---- what an accepted link proves ----

  /** No two different payloads here have one signature. */
  predicate NoClash(mac: Mac, m: Message, n: Message) {
    mac(Payload(m)) == mac(Payload(n)) ==> Payload(m) == Payload(n)
  }

  /** The last field, where the signature is. */
  function LastField(body: string): string {
    var f := Fields(body, '.');
    f[|f| - 1]
  }

  /** The signature a link was accepted by. */
  function Signature(mac: Mac, token: string, p: Purpose): string
    requires ReadLink(mac, token, p).Some?
  {
    LastField(if p == Review then StripStaff(mac, Trim(token)).value.token else Trim(token))
  }

  predicate SignedAs(mac: Mac, sig: string, p: Purpose, l: Link) {
    sig == mac(Payload(Versioned(p, l.id, l.version))) || (l.version == 0 && sig == mac(Payload(Plain(p, l.id))))
  }

  lemma BodyIsSigned(mac: Mac, body: string, p: Purpose)
    requires ReadBody(mac, body, p).Some?
    ensures SignedAs(mac, LastField(body), p, ReadBody(mac, body, p).value)
  {
  }

  lemma LinkIsSigned(mac: Mac, token: string, p: Purpose)
    requires ReadLink(mac, token, p).Some?
    ensures SignedAs(mac, Signature(mac, token, p), p, ReadLink(mac, token, p).value)
  {
    BodyIsSigned(mac, if p == Review then StripStaff(mac, Trim(token)).value.token else Trim(token), p);
  }

  lemma SignedMeans(mac: Mac, p: Purpose, l: Link, m: Message)
    requires SignedAs(mac, mac(Payload(m)), p, l)
    requires NoClash(mac, m, Versioned(p, l.id, l.version)) && NoClash(mac, m, Plain(p, l.id))
    ensures m == Versioned(p, l.id, l.version) || (l.version == 0 && m == Plain(p, l.id))
  {
    if mac(Payload(m)) == mac(Payload(Versioned(p, l.id, l.version))) {
      PayloadIsInjective(m, Versioned(p, l.id, l.version));
    } else {
      PayloadIsInjective(m, Plain(p, l.id));
    }
  }

  predicate NoClashFor(mac: Mac, m: Message, p: Purpose, l: Link) {
    NoClash(mac, m, Versioned(p, l.id, l.version)) && NoClash(mac, m, Plain(p, l.id))
  }

  /** The link was accepted by the signature of m, which clashes with no other that would do. */
  predicate AcceptedBy(mac: Mac, token: string, p: Purpose, m: Message) {
    && ReadLink(mac, token, p).Some? && Signature(mac, token, p) == mac(Payload(m))
    && NoClashFor(mac, m, p, ReadLink(mac, token, p).value)
  }

  /** Accepted means signed for this purpose, id and version, or, without a version, for version 0. */
  lemma AcceptedWasSigned(mac: Mac, token: string, p: Purpose, m: Message)
    ensures AcceptedBy(mac, token, p, m) ==>
      var l := ReadLink(mac, token, p).value;
      m == Versioned(p, l.id, l.version) || (l.version == 0 && m == Plain(p, l.id))
  {
    if AcceptedBy(mac, token, p, m) {
      LinkIsSigned(mac, token, p);
      SignedMeans(mac, p, ReadLink(mac, token, p).value, m);
    }
  }

  /** The same for tickets and the waiting list. */
  lemma VerifiedWasSigned(mac: Mac, token: string, p: Purpose, m: Message)
    ensures var id := Verify(mac, token, p);
      id.Some? && LastField(Trim(token)) == mac(Payload(m)) && NoClash(mac, m, Plain(p, id.value)) ==>
        m == Plain(p, id.value)
  {
    var id := Verify(mac, token, p);
    if id.Some? && LastField(Trim(token)) == mac(Payload(m)) && NoClash(mac, m, Plain(p, id.value)) {
      PayloadIsInjective(m, Plain(p, id.value));
    }
  }

  /** So a link made for one purpose is accepted for another only if two signatures clash. */
  lemma PurposesAreSeparate(mac: Mac, p: Purpose, q: Purpose, id: nat, version: nat)
    requires WellFormed(mac) && id <= MAX_SAFE && version <= MAX_SAFE && p != q
    ensures ReadLink(mac, CreateLink(mac, p, id, version), q).Some? <==>
      mac(Payload(Versioned(p, id, version))) == mac(Payload(Versioned(q, id, version)))
    ensures Payload(Versioned(p, id, version)) != Payload(Versioned(q, id, version))
  {
    if Payload(Versioned(p, id, version)) == Payload(Versioned(q, id, version)) {
      PayloadIsInjective(Versioned(p, id, version), Versioned(q, id, version));
    }
    ReadsBody(mac, p, id, version);
    var sig := mac(Payload(Versioned(p, id, version)));
    assert IsMac(sig);
    MacHasNoDot(sig);
    Fields3(id, version, sig);
    DecimalReads(id);
    DecimalReads(version);
  }

  /** Nor is a link without a version, where tickets and the waiting list are read or where appointments are. */
  lemma PlainPurposesAreSeparate(mac: Mac, p: Purpose, q: Purpose, id: nat)
    requires WellFormed(mac) && id <= MAX_SAFE && p != q
    ensures Verify(mac, CreatePlain(mac, p, id), q).Some? <==> mac(Payload(Plain(p, id))) == mac(Payload(Plain(q, id)))
    ensures ReadLink(mac, CreatePlain(mac, p, id), q).Some? <==> mac(Payload(Plain(p, id))) == mac(Payload(Plain(q, id)))
    ensures Payload(Plain(p, id)) != Payload(Plain(q, id))
  {
    if Payload(Plain(p, id)) == Payload(Plain(q, id)) { PayloadIsInjective(Plain(p, id), Plain(q, id)); }
    var sig := mac(Payload(Plain(p, id)));
    var t := CreatePlain(mac, p, id);
    assert IsMac(sig);
    MacHasNoDot(sig);
    Fields2(id, sig);
    DecimalReads(id);
    DecimalBegins(id);
    assert t[0] == Decimal(id)[0] && t[|t| - 1] == sig[31];
    NothingToTrim(t);
  }

  /** Links of appointments are never accepted where tickets and the waiting list are read, whatever the signatures. */
  lemma AppointmentLinksAreNotVerified(mac: Mac, p: Purpose, q: Purpose, id: nat, user: nat, version: nat)
    requires WellFormed(mac) && id <= MAX_SAFE && version <= MAX_SAFE
    ensures Verify(mac, CreateLink(mac, p, id, version), q) == None
    ensures Verify(mac, CreateStaffReview(mac, id, user, version), q) == None
  {
    ReadsBody(mac, p, id, version);
    var sig := mac(Payload(Versioned(p, id, version)));
    assert IsMac(sig);
    MacHasNoDot(sig);
    Fields3(id, version, sig);
    var t := CreateStaffReview(mac, id, user, version);
    var mark := mac(Payload(StaffMark(id, version, user)));
    StaffFields(mac, id, user, version);
    assert IsMac(mark);
    DecimalBegins(id);
    assert t[0] == Decimal(id)[0] && t[|t| - 1] == mark[31];
    NothingToTrim(t);
  }

  // ---- how long a link opens ----

  function Rank(m: Mode): nat {
    match m
    case Current => 2
    case Previous => 1
    case Shut => 0
  }

  /** The same appointment at a later moment: versions only go up. */
  predicate Later(a: Appointment, now: int, b: Appointment, later: int) {
    a.id == b.id && a.endAt == b.endAt && a.linkVersion <= b.linkVersion && now <= later
  }

  /** A link of another appointment, past its days, or not newer than the appointment's version. */
  predicate NotNewer(link: Option<Link>, p: Purpose, a: Appointment, now: int) {
    link.None? || link.value.id != a.id || now > a.endAt + Days(p) * DAY || link.value.version <= a.linkVersion
  }

  const LIFE_OF_MANAGE := 1_209_600_000   // 14 days in milliseconds
  const LIFE_OF_REVIEW := 2_592_000_000   // 30 days

  /**
   A link made for an appointment opens it while the version is that one, and, to manage it, shows
   it while the version is the next; until 14 days after the appointment's end, 30 for a review.
   */
  lemma CreatedLinkOpens(mac: Mac, p: Purpose, version: nat, a: Appointment, now: int)
    requires WellFormed(mac) && a.id <= MAX_SAFE && version <= MAX_SAFE && (p == Manage || p == Review)
    ensures var m := LinkMode(mac, CreateLink(mac, p, a.id, version), p, a, now);
      var inTime := now - a.endAt <= if p == Manage then LIFE_OF_MANAGE else LIFE_OF_REVIEW;
      && (m == Current <==> inTime && a.linkVersion == version)
      && (m == Previous <==> inTime && p == Manage && a.linkVersion == version + 1)
  {
    LinkRoundTrip(mac, p, a.id, version);
  }

  /** No link opens another appointment. */
  lemma OtherAppointmentIsShut(mac: Mac, p: Purpose, id: nat, version: nat, a: Appointment, now: int)
    requires WellFormed(mac) && id <= MAX_SAFE && version <= MAX_SAFE && (p == Manage || p == Review) && id != a.id
    ensures LinkMode(mac, CreateLink(mac, p, id, version), p, a, now) == Shut
  {
    LinkRoundTrip(mac, p, id, version);
  }

  /**
   As versions go up and time passes, a link goes from current to previous to nothing and never
   back, exactly when it is not signed for a version the appointment has not reached yet.
   */
  lemma ModeOnlyDegrades(link: Option<Link>, p: Purpose, a: Appointment, now: int)
    ensures (forall b, later | Later(a, now, b, later) :: Rank(ModeOf(link, p, b, later)) <= Rank(ModeOf(link, p, a, now)))
      <==> NotNewer(link, p, a, now)
  {
    if !NotNewer(link, p, a, now) {
      var b := a.(linkVersion := link.value.version);
      assert Later(a, now, b, now) && ModeOf(link, p, b, now) == Current;
    }
  }
}
