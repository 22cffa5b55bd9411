/** The data the automations engine reads and writes while it handles one event:
    the event's contact and enrollment rows, the workspace suppression list and the
    two run-history tables, together with everything a delivery can observe but not
    change (stored automations, which seams are wired, which calls throw). */
module RuleModel {
  import opened Options

  type Id = string

  /** A rule run deeper than this is refused. */
  const MAX_RULE_CAUSATION_DEPTH: nat := 2

  datatype Action =
    | MoveToNode(targetNodeId: Id)
    | EndEnrollment
    | PauseEnrollment
    | SuppressContact
    | SetStage(stage: string)
    | NotifyTeam
    | AddTag(tag: string)
    | SendBookingLink
    | SendPaymentLink
    | SendWebhook
    | CreateCrmDeal
    | UpdateDealStage(dealStage: string)
    | RunAutomation(automationId: Id)

  predicate IsTerminal(a: Action) {
    a.MoveToNode? || a.EndEnrollment? || a.PauseEnrollment? || a.SuppressContact?
  }

  /** A stored automation; an action list that does not parse is represented by []. */
  datatype Automation = Automation(enabled: bool, actions: seq<Action>)

  datatype Scope = Campaign | Account
  datatype RuleRef = RuleRef(scope: Scope, id: Id)
  datatype Rule = Rule(ref: RuleRef, actions: seq<Action>)

  // ---- Where an action sits in the tree of executions ------------------------------

  /** One piece of an action path: "#a:<index>" or "#auto:<id>". */
  datatype Segment = At(index: nat) | Auto(id: Id)
  type Path = seq<Segment>
  datatype Site = Site(rule: RuleRef, path: Path)

  // ---- Stored rows -----------------------------------------------------------------

  datatype Channel = Email | Sms
  datatype Address = Address(channel: Channel, address: string)
  datatype Status = ACTIVE | PAUSED | DONE | UNSUBSCRIBED | BOUNCED

  /** `email` is the lower-cased address. */
  datatype Contact = Contact(tags: seq<string>, email: Option<string>, phone: Option<string>, optOut: set<Channel>)

  /** `blocked` is the rule named by the audit note of a pause. */
  datatype Enrollment = Enrollment(
    status: Status,
    stage: string,
    blocked: Option<Id>,
    bookingLinkRequested: bool,
    paymentLinkRequested: bool,
    crmDealId: Option<string>)

  datatype RunStatus = Fired | SkippedConflict | RefusedDepth | Errored
  datatype RunKey = RunKey(rule: RuleRef, eventId: Id)
  datatype Run = Run(status: RunStatus, terminal: bool, depth: nat)

  /** Suppressions map each address to the rule that created its row. */
  datatype Db = Db(
    contact: Option<Contact>,
    enrollment: Option<Enrollment>,
    suppressions: map<Address, Id>,
    runs: map<RunKey, Run>)

  /** An active enrollment without its contact, and nothing recorded. */
  const ACTIVE_ROWS: Db := Db(None, Some(Enrollment(ACTIVE, "new", None, false, false, None)), map[], map[])

  function Addresses(c: Contact): set<Address> {
    (if c.email.Some? then {Address(Email, c.email.value)} else {})
    + (if c.phone.Some? then {Address(Sms, c.phone.value)} else {})
  }

  /** The addresses that a suppress_contact execution would create rows for. */
  function Unsuppressed(db: Db): set<Address> {
    if db.contact.Some? then Addresses(db.contact.value) - db.suppressions.Keys else {}
  }

  // ---- What a delivery can observe but not change ----------------------------------

  /** What the event says about a row: no id, an id without a row, or an existing row. */
  datatype Ref = Absent | Dangling | Present

  /** `faults` are the actions whose storage or workflow call throws, `recordFaults` the
      run_automation actions whose own history row cannot be written, `deals` the deal
      ids the CRM answers with. */
  datatype Ctx = Ctx(
    eventId: Id,
    contact: Ref,
    enrollment: Ref,
    hasEmail: bool,
    automations: map<Id, Automation>,
    moveWired: bool,
    crmWired: bool,
    deals: map<Site, string>,
    faults: set<Site>,
    recordFaults: set<Site>)

  /** The rows are the ones the event points at. */
  predicate Fits(w: Ctx, db: Db) {
    && (w.contact.Present? <==> db.contact.Some?)
    && (w.enrollment.Present? <==> db.enrollment.Some?)
    && (db.contact.Some? ==> db.contact.value.email.Some? == w.hasEmail)
  }

  // ---- What an action writes -------------------------------------------------------

  datatype Effect =
    | NoEffect
    | EndIt
    | PauseIt(rule: Id)
    | Suppress(rule: Id, alsoEnrollment: bool)
    | Stage(stage: string)
    | Tag(tag: string)
    | BookingFlag
    | PaymentFlag
    | Deal(deal: string)

  function ApplyToEnrollment(e: Enrollment, f: Effect): Enrollment {
    match f
    case EndIt => e.(status := DONE)
    case PauseIt(rule) => e.(status := PAUSED, blocked := Some(rule))
    case Suppress(_, also) => if also then e.(status := UNSUBSCRIBED) else e
    case Stage(s) => e.(stage := s)
    case BookingFlag => e.(bookingLinkRequested := true)
    case PaymentFlag => e.(paymentLinkRequested := true)
    case Deal(d) => e.(crmDealId := Some(d))
    case _ => e
  }

  function ApplyToContact(c: Contact, f: Effect): Contact {
    match f
    case Tag(t) => if t in c.tags then c else c.(tags := c.tags + [t])
    case Suppress(_, _) => c.(optOut := c.optOut + Channels(c))
    case _ => c
  }

  function Channels(c: Contact): set<Channel> {
    (if c.email.Some? then {Email} else {}) + (if c.phone.Some? then {Sms} else {})
  }

  function ApplyToSuppressions(m: map<Address, Id>, c: Contact, f: Effect): map<Address, Id> {
    match f
    case Suppress(rule, _) => (map a | a in Addresses(c) :: rule) + m
    case _ => m
  }

  function ApplyEffect(db: Db, f: Effect): Db {
    Db(
      if db.contact.Some? then Some(ApplyToContact(db.contact.value, f)) else None,
      if db.enrollment.Some? then Some(ApplyToEnrollment(db.enrollment.value, f)) else None,
      if db.contact.Some? then ApplyToSuppressions(db.suppressions, db.contact.value, f) else db.suppressions,
      db.runs)
  }

  /** The effect of one action that is not run_automation; None when the action ends in
      a typed error, which never leaves a write behind. */
  function EffectOf(w: Ctx, site: Site, a: Action): Option<Effect> {
    var faulty := site in w.faults;
    match a
    case MoveToNode(_) => if w.enrollment.Absent? || !w.moveWired || faulty then None else Some(NoEffect)
    case EndEnrollment => if w.enrollment.Present? && !faulty then Some(EndIt) else None
    case PauseEnrollment => if w.enrollment.Present? && !faulty then Some(PauseIt(site.rule.id)) else None
    case SuppressContact =>
      if w.contact.Present? && !w.enrollment.Dangling? && !faulty
      then Some(Suppress(site.rule.id, w.enrollment.Present?)) else None
    case SetStage(s) => if w.enrollment.Present? && !faulty then Some(Stage(s)) else None
    case NotifyTeam => Some(NoEffect)
    case AddTag(t) => if w.contact.Present? && !faulty then Some(Tag(t)) else None
    case SendBookingLink => LinkFlag(w, faulty, BookingFlag)
    case SendPaymentLink => LinkFlag(w, faulty, PaymentFlag)
    case SendWebhook => Some(NoEffect)
    case CreateCrmDeal =>
      if w.contact.Absent? || !w.crmWired then Some(NoEffect)
      else if faulty then None
      else if w.contact.Dangling? || !w.hasEmail then Some(NoEffect)
      else if site in w.deals && w.enrollment.Present? then Some(Deal(w.deals[site]))
      else Some(NoEffect)
    case UpdateDealStage(_) =>
      if w.contact.Absent? || !w.crmWired || w.enrollment.Absent? then Some(NoEffect)
      else if faulty then None else Some(NoEffect)
    case RunAutomation(_) => None
  }

  function LinkFlag(w: Ctx, faulty: bool, flag: Effect): Option<Effect> {
    if w.enrollment.Absent? then Some(NoEffect)
    else if w.enrollment.Present? && !faulty then Some(flag) else None
  }
}
