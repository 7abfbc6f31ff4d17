/** One ticket card of the admin dashboard: badge styling looked up from the
    ticket's priority and type, the badge and footer texts, and the admin
    note editor's state. */
module TicketCard {
  import opened Wrappers
  import opened Text
  import opened Tickets

  datatype Icon = AlertTriangle | Clock | CheckCircle | Bot | Settings

  datatype PriorityConfig = PriorityConfig(color: string, icon: Icon, pulse: string)

  datatype TypeConfig = TypeConfig(color: string, icon: Icon, name: string)

  const HighConfig := PriorityConfig("text-red-700 bg-red-100 border-red-200", AlertTriangle, "animate-pulse")
  const MediumConfig := PriorityConfig("text-yellow-700 bg-yellow-100 border-yellow-200", Clock, "")
  const LowConfig := PriorityConfig("text-green-700 bg-green-100 border-green-200", CheckCircle, "")

  const SoftwareConfig := TypeConfig("text-blue-700 bg-blue-100 border-blue-200", Bot, "Software")
  const HardwareConfig := TypeConfig("text-red-700 bg-red-100 border-red-200", Settings, "Hardware")
  const GeneralConfig := TypeConfig("text-gray-700 bg-gray-100 border-gray-200", Settings, "General")

  /** The lookup key: `value?.toLowerCase()`; a missing value gives the key
      "undefined", which no table has. */
  function Key(value: Option<string>): (k: Option<string>)
    ensures value.Some? ==> k == Some(Lower(value.value))
    ensures value.None? ==> k.None?
  {
    if value.Some? then Some(Lower(value.value)) else None
  }

  // ---------------------------------------------------------------------
  // The lookups as the card should perform them
  // ---------------------------------------------------------------------

  /** `getPriorityConfig`: "high", "medium" and "low" in any letter case
      select their style; anything else, or no priority, gets the medium
      style. */
  function GetPriorityConfig(priority: Option<string>): (c: PriorityConfig)
    ensures c in {HighConfig, MediumConfig, LowConfig}
    ensures c == HighConfig <==> Key(priority) == Some("high")
    ensures c == LowConfig <==> Key(priority) == Some("low")
  {
    match Key(priority)
    case Some(k) =>
      if k == "high" then HighConfig
      else if k == "low" then LowConfig
      else MediumConfig
    case None => MediumConfig
  }

  /** `getTypeConfig`: "software" and "hardware" in any letter case select
      their style; anything else is labelled "General". */
  function GetTypeConfig(ticketType: Option<string>): (c: TypeConfig)
    ensures c in {SoftwareConfig, HardwareConfig, GeneralConfig}
    ensures c == SoftwareConfig <==> Key(ticketType) == Some("software")
    ensures c == HardwareConfig <==> Key(ticketType) == Some("hardware")
  {
    match Key(ticketType)
    case Some(k) =>
      if k == "software" then SoftwareConfig
      else if k == "hardware" then HardwareConfig
      else GeneralConfig
    case None => GeneralConfig
  }

  /** Letter case never changes the style. */
  lemma LookupsIgnoreCase(v: string)
    ensures GetPriorityConfig(Some(v)) == GetPriorityConfig(Some(Lower(v)))
    ensures GetPriorityConfig(Some(v)) == GetPriorityConfig(Some(Upper(v)))
    ensures GetTypeConfig(Some(v)) == GetTypeConfig(Some(Lower(v)))
    ensures GetTypeConfig(Some(v)) == GetTypeConfig(Some(Upper(v)))
  {
    LowerIdempotent(v);
    LowerUpper(v);
  }

  // ---------------------------------------------------------------------
  // The lookups as written: indexing a plain object literal
  // ---------------------------------------------------------------------

  /** What `configs[key]` yields on an object literal: one of its own
      entries, a member inherited from `Object.prototype`, or `undefined`. */
  datatype Lookup<T> = Own(config: T) | Inherited(member: string) | Absent

  /** The inherited members whose names are entirely lower case, so that a
      lower-cased key can reach them: the `Object` constructor function and
      the `Object.prototype` accessor. Both are truthy. */
  predicate InheritedName(k: string) {
    k == "constructor" || k == "__proto__"
  }

  function PriorityTable(k: string): Lookup<PriorityConfig> {
    if k == "high" then Own(HighConfig)
    else if k == "medium" then Own(MediumConfig)
    else if k == "low" then Own(LowConfig)
    else if InheritedName(k) then Inherited(k)
    else Absent
  }

  function TypeTable(k: string): Lookup<TypeConfig> {
    if k == "software" then Own(SoftwareConfig)
    else if k == "hardware" then Own(HardwareConfig)
    else if InheritedName(k) then Inherited(k)
    else Absent
  }

  /** `configs[priority?.toLowerCase()] || configs.medium`: any truthy
      result of the index is kept, inherited members included. */
  function GetPriorityConfigAsWritten(priority: Option<string>): (r: Lookup<PriorityConfig>)
    ensures r.Own? || r.Inherited?
    ensures r.Inherited? <==> priority.Some? && InheritedName(Lower(priority.value))
  {
    match Key(priority)
    case Some(k) => if PriorityTable(k).Absent? then Own(MediumConfig) else PriorityTable(k)
    case None => Own(MediumConfig)
  }

  function GetTypeConfigAsWritten(ticketType: Option<string>): (r: Lookup<TypeConfig>)
    ensures r.Own? || r.Inherited?
    ensures r.Inherited? <==> ticketType.Some? && InheritedName(Lower(ticketType.value))
  {
    match Key(ticketType)
    case Some(k) => if TypeTable(k).Absent? then Own(GeneralConfig) else TypeTable(k)
    case None => Own(GeneralConfig)
  }

  /** Apart from the two inherited names, the written lookups give what the
      corrected ones give. */
  lemma AsWrittenAgreesElsewhere(v: Option<string>)
    requires v.Some? ==> !InheritedName(Lower(v.value))
    ensures GetPriorityConfigAsWritten(v) == Own(GetPriorityConfig(v))
    ensures GetTypeConfigAsWritten(v) == Own(GetTypeConfig(v))
  {
  }

  /** A ticket whose priority is "Constructor" gets no style at all from the
      written lookup (the `Object` function has no icon to render), while the
      medium style was meant. */
  lemma ConstructorPriorityHasNoStyle(p: string)
    requires p == "Constructor"
    ensures GetPriorityConfigAsWritten(Some(p)).Inherited?
    ensures GetPriorityConfig(Some(p)) == MediumConfig
  {
    assert Lower(p) == "constructor";
  }

  /** The same for a ticket type "__PROTO__", which was meant to be
      labelled "General". */
  lemma ProtoTypeHasNoStyle(t: string)
    requires t == "__PROTO__"
    ensures GetTypeConfigAsWritten(Some(t)).Inherited?
    ensures GetTypeConfig(Some(t)) == GeneralConfig
  {
    assert Lower(t) == "__proto__";
  }

  // ---------------------------------------------------------------------
  // Texts shown on the card
  // ---------------------------------------------------------------------

  /** `ticket.priority?.toUpperCase() || 'MEDIUM'`. */
  function PriorityLabel(priority: Option<string>): (badge: string)
    ensures Truthy(priority) ==> badge == Upper(priority.value)
    ensures !Truthy(priority) ==> badge == "MEDIUM"
  {
    match priority
    case Some(p) => if Upper(p) != "" then Upper(p) else "MEDIUM"
    case None => "MEDIUM"
  }

  /** An unknown priority keeps its own text on the badge but takes the
      medium style. */
  lemma UnknownPriorityBadge(p: string)
    requires Lower(p) !in {"high", "medium", "low"}
    requires p != ""
    ensures PriorityLabel(Some(p)) == Upper(p)
    ensures GetPriorityConfig(Some(p)) == MediumConfig
  {
  }

  /** The "Resolved" badge: shown exactly when the resolution is non-empty. */
  predicate ShowsResolved(t: Ticket)
    ensures ShowsResolved(t) ==> t.resolution.Some? && |t.resolution.value| > 0
    ensures t.resolution == Some("") ==> !ShowsResolved(t)
  {
    Truthy(t.resolution)
  }

  /** `ticket.admin_solution || 'No admin notes available'`. */
  function AdminNotesText(t: Ticket): (text: string)
    ensures Truthy(t.adminSolution) ==> text == t.adminSolution.value
    ensures !Truthy(t.adminSolution) ==> text == "No admin notes available"
  {
    OrElse(t.adminSolution, "No admin notes available")
  }

  /** Saving an admin note changes the note shown but never the badge or
      the "Resolved" marker. */
  lemma SavedNoteShown(t: Ticket, solution: string)
    requires solution != ""
    ensures AdminNotesText(t.(adminSolution := Some(solution))) == solution
    ensures ShowsResolved(t.(adminSolution := Some(solution))) == ShowsResolved(t)
    ensures GetPriorityConfig(t.(adminSolution := Some(solution)).priority) == GetPriorityConfig(t.priority)
  {
  }

  // ---------------------------------------------------------------------
  // The admin note editor
  // ---------------------------------------------------------------------

  class TicketCardState {
    const ticket: Ticket
    var isEditing: bool
    var draft: string

    /** The draft starts as the saved note, or empty. */
    constructor (t: Ticket)
      ensures ticket == t && !isEditing
      ensures draft == OrElse(t.adminSolution, "")
    {
      ticket := t;
      isEditing := false;
      draft := OrElse(t.adminSolution, "");
    }

    /** The Edit / Cancel button only flips the mode; a cancelled draft is
        kept. */
    method ToggleEdit()
      modifies this
      ensures isEditing == !old(isEditing) && draft == old(draft)
    {
      isEditing := !isEditing;
    }

    /** Typing in the note's text area, which exists only in edit mode. */
    method EditDraft(value: string)
      requires isEditing
      modifies this
      ensures draft == value && isEditing == old(isEditing)
    {
      draft := value;
    }

    /** `handleSaveAdminSolution`: the callback, when there is one, receives
        the ticket id and the draft; the card always leaves edit mode. */
    method Save(hasCallback: bool) returns (call: Option<(TicketId, string)>)
      modifies this
      ensures !isEditing && draft == old(draft)
      ensures hasCallback ==> call == Some((ticket.id, draft))
      ensures !hasCallback ==> call == None
    {
      if hasCallback {
        call := Some((ticket.id, draft));
      } else {
        call := None;
      }
      isEditing := false;
    }
  }
}
