/**
 * The host functions the agents call as tools: `update_session_state`,
 * `exit_loop`, `add_guest`, `get_guest_list` and `send_email`. They act on
 * two pieces of mutable state: the per-session tool context (its state
 * dictionary and the loop-escalation flag) and the process-wide guest
 * database, which is shared by every session.
 */
module Tools {
  import opened Wrappers
  import opened GuestTable
  import Decimal

  /** A value kept in the session state: a string, an int, or a dict of strings. */
  datatype Value = Str(s: string) | Int(n: int) | Dict(entries: map<string, string>)

  /** The Python exception a tool raises. */
  datatype ToolError = TypeError | KeyError(key: string)

  /** One simulated email, as `send_email` writes it out. */
  datatype Email = Email(toName: string, toAddress: string, subject: string, body: string)

  const EventType := "event_type"
  const City := "city"
  const Budget := "budget"
  const GuestList := "guest_list"
  const EmailDraft := "email_draft"

  /** The state keys `update_session_state` writes. */
  const SessionParameterKeys: set<string> := {EventType, City, Budget}

  const StateUpdatedMessage := "Session state has been updated with event parameters."
  const BudgetApprovedMessage := "Budget approved. Finalizing plan."
  const EmptyGuestListMessage := "The guest list is currently empty."
  const NoGuestsMessage := "There are no guests on the list to email."

  /** `f"Successfully added {name} to the guest list."`: the fixed text around the name. */
  function AddedMessage(name: string): (r: string)
    ensures |r| == |name| + 38
    ensures r[..19] == "Successfully added " && r[19..|r| - 19] == name && r[|r| - 19..] == " to the guest list."
  {
    "Successfully added " + name + " to the guest list."
  }

  /** `f"Successfully prepared simulated emails for {len(guest_list)} guests."`. */
  function SentMessage(count: nat): (r: string)
    ensures |r| == |Decimal.Show(count)| + 51
    ensures r[..43] == "Successfully prepared simulated emails for "
    ensures r[43..|r| - 8] == Decimal.Show(count) && r[|r| - 8..] == " guests."
  {
    "Successfully prepared simulated emails for " + Decimal.Show(count) + " guests."
  }

  /** The database as it stands when the program starts. */
  const InitialGuests: Table :=
    Table(["john.doe@email.com", "kai.trump@email.com"],
          map["john.doe@email.com" := "John Doe", "kai.trump@email.com" := "Kai Trump"])

  lemma InitialGuestsValid()
    ensures Valid(InitialGuests) && |InitialGuests.names| == 2
  {
  }

  /** What the per-session tool context exposes to a tool. */
  class ToolContext {
    var state: map<string, Value>
    var escalate: bool

    constructor (state: map<string, Value>)
      ensures this.state == state && !escalate
    {
      this.state := state;
      escalate := false;
    }
  }

  /** The global guest database, email -> name, in insertion order. */
  class GuestDatabase {
    var order: seq<string>
    var names: map<string, string>

    function Contents(): Table
      reads this
    {
      Table(order, names)
    }

    ghost predicate Valid()
      reads this
    {
      GuestTable.Valid(Contents())
    }

    constructor ()
      ensures Valid() && Contents() == InitialGuests
    {
      order := InitialGuests.order;
      names := InitialGuests.names;
    }

    /** `add_guest(name, email)`: `GUEST_DATABASE[email] = name`. */
    method AddGuest(name: string, email: string) returns (r: string)
      requires Valid()
      modifies this
      ensures Valid()
      ensures Contents() == Put(old(Contents()), email, name)
      ensures r == AddedMessage(name)
    {
      if email !in names {
        order := order + [email];
      }
      names := names[email := name];
      r := AddedMessage(name);
    }
  }

  /** `update_session_state`: writes the three event parameters and nothing else. */
  method UpdateSessionState(ctx: ToolContext, eventType: string, city: string, budget: int) returns (r: string)
    modifies ctx`state
    ensures ctx.state.Keys == old(ctx.state.Keys) + SessionParameterKeys
    ensures ctx.state[EventType] == Str(eventType)
    ensures ctx.state[City] == Str(city)
    ensures ctx.state[Budget] == Int(budget)
    ensures forall k :: k in old(ctx.state) && k !in SessionParameterKeys ==> ctx.state[k] == old(ctx.state[k])
    ensures r == StateUpdatedMessage
  {
    ctx.state := ctx.state[EventType := Str(eventType)];
    ctx.state := ctx.state[City := Str(city)];
    ctx.state := ctx.state[Budget := Int(budget)];
    r := StateUpdatedMessage;
  }

  /** `exit_loop`: raises the escalation flag; the state is left alone. */
  method ExitLoop(ctx: ToolContext) returns (r: string)
    modifies ctx`escalate
    ensures ctx.escalate && ctx.state == old(ctx.state)
    ensures r == BudgetApprovedMessage
  {
    ctx.escalate := true;
    r := BudgetApprovedMessage;
  }

  /** A second `exit_loop` leaves the context exactly as the first left it. */
  method ExitLoopTwice(ctx: ToolContext) returns (first: string, second: string)
    modifies ctx
    ensures ctx.escalate && ctx.state == old(ctx.state)
    ensures first == second == BudgetApprovedMessage
  {
    first := ExitLoop(ctx);
    ghost var afterFirst := ctx.escalate;
    second := ExitLoop(ctx);
    assert ctx.escalate == afterFirst;
  }

  /**
   * `get_guest_list`: on an empty database, a fixed message and no write;
   * otherwise the database is copied into `state["guest_list"]` and
   * returned as JSON.
   */
  method GetGuestList(ctx: ToolContext, db: GuestDatabase) returns (r: string)
    requires db.Valid()
    modifies ctx`state
    ensures db.names == map[] ==> r == EmptyGuestListMessage && ctx.state == old(ctx.state)
    ensures db.names != map[] ==> ctx.state == old(ctx.state)[GuestList := Dict(db.names)]
    ensures db.names != map[] ==> r == Dumps(db.Contents())
  {
    if db.names == map[] {
      r := EmptyGuestListMessage;
      return;
    }
    ctx.state := ctx.state[GuestList := Dict(db.names)];
    r := Dumps(db.Contents());
  }

  /** `value[key]` for a state value `value` that may be missing (`None`). */
  function Subscript(value: Option<Value>, key: string): (r: Result<string, ToolError>)
    ensures r.Ok? <==> value.Some? && value.value.Dict? && key in value.value.entries
    ensures r.Ok? ==> r.value == value.value.entries[key]
    ensures r.Err? && value.Some? && value.value.Dict? ==> r.error == KeyError(key)
    ensures r.Err? && !(value.Some? && value.value.Dict?) ==> r.error == TypeError
  {
    match value
    case None => Err(TypeError)
    case Some(Dict(m)) => if key in m then Ok(m[key]) else Err(KeyError(key))
    case Some(_) => Err(TypeError)
  }

  /** `state.get(key)`: the value under `key`, or `None` when it is absent. */
  function Get(state: map<string, Value>, key: string): (r: Option<Value>)
    ensures r.Some? <==> key in state
    ensures r.Some? ==> r.value == state[key]
  {
    if key in state then Some(state[key]) else None
  }

  /** The subject and body `send_email` needs from `state["email_draft"]`, or the exception it raises first. */
  function DraftOf(state: map<string, Value>): (r: Result<(string, string), ToolError>)
    ensures r.Ok? <==> EmailDraft in state && state[EmailDraft].Dict?
                        && "subject" in state[EmailDraft].entries && "body" in state[EmailDraft].entries
    ensures r.Ok? ==> r.value == (state[EmailDraft].entries["subject"], state[EmailDraft].entries["body"])
    ensures r.Err? && !(EmailDraft in state && state[EmailDraft].Dict?) ==> r.error == TypeError
    ensures r.Err? && EmailDraft in state && state[EmailDraft].Dict? ==>
              r.error == KeyError(if "subject" in state[EmailDraft].entries then "body" else "subject")
  {
    var draft := Get(state, EmailDraft);
    match Subscript(draft, "subject")
    case Err(e) => Err(e)
    case Ok(subject) =>
      match Subscript(draft, "body")
      case Err(e) => Err(e)
      case Ok(body) => Ok((subject, body))
  }

  /**
   * `send_email`: changes nothing. With no guests it returns a fixed message
   * whatever the draft is; otherwise it writes one email per guest, in the
   * database's order, from the draft's subject and body, and reports their
   * number, or raises if the draft is missing or lacks a field.
   */
  method SendEmail(ctx: ToolContext, db: GuestDatabase) returns (r: Result<string, ToolError>, outbox: seq<Email>)
    requires db.Valid()
    ensures db.names == map[] ==> r == Ok(NoGuestsMessage) && outbox == []
    ensures db.names != map[] && DraftOf(ctx.state).Err? ==> r == Err(DraftOf(ctx.state).error) && outbox == []
    ensures db.names != map[] && DraftOf(ctx.state).Ok? ==>
              r == Ok(SentMessage(|db.names|)) && |outbox| == |db.order| == |db.names|
    ensures db.names != map[] && DraftOf(ctx.state).Ok? ==>
              forall k :: 0 <= k < |outbox| ==>
                outbox[k] == Email(db.names[db.order[k]], db.order[k],
                                   DraftOf(ctx.state).value.0, DraftOf(ctx.state).value.1)
  {
    var guests := db.Contents();
    var emailDraft := Get(ctx.state, EmailDraft);
    if guests.names == map[] {
      return Ok(NoGuestsMessage), [];
    }
    SizeIsLength(guests);
    outbox := [];
    var i := 0;
    while i < |guests.order|
      invariant 0 <= i <= |guests.order|
      invariant i > 0 ==> DraftOf(ctx.state).Ok?
      invariant |outbox| == i
      invariant forall k :: 0 <= k < i ==>
                  outbox[k] == Email(guests.names[guests.order[k]], guests.order[k],
                                     DraftOf(ctx.state).value.0, DraftOf(ctx.state).value.1)
    {
      var email := guests.order[i];
      var name := guests.names[email];
      var subject := Subscript(emailDraft, "subject");
      if subject.Err? {
        return Err(subject.error), [];
      }
      var body := Subscript(emailDraft, "body");
      if body.Err? {
        return Err(body.error), [];
      }
      outbox := outbox + [Email(name, email, subject.value, body.value)];
      i := i + 1;
    }
    r := Ok(SentMessage(|guests.names|));
  }

  /** Every guest in the database receives one of the emails `send_email` writes. */
  lemma EveryGuestEmailed(t: Table, outbox: seq<Email>, subject: string, body: string)
    requires Valid(t)
    requires |outbox| == |t.order|
    requires forall k :: 0 <= k < |outbox| ==> outbox[k] == Email(t.names[t.order[k]], t.order[k], subject, body)
    ensures forall e :: e in t.names ==> exists k :: 0 <= k < |outbox| && outbox[k].toAddress == e && outbox[k].toName == t.names[e]
  {
  }

  /** The count in `send_email`'s message reads back as the number of guests. */
  lemma SentMessageCount(count: nat)
    ensures |SentMessage(count)| > 0
    ensures var digits := SentMessage(count)[43..|SentMessage(count)| - 8];
            (forall i :: 0 <= i < |digits| ==> Decimal.IsDigit(digits[i])) && Decimal.Parse(digits) == count
  {
    var s := Decimal.Show(count);
    assert SentMessage(count)[43..|SentMessage(count)| - 8] == s;
    Decimal.ParseShow(count);
  }
}
