/** The support page: every ticket loaded at once, a status filter, the
    status cards, and the two buttons that move a ticket forward through
    OPEN, IN_PROGRESS and CLOSED. A status update answered by the server
    replaces the ticket (and the open details) in place. */
module SupportManagement {
  import opened Common
  import opened ApiService

  datatype SupportMessage = SupportMessage(id: int, content: string, isFromAdmin: bool, senderName: string, createdAt: string)

  /** A ticket as the server sends it; `messages` may be missing. */
  datatype Ticket = Ticket(id: int, subject: string, description: string, status: string, createdAt: string,
                           closedAt: Option<string>, userName: string, username: string,
                           messages: Option<seq<SupportMessage>>)

  /** `ticket.messages?.length || 0`. */
  function MessageCount(t: Ticket): (n: nat)
    ensures t.messages.None? ==> n == 0
    ensures t.messages.Some? ==> n == |t.messages.value|
  {
    if t.messages.Some? then |t.messages.value| else 0
  }

  // ---------------------------------------------------------------------
  // Lifecycle

  /** The forward button a ticket offers: "start handling" on an open
      ticket, "close" on one in progress, and nothing otherwise. */
  function NextStatus(status: string): (next: Option<string>)
    ensures status == "OPEN" <==> next == Some("IN_PROGRESS")
    ensures status == "IN_PROGRESS" <==> next == Some("CLOSED")
    ensures status !in {"OPEN", "IN_PROGRESS"} <==> next.None?
  {
    if status == "OPEN" then Some("IN_PROGRESS")
    else if status == "IN_PROGRESS" then Some("CLOSED")
    else None
  }

  /** How far along the lifecycle a status is. */
  function Stage(status: string): int {
    if status == "OPEN" then 0 else if status == "IN_PROGRESS" then 1 else 2
  }

  /** The buttons only ever move a ticket forward, so no ticket returns to
      a status it left, and a closed ticket offers nothing. */
  lemma TransitionsMoveForward(status: string)
    ensures NextStatus(status).Some? ==> Stage(NextStatus(status).value) == Stage(status) + 1
    ensures NextStatus("CLOSED").None?
  {
  }

  /** The statuses the buttons reach from `status`, following them until
      none is offered. */
  function Reachable(status: string, fuel: nat): (path: seq<string>)
    decreases fuel
  {
    if fuel == 0 then []
    else match NextStatus(status)
      case None => []
      case Some(n) => [n] + Reachable(n, fuel - 1)
  }

  /** From an open ticket the buttons lead through exactly IN_PROGRESS and
      then CLOSED, however many clicks are allowed. */
  lemma OpenTicketLifecycle(fuel: nat)
    requires fuel >= 2
    ensures Reachable("OPEN", fuel) == ["IN_PROGRESS", "CLOSED"]
  {
    assert Reachable("CLOSED", fuel - 2) == [];
  }

  // ---------------------------------------------------------------------
  // Filter and cards

  predicate HasStatus(status: string, t: Ticket) { t.status == status }

  /** `filteredTickets`: "all" keeps every ticket, any other value the
      tickets whose status equals it. */
  function FilteredTickets(tickets: seq<Ticket>, filterStatus: string): (r: seq<Ticket>)
    ensures filterStatus == "all" ==> r == tickets
    ensures filterStatus != "all" ==> forall t :: t in r <==> t in tickets && t.status == filterStatus
    ensures |r| <= |tickets|
  {
    if filterStatus == "all" then tickets else Filter(tickets, t => HasStatus(filterStatus, t))
  }

  function StatusCount(tickets: seq<Ticket>, status: string): nat {
    Count(tickets, t => HasStatus(status, t))
  }

  predicate KnownStatuses(tickets: seq<Ticket>) {
    forall i :: 0 <= i < |tickets| ==> tickets[i].status in {"OPEN", "IN_PROGRESS", "CLOSED"}
  }

  /** When every ticket has one of the three statuses, the open, in-progress
      and closed cards add up to the total card. */
  lemma {:induction false} StatsAddUp(tickets: seq<Ticket>)
    requires KnownStatuses(tickets)
    ensures StatusCount(tickets, "OPEN") + StatusCount(tickets, "IN_PROGRESS") + StatusCount(tickets, "CLOSED")
         == |tickets|
  {
    if tickets != [] {
      assert KnownStatuses(tickets[1..]) by {
        forall i | 0 <= i < |tickets[1..]| ensures tickets[1..][i].status in {"OPEN", "IN_PROGRESS", "CLOSED"} {
          assert tickets[1..][i] == tickets[i + 1];
        }
      }
      StatsAddUp(tickets[1..]);
    }
  }

  /** A ticket with another status is in none of the three cards. */
  lemma UnknownStatusCountsNowhere(t: Ticket)
    requires t.status !in {"OPEN", "IN_PROGRESS", "CLOSED"}
    ensures StatusCount([t], "OPEN") + StatusCount([t], "IN_PROGRESS") + StatusCount([t], "CLOSED") == 0
  {
    assert [t][1..] == [];
  }

  // ---------------------------------------------------------------------
  // Updates

  /** The id `prev.map` looks at. */
  function TicketId(t: Ticket): int { t.id }

  class SupportPage {
    var tickets: seq<Ticket>
    var loading: bool
    var selectedTicket: Option<Ticket>
    var showDetails: bool
    var filterStatus: string

    constructor()
      ensures tickets == [] && loading && selectedTicket == None && !showDetails && filterStatus == "all"
    {
      tickets := [];
      loading := true;
      selectedTicket := None;
      showDetails := false;
      filterStatus := "all";
    }

    /** `loadTickets`: a list in the answer replaces the tickets; an answer
        without data or a failure keeps them. */
    method LoadDone(outcome: Outcome<Option<seq<Ticket>>>)
      modifies this
      ensures outcome.Success? && outcome.data.Some? ==> tickets == outcome.data.value
      ensures !(outcome.Success? && outcome.data.Some?) ==> tickets == old(tickets)
      ensures !loading && selectedTicket == old(selectedTicket) && showDetails == old(showDetails)
      ensures filterStatus == old(filterStatus)
    {
      if outcome.Success? && outcome.data.Some? {
        tickets := outcome.data.value;
      }
      loading := false;
    }

    /** `updateTicketStatus`: a returned ticket replaces the tickets with
        that id, and the open details too when they show that id; no data or
        a failure changes nothing. */
    method UpdateTicketStatus(ticketId: int, status: string, outcome: Outcome<Option<Ticket>>) returns (call: Request)
      modifies this
      ensures call == UpdateTicketStatusRequest(ticketId, status)
      ensures outcome.Success? && outcome.data.Some? ==>
        tickets == ReplaceById(old(tickets), TicketId, ticketId, outcome.data.value)
        && (old(selectedTicket).Some? && old(selectedTicket).value.id == ticketId ==> selectedTicket == Some(outcome.data.value))
        && (!(old(selectedTicket).Some? && old(selectedTicket).value.id == ticketId) ==> selectedTicket == old(selectedTicket))
      ensures !(outcome.Success? && outcome.data.Some?) ==> tickets == old(tickets) && selectedTicket == old(selectedTicket)
      ensures |tickets| == |old(tickets)|
      ensures loading == old(loading) && showDetails == old(showDetails) && filterStatus == old(filterStatus)
    {
      call := UpdateTicketStatusRequest(ticketId, status);
      if outcome.Success? && outcome.data.Some? {
        tickets := ReplaceById(tickets, TicketId, ticketId, outcome.data.value);
        if selectedTicket.Some? && selectedTicket.value.id == ticketId {
          selectedTicket := Some(outcome.data.value);
        }
      }
    }

    /** The forward button of a list row: present only on open and
        in-progress tickets, and it asks for the next status. */
    method AdvanceFromList(t: Ticket, outcome: Outcome<Option<Ticket>>) returns (call: Option<Request>)
      modifies this
      ensures NextStatus(t.status).None? ==> call == None && tickets == old(tickets) && selectedTicket == old(selectedTicket)
      ensures NextStatus(t.status).Some? ==> call == Some(UpdateTicketStatusRequest(t.id, NextStatus(t.status).value))
      ensures NextStatus(t.status).Some? && outcome.Success? && outcome.data.Some? ==>
        tickets == ReplaceById(old(tickets), TicketId, t.id, outcome.data.value)
        && (old(selectedTicket).Some? && old(selectedTicket).value.id == t.id ==> selectedTicket == Some(outcome.data.value))
        && (!(old(selectedTicket).Some? && old(selectedTicket).value.id == t.id) ==> selectedTicket == old(selectedTicket))
      ensures !(outcome.Success? && outcome.data.Some?) ==> tickets == old(tickets) && selectedTicket == old(selectedTicket)
      ensures loading == old(loading) && showDetails == old(showDetails) && filterStatus == old(filterStatus)
    {
      var next := NextStatus(t.status);
      if next.None? {
        call := None;
      } else {
        var c := UpdateTicketStatus(t.id, next.value, outcome);
        call := Some(c);
      }
    }

    /** The forward button of the details window: it also closes the
        window. The window shows only while a ticket is selected. */
    method AdvanceFromDetails(outcome: Outcome<Option<Ticket>>) returns (call: Option<Request>)
      requires selectedTicket.Some?
      modifies this
      ensures var t := old(selectedTicket).value;
        NextStatus(t.status).None? ==>
          call == None && showDetails == old(showDetails) && tickets == old(tickets) && selectedTicket == old(selectedTicket)
      ensures var t := old(selectedTicket).value;
        NextStatus(t.status).Some? ==> call == Some(UpdateTicketStatusRequest(t.id, NextStatus(t.status).value)) && !showDetails
      ensures var t := old(selectedTicket).value;
        outcome.Success? && outcome.data.Some? && NextStatus(t.status).Some? ==>
          tickets == ReplaceById(old(tickets), TicketId, t.id, outcome.data.value) && selectedTicket == Some(outcome.data.value)
      ensures !(outcome.Success? && outcome.data.Some?) ==> tickets == old(tickets) && selectedTicket == old(selectedTicket)
      ensures loading == old(loading) && filterStatus == old(filterStatus)
    {
      var t := selectedTicket.value;
      var next := NextStatus(t.status);
      if next.None? {
        call := None;
      } else {
        var c := UpdateTicketStatus(t.id, next.value, outcome);
        showDetails := false;
        call := Some(c);
      }
    }

    method ViewDetails(t: Ticket)
      modifies this
      ensures selectedTicket == Some(t) && showDetails
      ensures tickets == old(tickets) && filterStatus == old(filterStatus) && loading == old(loading)
    {
      selectedTicket := Some(t);
      showDetails := true;
    }

    method SetFilterStatus(value: string)
      modifies this
      ensures filterStatus == value
      ensures tickets == old(tickets) && selectedTicket == old(selectedTicket) && showDetails == old(showDetails)
    {
      filterStatus := value;
    }
  }
}
