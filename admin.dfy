/** The administrator's escalation table (src/pages/Admin.tsx): the two
    status mappings, the "Open" badge count, the defaults for missing
    response data, the local status update of the selected escalation, the
    toast text, the session-id cell and the rules that enable the status
    buttons. Fetching, caching and rendering are not modelled. */
module Admin {
  import opened Wrappers
  import opened Text
  import SocketContext

  /** One escalation as the backend returns it. `status` is whatever
      string the server sent. */
  datatype Escalation = Escalation(
    id: string, sessionId: string, name: string, email: string, message: string,
    status: string, createdAt: string, updatedAt: string)

  datatype Pagination = Pagination(totalItems: Option<int>)
  datatype EscalationPage = EscalationPage(results: Option<seq<Escalation>>, pagination: Option<Pagination>)
  /** The body of `GET /escalation`; `None` while there is no data. */
  datatype EscalationResponse = EscalationResponse(message: string, data: Option<EscalationPage>)

  /** `escalationData?.data?.results || []` (an array is truthy even when empty). */
  function Escalations(response: Option<EscalationResponse>): (es: seq<Escalation>)
    ensures response.None? || response.value.data.None? || response.value.data.value.results.None? ==> es == []
    ensures response.Some? && response.value.data.Some? && response.value.data.value.results.Some? ==>
              es == response.value.data.value.results.value
  {
    if response.Some? && response.value.data.Some? then response.value.data.value.results.GetOr([]) else []
  }

  /** `escalationData?.data?.pagination?.totalItems || 0`: a present total
      is shown, and any missing link shows 0. */
  function TotalItems(response: Option<EscalationResponse>): (total: int)
    ensures (response.None? || response.value.data.None? || response.value.data.value.pagination.None?) ==> total == 0
    ensures response.Some? && response.value.data.Some? && response.value.data.value.pagination.Some? ==>
              total == response.value.data.value.pagination.value.totalItems.GetOr(0)
  {
    if response.Some? && response.value.data.Some? && response.value.data.value.pagination.Some? then
      response.value.data.value.pagination.value.totalItems.GetOr(0)
    else 0
  }

  /** The statuses `updateEscalationStatus` is called with. */
  datatype StatusUpdate = MarkOpen | MarkInProgress | MarkClosed

  function StatusText(u: StatusUpdate): string {
    match u
    case MarkOpen => "open"
    case MarkInProgress => "in_progress"
    case MarkClosed => "closed"
  }

  datatype BadgeVariant = Destructive | Default | Secondary

  /** `getStatusColor`: the lower-cased status decides; "in_progress" and
      every unknown status share the default badge. */
  function StatusColor(status: string): (v: BadgeVariant)
    ensures v == Destructive <==> Lower(status) == "open"
    ensures v == Secondary <==> Lower(status) == "closed"
    ensures v == Default <==> Lower(status) != "open" && Lower(status) != "closed"
  {
    var s := Lower(status);
    if s == "open" then Destructive
    else if s == "in_progress" then Default
    else if s == "closed" then Secondary
    else Default
  }

  /** `getStatusDisplay`: the three known statuses, in any case, get their
      label; any other string is shown unchanged, in its own case. */
  function StatusDisplay(status: string): (d: string)
    ensures Lower(status) == "open" ==> d == "Open"
    ensures Lower(status) == "in_progress" ==> d == "In Progress"
    ensures Lower(status) == "closed" ==> d == "Closed"
    ensures Lower(status) != "open" && Lower(status) != "in_progress" && Lower(status) != "closed" ==> d == status
  {
    var s := Lower(status);
    if s == "open" then "Open"
    else if s == "in_progress" then "In Progress"
    else if s == "closed" then "Closed"
    else status
  }

  lemma LabelsLowerCase()
    ensures Lower("Open") == "open" && Lower("Closed") == "closed" && Lower("In Progress") == "in progress"
  {
    assert Lower("Open") == "open" by { assert Lower("Open")[0] == LowerChar('O'); }
    assert Lower("Closed") == "closed" by { assert Lower("Closed")[0] == LowerChar('C'); }
    assert Lower("In Progress") == "in progress" by {
      assert Lower("In Progress")[0] == LowerChar('I') && Lower("In Progress")[3] == LowerChar('P');
    }
  }

  /** A label is shown as itself: displaying twice is displaying once. */
  lemma StatusDisplayIdempotent(status: string)
    ensures StatusDisplay(StatusDisplay(status)) == StatusDisplay(status)
  {
    LabelsLowerCase();
    assert "in progress" != "in_progress" by { assert "in progress"[2] != "in_progress"[2]; }
  }

  /** The badge colour of a label is the colour of the status it labels. */
  lemma StatusColorOfDisplay(status: string)
    ensures StatusColor(StatusDisplay(status)) == StatusColor(status)
  {
    LabelsLowerCase();
    assert "in progress" != "open" && "in progress" != "closed";
  }

  /** The number in the "Open" badge: escalations whose status is exactly
      "open", case included. */
  function OpenCount(es: seq<Escalation>): (n: nat)
    ensures n <= |es|
    ensures n == 0 <==> forall i :: 0 <= i < |es| ==> es[i].status != "open"
    ensures n == |es| <==> forall i :: 0 <= i < |es| ==> es[i].status == "open"
  {
    if es == [] then 0
    else
      var rest := OpenCount(es[1..]);
      assert forall i :: 1 <= i < |es| ==> es[i] == es[1..][i - 1];
      (if es[0].status == "open" then 1 else 0) + rest
  }

  /** Counting splits over concatenation, so appending an escalation raises
      the count by one exactly when its status is "open". */
  lemma {:induction false} OpenCountAppend(a: seq<Escalation>, b: seq<Escalation>)
    ensures OpenCount(a + b) == OpenCount(a) + OpenCount(b)
  {
    if a == [] {
      assert a + b == b;
    } else {
      assert (a + b)[1..] == a[1..] + b;
      OpenCountAppend(a[1..], b);
    }
  }

  /** The count is case-sensitive while the label is not: a row whose
      status came back from the backend as "Open" is labelled and coloured
      as open but is not counted. */
  lemma CapitalisedOpenIsNotCounted(e: Escalation)
    requires e.status == "Open"
    ensures OpenCount([e]) == 0 && StatusDisplay(e.status) == "Open" && StatusColor(e.status) == Destructive
  {
    LabelsLowerCase();
    assert "Open" != "open" by { assert "Open"[0] != "open"[0]; }
  }

  const ToastPrefix := "Escalation marked as "

  /** The toast's description, built with `status.replace("_", " ")`, which
      turns only the first underscore into a space (`ReplaceFirstAt`). */
  function ToastDescription(u: StatusUpdate): (d: string)
    ensures StartsWith(d, ToastPrefix) && |d| == |ToastPrefix| + |StatusText(u)|
  {
    ToastPrefix + ReplaceFirst(StatusText(u), '_', ' ')
  }

  /** The one status with an underscore. */
  lemma UnderscoreBecomesSpace(s: string)
    requires s == "in_progress"
    ensures ReplaceFirst(s, '_', ' ') == "in progress"
  {
    assert s == "in" + ['_'] + "progress";
    ReplaceFirstAt("in", '_', "progress", ' ');
    assert "in" + [' '] + "progress" == "in progress";
  }

  /** The toast texts: "in_progress" is announced as "in progress". */
  lemma ToastDescriptions(u: StatusUpdate)
    ensures ToastDescription(u) == ToastPrefix + match u
      case MarkOpen => "open"
      case MarkInProgress => "in progress"
      case MarkClosed => "closed"
  {
    var status := StatusText(u);
    match u
    case MarkInProgress => UnderscoreBecomesSpace(status);
    case MarkOpen => assert '_' !in status;
    case MarkClosed => assert '_' !in status;
  }

  /** The table's session-id cell: the first 8 characters and an ellipsis. */
  function SessionIdCell(sessionId: string): (cell: string)
    ensures |cell| == (if |sessionId| <= 8 then |sessionId| else 8) + 3
    ensures StartsWith(sessionId, cell[..|cell| - 3]) && cell[|cell| - 3..] == "..."
  {
    Take(sessionId, 8) + "..."
  }

  /** The dialog's "Mark as In Progress" button is disabled: the selection
      is shown as in progress. */
  predicate InProgressDisabled(e: Escalation)
    ensures InProgressDisabled(e) ==> StatusDisplay(e.status) == "In Progress" && StatusColor(e.status) == Default
  {
    LowerOfLowerCase("in_progress");
    e.status == "in_progress"
  }

  /** The dialog's "Mark as Closed" button is disabled: the selection is
      shown as closed. */
  predicate CloseDisabled(e: Escalation)
    ensures CloseDisabled(e) ==> StatusDisplay(e.status) == "Closed" && StatusColor(e.status) == Secondary
  {
    LowerOfLowerCase("closed");
    e.status == "closed"
  }

  /** A table row's quick-close button is shown: for the row's own
      escalation, the opposite of the dialog's closed rule. Of the three
      labels only "Closed" hides it. */
  predicate QuickCloseShown(e: Escalation)
    ensures QuickCloseShown(e) <==> !CloseDisabled(e)
    ensures !QuickCloseShown(e) ==> StatusDisplay(e.status) == "Closed"
  {
    e.status != "closed"
  }

  /** After an update, the dialog's button for the new status is the
      disabled one and the label is that of the new status. */
  lemma UpdatedStatusButtons(e: Escalation, u: StatusUpdate)
    ensures var e' := e.(status := StatusText(u));
            && (InProgressDisabled(e') <==> u == MarkInProgress)
            && (CloseDisabled(e') <==> u == MarkClosed)
            && StatusDisplay(e'.status) == match u
                 case MarkOpen => "Open"
                 case MarkInProgress => "In Progress"
                 case MarkClosed => "Closed"
  {
    LowerOfLowerCase("open");
    LowerOfLowerCase("in_progress");
    LowerOfLowerCase("closed");
  }

  class AdminView {
    /** The table: `escalationData?.data?.results || []` as last fetched.
        The local update never touches it. */
    const rows: seq<Escalation>
    var selected: Option<Escalation>

    constructor (response: Option<EscalationResponse>)
      ensures rows == Escalations(response) && selected == None
    {
      rows := Escalations(response);
      selected := None;
    }

    /** The view button of row `i`. */
    method Select(i: nat)
      requires i < |rows|
      modifies this
      ensures selected == Some(rows[i])
    {
      selected := Some(rows[i]);
    }

    /** The local part of `updateEscalationStatus`: the selection takes the
        new status only when it exists and has this id; the table rows, and
        so their quick-close buttons and the "Open" count, stay as fetched;
        the toast text is returned. */
    method UpdateEscalationStatus(id: string, status: StatusUpdate) returns (toast: string)
      modifies this
      ensures toast == ToastDescription(status)
      ensures selected == if old(selected).Some? && old(selected).value.id == id
                          then Some(old(selected).value.(status := StatusText(status)))
                          else old(selected)
    {
      toast := ToastDescription(status);
      if selected.Some? && selected.value.id == id {
        selected := Some(selected.value.(status := StatusText(status)));
      }
    }

    /** The cleanup of the page's `[resetMessage]` effect, which clears the
        socket's last message. It runs when the page unmounts, and also each
        time the provider renders while the page is mounted: the provider
        builds a new `resetMessage` on every render, so the effect's
        dependency changes and React runs the old cleanup before re-running
        the effect. */
    method ResetMessageCleanup(p: SocketContext.WebSocketProvider)
      requires p.Valid()
      modifies p
      ensures p.Valid() && p.message == None
      ensures p.ws == old(p.ws) && p.sessionId == old(p.sessionId) && p.effectSocket == old(p.effectSocket)
    {
      p.ResetMessage();
    }
  }

  /** While the admin page is mounted, an event the provider accepts does
      not stay in `message`: storing it re-renders the provider, and that
      render re-runs the page's effect, whose cleanup clears the slot. */
  method AcceptedEventIsClearedWhileMounted(view: AdminView, p: SocketContext.WebSocketProvider,
                                            s: SocketContext.Socket, e: SocketContext.InboundEvent)
    requires p.Valid() && s.readyState == SocketContext.Open && SocketContext.Accepts(e)
    modifies p
    ensures p.message == None
    ensures p.ws == (if SocketContext.BindsSocket(e) then s else old(p.ws)) && p.sessionId == old(p.sessionId)
    ensures p.effectSocket == old(p.effectSocket)
  {
    p.HandleMessage(s, e);
    assert p.message == Some(e);
    view.ResetMessageCleanup(p);
  }

  /** Closing an open escalation from its dialog disables the dialog's
      "Mark as Closed" button, while the row's quick-close button, which
      reads the fetched row, is still shown with the old label and the row
      is still counted as open. */
  method CloseFromDialog(response: Option<EscalationResponse>, i: nat)
    requires i < |Escalations(response)| && Escalations(response)[i].status == "open"
  {
    var view := new AdminView(response);
    view.Select(i);
    var toast := view.UpdateEscalationStatus(view.rows[i].id, MarkClosed);
    assert view.selected.Some? && CloseDisabled(view.selected.value);
    assert QuickCloseShown(view.rows[i]) && view.rows == Escalations(response);
    assert OpenCount(view.rows) > 0;
  }
}
