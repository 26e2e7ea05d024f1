// The editor's guest panel: the answer counts, the guest list with a badge per
// answer, adding one guest or many at once, and the links sent to a guest.

module GuestsPanel {
  import opened Wrappers
  import opened Text
  import opened Types
  import opened Utils

  /** What the dashboard request returns for an event. */
  datatype DashboardData = DashboardData(guests: seq<Guest>, stats: RSVPStats)

  datatype BadgeVariant = SuccessBadge | ErrorBadge | DefaultBadge

  /** One row of the guest list. */
  datatype GuestRow = GuestRow(name: string, badge: BadgeVariant, statusText: string, extraGuests: Option<string>)

  datatype GuestListView =
    | Spinner
    | NoGuests
    | Rows(rows: seq<GuestRow>)

  const NoStats := RSVPStats(0, 0, 0, 0)

  // ----- Adding guests -----

  /** The names of the bulk import: each line trimmed, blank lines dropped, in the order written. */
  function BulkNames(text: string): (names: seq<string>)
    ensures "" !in names
  {
    Kept(Split(text, '\n'))
  }

  /** The trimmed lines that are not empty after trimming, in order. */
  function Kept(lines: seq<string>): (names: seq<string>)
    ensures |names| <= |lines|
    ensures "" !in names
  {
    if |lines| == 0 then []
    else
      var name := Trim(lines[0]);
      (if name != "" then [name] else []) + Kept(lines[1..])
  }

  /** The first line's name, if it has one, comes before every name of the lines after it. */
  lemma BulkNamesFirstLine(line: string, rest: string)
    requires '\n' !in line
    ensures BulkNames(line + "\n" + rest) == (if Trim(line) != "" then [Trim(line)] else []) + BulkNames(rest)
  {
    SplitFirstLine(line, '\n', rest);
    var lines := [line] + Split(rest, '\n');
    assert lines[1..] == Split(rest, '\n');
  }

  /** A text with no line break is a single name, or none when it is blank. */
  lemma BulkNamesOneLine(line: string)
    requires '\n' !in line
    ensures BulkNames(line) == (if Trim(line) != "" then [Trim(line)] else [])
  {
    SplitNoSeparator(line, '\n');
    assert [line][1..] == [];
  }

  lemma {:induction false} KeptNoneVisible(lines: seq<string>)
    requires forall k :: 0 <= k < |lines| ==> Trim(lines[k]) == ""
    ensures Kept(lines) == []
  {
    if |lines| > 0 {
      KeptNoneVisible(lines[1..]);
    }
  }

  lemma {:induction false} KeptSomeVisible(lines: seq<string>, k: nat)
    requires k < |lines| && Trim(lines[k]) != ""
    ensures |Kept(lines)| > 0
  {
    if k == 0 {
      assert Kept(lines) == [Trim(lines[0])] + Kept(lines[1..]);
    } else {
      assert lines[1..][k - 1] == lines[k];
      KeptSomeVisible(lines[1..], k - 1);
      assert |Kept(lines)| >= |Kept(lines[1..])|;
    }
  }

  /**
   * The bulk import yields no name exactly when the text is blank: the blank-text guard and
   * the empty-list guard of the bulk import turn away the same inputs.
   */
  lemma BulkNamesEmptyIffBlank(text: string)
    ensures BulkNames(text) == [] <==> IsBlank(text)
  {
    var lines := Split(text, '\n');
    if IsBlank(text) {
      forall k | 0 <= k < |lines|
        ensures Trim(lines[k]) == ""
      {
        forall i | 0 <= i < |lines[k]|
          ensures IsWhitespace(lines[k][i])
        {
          SplitChars(text, '\n', k, lines[k][i]);
        }
        TrimEmptyIffBlank(lines[k]);
      }
      KeptNoneVisible(lines);
    } else {
      var i :| 0 <= i < |text| && !IsWhitespace(text[i]);
      SplitCovers(text, '\n', i);
      var k :| 0 <= k < |lines| && text[i] in lines[k];
      TrimKeepsVisible(lines[k], text[i]);
      KeptSomeVisible(lines, k);
    }
  }

  /** The name sent when adding one guest: the trimmed input, and nothing when there is no event or the input is blank. */
  function AddGuestRequest(eventId: Option<string>, newGuestName: string): (r: Option<string>)
    ensures r.Some? <==> Truthy(eventId) && !IsBlank(newGuestName)
    ensures r.Some? ==> r.value == Trim(newGuestName) && r.value != ""
  {
    TrimEmptyIffBlank(newGuestName);
    if !Truthy(eventId) || Trim(newGuestName) == "" then None else Some(Trim(newGuestName))
  }

  /** The add button is disabled exactly when the typed name is blank. */
  function AddDisabled(newGuestName: string): (b: bool)
    ensures b <==> IsBlank(newGuestName)
  {
    TrimEmptyIffBlank(newGuestName);
    Trim(newGuestName) == ""
  }

  /**
   * The names sent by the bulk import: none when there is no event or the text is blank,
   * otherwise the parsed names, of which there is then at least one.
   */
  function BulkAddRequest(eventId: Option<string>, bulkNames: string): (r: Option<seq<string>>)
    ensures r.Some? <==> Truthy(eventId) && !IsBlank(bulkNames)
    ensures r.Some? ==> r.value == BulkNames(bulkNames) && |r.value| > 0
  {
    TrimEmptyIffBlank(bulkNames);
    BulkNamesEmptyIffBlank(bulkNames);
    if !Truthy(eventId) || Trim(bulkNames) == "" then None
    else
      var names := BulkNames(bulkNames);
      if |names| == 0 then None else Some(names)
  }

  function BulkAddedToast(count: nat): string
  {
    "Добавлено " + NatToString(count) + " гостей"
  }

  // ----- The list -----

  /** The counts shown: the dashboard's, or all zeros before one has loaded. */
  function Stats(dashboard: Option<DashboardData>): (s: RSVPStats)
    ensures dashboard.Some? ==> s == dashboard.value.stats
    ensures dashboard.None? ==> s.confirmed == 0 && s.declined == 0 && s.pending == 0 && s.totalGuests == 0
  {
    if dashboard.Some? then dashboard.value.stats else NoStats
  }

  function Guests(dashboard: Option<DashboardData>): (g: seq<Guest>)
    ensures dashboard.None? ==> g == []
  {
    if dashboard.Some? then dashboard.value.guests else []
  }

  /** The badge for an answer: confirmed is green "Придёт", declined red "Не придёт", the rest plain "Ожидает". */
  function StatusBadge(status: RSVPStatus): (r: (BadgeVariant, string))
    ensures status == Confirmed <==> r == (SuccessBadge, "Придёт")
    ensures status == Declined <==> r == (ErrorBadge, "Не придёт")
    ensures status == Pending <==> r == (DefaultBadge, "Ожидает")
  {
    match status
    case Confirmed => (SuccessBadge, "Придёт")
    case Declined => (ErrorBadge, "Не придёт")
    case Pending => (DefaultBadge, "Ожидает")
  }

  /** The badge tells the three answers apart, by colour and by text alike. */
  lemma BadgesDistinguishAnswers(a: RSVPStatus, b: RSVPStatus)
    requires a != b
    ensures StatusBadge(a).0 != StatusBadge(b).0
    ensures StatusBadge(a).1 != StatusBadge(b).1
  {
  }

  /** The companions a guest brings, "+n", shown only for a party of more than one. */
  function ExtraGuests(guestCount: int): (r: Option<string>)
    ensures r.Some? <==> guestCount > 1
    ensures r.Some? ==> |r.value| > 1 && r.value[0] == '+'
  {
    if guestCount > 1 then Some("+" + NatToString(guestCount - 1)) else None
  }

  /** The companion mark reads back as the number of people besides the guest. */
  lemma ExtraGuestsReadBack(guestCount: int)
    requires guestCount > 1
    ensures ParseDigits(ExtraGuests(guestCount).value[1..]) == guestCount - 1
  {
    var r := ExtraGuests(guestCount).value;
    assert r[1..] == NatToString(guestCount - 1);
    ParseNatToString(guestCount - 1);
  }

  function Row(guest: Guest): (row: GuestRow)
    ensures row.name == guest.name
    ensures (row.badge, row.statusText) == StatusBadge(guest.rsvpStatus)
    ensures row.extraGuests == ExtraGuests(guest.guestCount)
  {
    GuestRow(guest.name, StatusBadge(guest.rsvpStatus).0, StatusBadge(guest.rsvpStatus).1, ExtraGuests(guest.guestCount))
  }

  /** The list area: a spinner while loading, the empty note when there are no guests, else one row per guest in order. */
  function GuestList(isLoading: bool, dashboard: Option<DashboardData>): (v: GuestListView)
    ensures v.Spinner? <==> isLoading
    ensures v.NoGuests? <==> !isLoading && |Guests(dashboard)| == 0
    ensures v.Rows? ==> |v.rows| == |Guests(dashboard)|
    ensures v.Rows? ==> forall k :: 0 <= k < |v.rows| ==> v.rows[k] == Row(Guests(dashboard)[k])
  {
    var guests := Guests(dashboard);
    if isLoading then Spinner
    else if |guests| == 0 then NoGuests
    else Rows(seq(|guests|, k requires 0 <= k < |guests| => Row(guests[k])))
  }

  // ----- Links -----

  /** The copied link: the site address followed by the guest's own path. */
  function CopyLink(guest: Guest): (r: string)
    ensures StartsWith(r, SiteUrl) && r[|SiteUrl|..] == guest.personalLink
  {
    PersonalUrl(guest.personalLink)
  }

  /** The WhatsApp link: the message to the guest, by name, carrying the same address as the copied link. */
  function ShareLink(guest: Guest, encode: string -> string): (r: string)
    ensures StartsWith(r, WhatsAppPrefix)
    ensures r[|WhatsAppPrefix|..] == encode(WhatsAppMessage(guest.personalLink, guest.name))
  {
    GenerateWhatsAppLink(guest.personalLink, guest.name, encode)
  }

  // ----- The panel's state -----

  /**
   * The panel's own state. Each server call is a parameter: `fetched` is the dashboard the
   * request returned (None when it failed), `apiOk` whether a create request succeeded.
   */
  class Panel {
    var dashboard: Option<DashboardData>
    var isLoading: bool
    var newGuestName: string
    var showBulkModal: bool
    var bulkNames: string

    constructor()
      ensures dashboard.None? && isLoading
      ensures newGuestName == "" && !showBulkModal && bulkNames == ""
    {
      dashboard := None;
      isLoading := true;
      newGuestName := "";
      showBulkModal := false;
      bulkNames := "";
    }

    /** Loading the dashboard: nothing happens without an event; otherwise the spinner ends either way. */
    method LoadDashboard(eventId: Option<string>, fetched: Option<DashboardData>) returns (errorToast: Option<string>)
      modifies this
      ensures !Truthy(eventId) ==> unchanged(this) && errorToast.None?
      ensures Truthy(eventId) ==> !isLoading
      ensures Truthy(eventId) ==> dashboard == (if fetched.Some? then fetched else old(dashboard))
      ensures errorToast.Some? <==> Truthy(eventId) && fetched.None?
      ensures newGuestName == old(newGuestName) && showBulkModal == old(showBulkModal) && bulkNames == old(bulkNames)
    {
      errorToast := None;
      if !Truthy(eventId) {
        return;
      }
      if fetched.Some? {
        dashboard := fetched;
      } else {
        errorToast := Some("Не удалось загрузить гостей");
      }
      isLoading := false;
    }

    method SetNewGuestName(text: string)
      modifies this
      ensures newGuestName == text
      ensures dashboard == old(dashboard) && isLoading == old(isLoading)
      ensures showBulkModal == old(showBulkModal) && bulkNames == old(bulkNames)
    {
      newGuestName := text;
    }

    method SetBulkNames(text: string)
      modifies this
      ensures bulkNames == text
      ensures dashboard == old(dashboard) && isLoading == old(isLoading)
      ensures showBulkModal == old(showBulkModal) && newGuestName == old(newGuestName)
    {
      bulkNames := text;
    }

    method SetBulkModal(open: bool)
      modifies this
      ensures showBulkModal == open
      ensures dashboard == old(dashboard) && isLoading == old(isLoading)
      ensures newGuestName == old(newGuestName) && bulkNames == old(bulkNames)
    {
      showBulkModal := open;
    }

    /**
     * Adding one guest: `sent` is the name sent to the server, if any. The input is cleared
     * only when the request was sent and succeeded.
     */
    method AddGuest(eventId: Option<string>, apiOk: bool) returns (sent: Option<string>)
      modifies this
      ensures sent == AddGuestRequest(eventId, old(newGuestName))
      ensures newGuestName == (if sent.Some? && apiOk then "" else old(newGuestName))
      ensures dashboard == old(dashboard) && isLoading == old(isLoading)
      ensures showBulkModal == old(showBulkModal) && bulkNames == old(bulkNames)
    {
      sent := AddGuestRequest(eventId, newGuestName);
      if sent.Some? && apiOk {
        newGuestName := "";
      }
    }

    /**
     * The bulk import: `sent` is the list of names sent, if any. On success the text is
     * cleared and the dialog closes; otherwise both stay as they were.
     */
    method BulkAdd(eventId: Option<string>, apiOk: bool) returns (sent: Option<seq<string>>)
      modifies this
      ensures sent == BulkAddRequest(eventId, old(bulkNames))
      ensures sent.Some? && apiOk ==> bulkNames == "" && !showBulkModal
      ensures !(sent.Some? && apiOk) ==> bulkNames == old(bulkNames) && showBulkModal == old(showBulkModal)
      ensures dashboard == old(dashboard) && isLoading == old(isLoading) && newGuestName == old(newGuestName)
    {
      sent := BulkAddRequest(eventId, bulkNames);
      if sent.Some? && apiOk {
        CloseBulkModal();
      }
    }

    /** After a successful bulk import the text is cleared and the modal closed. */
    method CloseBulkModal()
      modifies this
      ensures bulkNames == "" && !showBulkModal
      ensures dashboard == old(dashboard) && isLoading == old(isLoading) && newGuestName == old(newGuestName)
    {
      bulkNames := "";
      showBulkModal := false;
    }
  }
}
