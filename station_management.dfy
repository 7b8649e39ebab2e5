/** The station management page (`StationManagement`): a list of monitoring
    stations with a search box and a status filter, and a form that can only
    save a station after a (simulated) connection test has succeeded. */
module StationManagement {
  import opened Common
  import opened JsText

  datatype StationStatus = Online | Offline | Maintenance

  datatype Coordinates = Coordinates(lat: real, lng: real)

  /** The latest readings; `None` is `null`. */
  datatype AirQuality = AirQuality(uv: Option<real>, pm25: Option<real>, pm1_0: Option<real>)

  /** `StationData`; the optional members are `Option`s. */
  datatype Station = Station(
    id: string, name: string, coordinates: Coordinates, airQuality: AirQuality,
    battery: Option<real>, status: StationStatus, lastUpdated: Option<string>,
    ipAddress: Option<string>, port: Option<int>)

  /** The status selector: `'all'` or one status. */
  datatype StatusFilter = All | Only(status: StationStatus)

  datatype ConnectionStatus = Idle | Succeeded | Failed

  /** `StationFormData`. */
  datatype StationForm = StationForm(
    name: string, coordinates: Coordinates, status: StationStatus, ipAddress: string, port: int)

  const DefaultPort: int := 8080
  const InitialForm := StationForm("", Coordinates(0.0, 0.0), Online, "", DefaultPort)

  /** Where a new station is placed on the map by default. */
  const DefaultCoordinates := Coordinates(10.849, 106.802)

  const MissingIpAlert := "Vui lòng nhập địa chỉ IP"
  const MissingNameAlert := "Vui lòng nhập tên trạm"
  const UntestedAlert := "Vui lòng kiểm tra kết nối thành công trước khi lưu trạm"

  // ---------------------------------------------------------------- filtering

  /** A station is listed when its name or id contains the search term,
      ignoring case, and the filter is `'all'` or its status. */
  predicate Matches(st: Station, term: string, filter: StatusFilter)
  {
    (Includes(ToLower(st.name), ToLower(term)) || Includes(ToLower(st.id), ToLower(term)))
    && (filter.All? || filter.status == st.status)
  }

  /** `filteredStations` */
  function FilteredStations(stations: seq<Station>, term: string, filter: StatusFilter): seq<Station>
  {
    Filter(stations, (st: Station) => Matches(st, term, filter))
  }

  /** The listed stations are exactly the matching ones, in list order. */
  lemma FilteredIff(stations: seq<Station>, term: string, filter: StatusFilter, st: Station)
    ensures st in FilteredStations(stations, term, filter) <==> st in stations && Matches(st, term, filter)
    ensures Subsequence(FilteredStations(stations, term, filter), stations)
  {
    FilterIsSubsequence(stations, (st: Station) => Matches(st, term, filter));
    if st in stations && Matches(st, term, filter) {
      var i :| 0 <= i < |stations| && stations[i] == st;
    }
  }

  /** Under the `'all'` filter an empty search term lists every station. */
  lemma EmptySearchListsAll(stations: seq<Station>)
    ensures FilteredStations(stations, "", All) == stations
  {
    assert ToLower("") == "";
    forall i | 0 <= i < |stations| ensures Matches(stations[i], "", All) {
      IncludesEmpty(ToLower(stations[i].name));
    }
    FilterAll(stations, (st: Station) => Matches(st, "", All));
  }

  /** The search ignores the case of ASCII letters on both sides. */
  lemma SearchIgnoresCase(st: Station, term: string, filter: StatusFilter)
    ensures Matches(st, ToLower(term), filter) <==> Matches(st, term, filter)
  {
    ToLowerIdempotent(term);
  }

  // ---------------------------------------------------------------- status counts

  function CountStatus(stations: seq<Station>, s: StationStatus): nat
  {
    Count(stations, (st: Station) => st.status == s)
  }

  /** The online, offline and maintenance cards add up to the total card. */
  lemma {:induction false} StatusCountsAddUp(stations: seq<Station>)
    ensures CountStatus(stations, Online) + CountStatus(stations, Offline)
            + CountStatus(stations, Maintenance) == |stations|
  {
    if stations != [] {
      StatusCountsAddUp(stations[1..]);
    }
  }

  // ---------------------------------------------------------------- connection test

  /** A part of the address that `parseInt`s to a number in 0..255. */
  predicate IsOctet(part: string)
  {
    var n := ParseInt(part);
    n.Some? && 0 <= n.value <= 255
  }

  /** The address splits on `'.'` into four octets. */
  predicate IsValidIp(ip: string)
  {
    var parts := Split(ip, '.');
    |parts| == 4 && forall i :: 0 <= i < 4 ==> IsOctet(parts[i])
  }

  predicate IsValidPort(port: int)
  {
    0 < port <= 65535
  }

  /** The addresses the simulated test treats as unreachable. */
  predicate IsReachableIp(ip: string)
  {
    !StartsWith(ip, "192.168.1.99") && !Includes(ip, "0.0.0") && ip != "127.0.0.1"
  }

  /** The outcome of the simulated connection test. */
  predicate ConnectionSucceeds(ip: string, port: int)
  {
    IsValidIp(ip) && IsValidPort(port) && IsReachableIp(ip)
  }

  /** The test fails for a port outside 1..65535 and for the three
      addresses it treats as unreachable, whatever the rest of the input. */
  lemma RejectedConnections(ip: string, port: int)
    ensures (port <= 0 || port > 65535) ==> !ConnectionSucceeds(ip, port)
    ensures StartsWith(ip, "192.168.1.99") || Includes(ip, "0.0.0") || ip == "127.0.0.1" ==>
              !ConnectionSucceeds(ip, port)
    ensures !IsValidIp(ip) ==> !ConnectionSucceeds(ip, port)
  {
  }

  /** An address the test accepts has exactly three dots. */
  lemma ValidIpHasThreeDots(ip: string)
    requires IsValidIp(ip)
    ensures Occurrences(ip, '.') == 3
  {
    SplitJoin(ip, '.');
  }

  /** Decimal numerals contain no dot. */
  lemma NumeralHasNoDot(n: nat)
    ensures '.' !in NatToString(n)
  {
  }

  /** The decimal numeral of a number up to 255 is an octet. */
  lemma NumeralIsOctet(n: nat)
    requires n <= 255
    ensures IsOctet(NatToString(n))
  {
    ParseIntNatToString(n);
  }

  /** Four decimal numerals of numbers up to 255, joined with dots, pass
      the address rule. */
  lemma DottedQuadIsValid(octets: seq<nat>)
    requires |octets| == 4 && forall k :: 0 <= k < 4 ==> octets[k] <= 255
    ensures IsValidIp(Join(seq(4, k requires 0 <= k < 4 => NatToString(octets[k])), '.'))
  {
    var parts := seq(4, k requires 0 <= k < 4 => NatToString(octets[k]));
    forall k | 0 <= k < 4 ensures '.' !in parts[k] && IsOctet(parts[k]) {
      NumeralHasNoDot(octets[k]);
      NumeralIsOctet(octets[k]);
    }
    JoinSplit(parts, '.');
  }

  /** The port typed into the form: `parseInt(value) || 8080`, so a
      non-numeric or zero entry gives 8080. */
  function PortFromInput(text: string): (port: int)
    ensures ParseInt(text).None? ==> port == DefaultPort
    ensures ParseInt(text) == Some(0) ==> port == DefaultPort
    ensures ParseInt(text).Some? && ParseInt(text).value != 0 ==> port == ParseInt(text).value
    ensures port != 0
  {
    match ParseInt(text)
    case None => DefaultPort
    case Some(n) => if n == 0 then DefaultPort else n
  }

  /** A typed decimal port is stored as typed. */
  lemma TypedPortKept(n: nat)
    requires n > 0
    ensures PortFromInput(NatToString(n)) == n
  {
    ParseIntNatToString(n);
  }

  /** `(parseFloat(value) || 0)` on an already parsed number; `None` is `NaN`. */
  function CoordinateFromInput(parsed: Option<real>): (r: real)
    ensures parsed.Some? ==> r == parsed.value
    ensures parsed.None? ==> r == 0.0
  {
    match parsed
    case None => 0.0
    case Some(x) => x
  }

  // ---------------------------------------------------------------- list updates

  /** The fields an edit copies from the form onto a station. */
  function ApplyEdit(st: Station, form: StationForm, nowIso: string): (r: Station)
    ensures r.id == st.id && r.airQuality == st.airQuality && r.battery == st.battery
    ensures r.name == form.name && r.coordinates == form.coordinates && r.status == form.status
    ensures r.ipAddress == Some(form.ipAddress) && r.port == Some(form.port) && r.lastUpdated == Some(nowIso)
  {
    st.(name := form.name, coordinates := form.coordinates, status := form.status,
        ipAddress := Some(form.ipAddress), port := Some(form.port), lastUpdated := Some(nowIso))
  }

  /** Editing: every station with the edited id is rewritten. */
  function EditStations(stations: seq<Station>, id: string, form: StationForm, nowIso: string): seq<Station>
  {
    MapWhere(stations, (st: Station) => st.id == id, (st: Station) => ApplyEdit(st, form, nowIso))
  }

  /** An edit keeps the list length, rewrites only the stations with the
      edited id and leaves every other station as it was. */
  lemma EditOnlyTouchesId(stations: seq<Station>, id: string, form: StationForm, nowIso: string)
    ensures |EditStations(stations, id, form, nowIso)| == |stations|
    ensures forall i :: 0 <= i < |stations| && stations[i].id != id ==>
              EditStations(stations, id, form, nowIso)[i] == stations[i]
    ensures forall i :: 0 <= i < |stations| && stations[i].id == id ==>
              EditStations(stations, id, form, nowIso)[i] == ApplyEdit(stations[i], form, nowIso)
  {
  }

  /** The id of a new station: `A` and the last three digits of `Date.now()`,
      padded to three. */
  function NewStationId(now: nat): (id: string)
    ensures |id| == 4 && id[0] == 'A'
    ensures id[1..] == LastChars(NatToString(now), 3) || now < 100
  {
    "A" + PadStart(LastChars(NatToString(now), 3), 3, '0')
  }

  /** A new station: null readings, a full battery, the form's fields. */
  function NewStation(form: StationForm, now: nat, nowIso: string): (st: Station)
    ensures st.id == NewStationId(now)
    ensures st.airQuality == AirQuality(None, None, None) && st.battery == Some(100.0)
    ensures st.name == form.name && st.coordinates == form.coordinates && st.status == form.status
    ensures st.ipAddress == Some(form.ipAddress) && st.port == Some(form.port) && st.lastUpdated == Some(nowIso)
  {
    Station(NewStationId(now), form.name, form.coordinates, AirQuality(None, None, None), Some(100.0),
            form.status, Some(nowIso), Some(form.ipAddress), Some(form.port))
  }

  /** Deleting: `filter(station => station.id !== id)`. */
  function DeleteStation(stations: seq<Station>, id: string): seq<Station>
  {
    Filter(stations, (st: Station) => st.id != id)
  }

  /** Deletion removes every station with the id and keeps all the others,
      in order. */
  lemma DeleteRemovesId(stations: seq<Station>, id: string)
    ensures forall st :: st in DeleteStation(stations, id) ==> st.id != id && st in stations
    ensures forall st :: st in stations && st.id != id ==> st in DeleteStation(stations, id)
    ensures Subsequence(DeleteStation(stations, id), stations)
  {
    var p := (st: Station) => st.id != id;
    FilterIsSubsequence(stations, p);
    forall st | st in DeleteStation(stations, id) ensures st.id != id && st in stations {
      var r := DeleteStation(stations, id);
      var j :| 0 <= j < |r| && r[j] == st;
    }
    forall st | st in stations && st.id != id ensures st in DeleteStation(stations, id) {
      var i :| 0 <= i < |stations| && stations[i] == st;
    }
  }

  /** The guards of `handleSaveStation`, in order: the alert shown, or
      `None` when the station is saved. A `!s.trim()` guard is `IsBlank(s)`
      (`TrimEmptyIffBlank`). */
  function SaveAlert(form: StationForm, status: ConnectionStatus): Option<string>
  {
    if IsBlank(form.name) then Some(MissingNameAlert)
    else if IsBlank(form.ipAddress) then Some(MissingIpAlert)
    else if status != Succeeded then Some(UntestedAlert)
    else None
  }

  /** A save goes ahead exactly for a named, addressed and successfully
      tested form; a missing name is reported before a missing address. */
  lemma SaveAlertCases(form: StationForm, status: ConnectionStatus)
    ensures SaveAlert(form, status).None? <==> !IsBlank(form.name) && !IsBlank(form.ipAddress) && status == Succeeded
    ensures IsBlank(form.name) ==> SaveAlert(form, status) == Some(MissingNameAlert)
    ensures !IsBlank(form.name) && IsBlank(form.ipAddress) ==> SaveAlert(form, status) == Some(MissingIpAlert)
  {
  }

  /** The list after a save that passed its guards: the edited id is
      rewritten in edit mode, one new station is appended otherwise. */
  function SavedStations(stations: seq<Station>, editing: Option<Station>, form: StationForm,
                         now: nat, nowIso: string): (r: seq<Station>)
    ensures editing.Some? ==> r == EditStations(stations, editing.value.id, form, nowIso)
    ensures editing.None? ==> |r| == |stations| + 1 && r[..|stations|] == stations
                              && r[|stations|] == NewStation(form, now, nowIso)
  {
    match editing
    case Some(st) => EditStations(stations, st.id, form, nowIso)
    case None => stations + [NewStation(form, now, nowIso)]
  }

  // ---------------------------------------------------------------- page state

  class Page {
    var stations: seq<Station>
    var isModalOpen: bool
    var editingStation: Option<Station>
    var searchTerm: string
    var statusFilter: StatusFilter
    var isTestingConnection: bool
    var connectionStatus: ConnectionStatus
    var form: StationForm

    constructor (initial: seq<Station>)
      ensures stations == initial && !isModalOpen && editingStation.None?
      ensures searchTerm == "" && statusFilter == All
      ensures !isTestingConnection && connectionStatus == Idle && form == InitialForm
    {
      stations := initial;
      isModalOpen := false;
      editingStation := None;
      searchTerm := "";
      statusFilter := All;
      isTestingConnection := false;
      connectionStatus := Idle;
      form := InitialForm;
    }

    /** The rows handed to the table. */
    function Listed(): seq<Station>
      reads this
    {
      FilteredStations(stations, searchTerm, statusFilter)
    }

    method SetSearchTerm(term: string)
      modifies this`searchTerm
      ensures searchTerm == term
    {
      searchTerm := term;
    }

    method SetStatusFilter(filter: StatusFilter)
      modifies this`statusFilter
      ensures statusFilter == filter
    {
      statusFilter := filter;
    }

    /** `handleTestConnection`: an empty address only raises the alert;
        otherwise the test's outcome is recorded, and a success forces the
        form's status to online. */
    method HandleTestConnection() returns (alert: Option<string>)
      requires isModalOpen && !isTestingConnection
      modifies this`connectionStatus, this`form, this`isTestingConnection
      ensures form.ipAddress == "" ==>
                alert == Some(MissingIpAlert) && connectionStatus == old(connectionStatus) && form == old(form)
      ensures form.ipAddress != "" ==> alert.None?
      ensures old(form.ipAddress) != "" && ConnectionSucceeds(old(form.ipAddress), old(form.port)) ==>
                connectionStatus == Succeeded && form == old(form).(status := Online)
      ensures old(form.ipAddress) != "" && !ConnectionSucceeds(old(form.ipAddress), old(form.port)) ==>
                connectionStatus == Failed && form == old(form)
      ensures !isTestingConnection
    {
      if form.ipAddress == "" {
        alert := Some(MissingIpAlert);
        return;
      }
      alert := None;
      isTestingConnection := true;
      connectionStatus := Idle;
      if ConnectionSucceeds(form.ipAddress, form.port) {
        connectionStatus := Succeeded;
        form := form.(status := Online);
      } else {
        connectionStatus := Failed;
      }
      isTestingConnection := false;
    }

    /** `handleAddStation`: a fresh form at the default position. */
    method HandleAddStation()
      modifies this`editingStation, this`connectionStatus, this`form, this`isModalOpen
      ensures editingStation.None? && connectionStatus == Idle && isModalOpen
      ensures form == StationForm("", DefaultCoordinates, Online, "", DefaultPort)
    {
      editingStation := None;
      connectionStatus := Idle;
      form := StationForm("", DefaultCoordinates, Online, "", DefaultPort);
      isModalOpen := true;
    }

    /** `handleEditStation`: the form is loaded from the station, with `''`
        for a missing address and 8080 for a missing or zero port. */
    method HandleEditStation(st: Station)
      modifies this`editingStation, this`connectionStatus, this`form, this`isModalOpen
      ensures editingStation == Some(st) && connectionStatus == Idle && isModalOpen
      ensures form.name == st.name && form.coordinates == st.coordinates && form.status == st.status
      ensures form.ipAddress == (if st.ipAddress.Some? then st.ipAddress.value else "")
      ensures form.port == (if st.port.Some? && st.port.value != 0 then st.port.value else DefaultPort)
    {
      editingStation := Some(st);
      connectionStatus := Idle;
      var ip := match st.ipAddress case Some(a) => a case None => "";
      var port := match st.port case Some(n) => (if n == 0 then DefaultPort else n) case None => DefaultPort;
      form := StationForm(st.name, st.coordinates, st.status, ip, port);
      isModalOpen := true;
    }

    /** `handleDeleteStation`, with the user's answer to the confirmation. */
    method HandleDeleteStation(id: string, confirmed: bool)
      modifies this`stations
      ensures stations == if confirmed then DeleteStation(old(stations), id) else old(stations)
    {
      if confirmed {
        stations := DeleteStation(stations, id);
      }
    }

    /** `handleSaveStation`: saves only a named, addressed and successfully
        tested form, then closes the dialog; `now` is `Date.now()` and
        `nowIso` the current time as an ISO string. */
    method HandleSaveStation(now: nat, nowIso: string) returns (alert: Option<string>)
      modifies this`stations, this`isModalOpen, this`connectionStatus
      ensures alert == SaveAlert(form, old(connectionStatus))
      ensures alert.Some? ==> unchanged(this)
      ensures alert.None? ==>
                stations == SavedStations(old(stations), editingStation, form, now, nowIso)
                && !isModalOpen && connectionStatus == Idle
    {
      alert := SaveAlert(form, connectionStatus);
      if alert.None? {
        stations := SavedStations(stations, editingStation, form, now, nowIso);
        isModalOpen := false;
        connectionStatus := Idle;
      }
    }

    method SetName(name: string)
      modifies this`form
      ensures form == old(form).(name := name)
    {
      form := form.(name := name);
    }

    method SetLatitude(parsed: Option<real>)
      modifies this`form
      ensures form == old(form).(coordinates := old(form).coordinates.(lat := CoordinateFromInput(parsed)))
    {
      form := form.(coordinates := form.coordinates.(lat := CoordinateFromInput(parsed)));
    }

    method SetLongitude(parsed: Option<real>)
      modifies this`form
      ensures form == old(form).(coordinates := old(form).coordinates.(lng := CoordinateFromInput(parsed)))
    {
      form := form.(coordinates := form.coordinates.(lng := CoordinateFromInput(parsed)));
    }

    /** Editing the address invalidates an earlier test. */
    method SetIpAddress(ip: string)
      modifies this`form, this`connectionStatus
      ensures form == old(form).(ipAddress := ip) && connectionStatus == Idle
    {
      form := form.(ipAddress := ip);
      connectionStatus := Idle;
    }

    /** Editing the port invalidates an earlier test. */
    method SetPort(text: string)
      modifies this`form, this`connectionStatus
      ensures form == old(form).(port := PortFromInput(text)) && connectionStatus == Idle
    {
      form := form.(port := PortFromInput(text));
      connectionStatus := Idle;
    }

    /** The status selector is disabled once the test has succeeded. */
    method SetStatus(s: StationStatus)
      requires connectionStatus != Succeeded
      modifies this`form
      ensures form == old(form).(status := s)
    {
      form := form.(status := s);
    }

    /** The cancel button. */
    method Cancel()
      modifies this`isModalOpen, this`connectionStatus
      ensures !isModalOpen && connectionStatus == Idle
    {
      isModalOpen := false;
      connectionStatus := Idle;
    }

    /** A click on the backdrop closes the dialog and keeps the test result. */
    method CloseByBackdrop()
      modifies this`isModalOpen
      ensures !isModalOpen
    {
      isModalOpen := false;
    }
  }

  /** Whatever is typed into the address or port after a successful test,
      saving is refused until the connection is tested again. */
  method EditAfterTestBlocksSave(p: Page, ip: string, now: nat, nowIso: string) returns (alert: Option<string>)
    modifies p
    ensures alert.Some? && p.stations == old(p.stations)
  {
    p.SetIpAddress(ip);
    alert := p.HandleSaveStation(now, nowIso);
  }
}
