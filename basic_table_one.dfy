/** The station table of the template (`BasicTableOne`): clicking a row
    edits a copy of that station in a dialog; saving writes it back by id,
    or appends a new station. */
module BasicTableOne {
  import opened Common

  datatype Station = Station(id: int, name: string, location: string, status: string)

  /** The inputs of the dialog, by their `name` attribute. */
  datatype StationField = Name | Location | Status

  function FieldOf(s: Station, f: StationField): string
  {
    match f
    case Name => s.name
    case Location => s.location
    case Status => s.status
  }

  /** `{ ...station, [name]: value }` */
  function SetField(s: Station, f: StationField, value: string): (t: Station)
    ensures FieldOf(t, f) == value
    ensures forall g :: g != f ==> FieldOf(t, g) == FieldOf(s, g)
    ensures t.id == s.id
  {
    match f
    case Name => s.(name := value)
    case Location => s.(location := value)
    case Status => s.(status := value)
  }

  const InitialStations: seq<Station> := [
    Station(1, "Trạm Trung Tâm RD", "21.0285, 105.8542", "Active"),
    Station(2, "Trạm Ban Quản Lý Khu CNC ", "10.7769, 106.7009", "Inactive"),
    Station(3, "Trạm Vườn Ươm Doanh Nghiệp", "10.7872, 106.7498", "Active")
  ]

  /** The list after saving `edited`: in edit mode every station with its
      id is replaced by it, otherwise it is appended with the id `now`. */
  function UpdatedStations(stations: seq<Station>, edited: Station, isEdit: bool, now: int): seq<Station>
  {
    if isEdit then MapWhere(stations, (s: Station) => s.id == edited.id, (_: Station) => edited)
    else stations + [edited.(id := now)]
  }

  /** An edit replaces exactly the stations with the edited id and keeps the
      rest and the length; an addition appends one station with the new id
      and keeps the earlier ones. */
  lemma UpdatedStationsSpec(stations: seq<Station>, edited: Station, isEdit: bool, now: int)
    ensures var r := UpdatedStations(stations, edited, isEdit, now);
            (isEdit ==> |r| == |stations|
                        && forall i :: 0 <= i < |r| ==> r[i] == if stations[i].id == edited.id then edited else stations[i])
            && (!isEdit ==> |r| == |stations| + 1 && r[..|stations|] == stations
                            && r[|stations|] == edited.(id := now))
  {
  }

  /** Saving an unchanged copy of a listed station whose id no other
      station shares leaves the list as it was. */
  lemma SavingUnchangedCopyKeepsList(stations: seq<Station>, i: nat, now: int)
    requires i < |stations|
    requires forall j :: 0 <= j < |stations| && j != i ==> stations[j].id != stations[i].id
    ensures UpdatedStations(stations, stations[i], true, now) == stations
  {
  }

  class Table {
    var stations: seq<Station>
    var modalOpen: bool
    var editingStation: Option<Station>
    var isEdit: bool

    constructor ()
      ensures stations == InitialStations && !modalOpen && editingStation.None? && !isEdit
    {
      stations := InitialStations;
      modalOpen := false;
      editingStation := None;
      isEdit := false;
    }

    /** `handleRowClick(station)` */
    method HandleRowClick(station: Station)
      modifies this`editingStation, this`isEdit, this`modalOpen
      ensures editingStation == Some(station) && isEdit && modalOpen
    {
      editingStation := Some(station);
      isEdit := true;
      modalOpen := true;
    }

    /** The "add" button; `now` is `Date.now()` when it is pressed. */
    method OpenAdd(now: int)
      modifies this`editingStation, this`isEdit, this`modalOpen
      ensures editingStation == Some(Station(now, "", "", "Active")) && !isEdit && modalOpen
    {
      editingStation := Some(Station(now, "", "", "Active"));
      isEdit := false;
      modalOpen := true;
    }

    /** `handleInputChange`: only the named field of the copy changes, and
        nothing happens without a copy. */
    method HandleInputChange(field: StationField, value: string)
      modifies this`editingStation
      ensures old(editingStation).None? ==> editingStation.None?
      ensures old(editingStation).Some? ==> editingStation == Some(SetField(old(editingStation).value, field, value))
    {
      if editingStation.None? {
        return;
      }
      editingStation := Some(SetField(editingStation.value, field, value));
    }

    /** `handleUpdate`; `now` is `Date.now()` when it runs. Without a copy
        nothing changes, the dialog included. */
    method HandleUpdate(now: int)
      modifies this`stations, this`modalOpen
      ensures editingStation.None? ==> stations == old(stations) && modalOpen == old(modalOpen)
      ensures editingStation.Some? ==> stations == UpdatedStations(old(stations), editingStation.value, isEdit, now) && !modalOpen
    {
      if editingStation.None? {
        return;
      }
      stations := UpdatedStations(stations, editingStation.value, isEdit, now);
      modalOpen := false;
    }

    /** The dialog's close and cancel buttons. */
    method Close()
      modifies this`modalOpen
      ensures !modalOpen
    {
      modalOpen := false;
    }
  }

  /** Clicking a row, changing one field and saving rewrites that field, and
      only that field, of the stations with the clicked id. */
  method EditOneField(t: Table, station: Station, field: StationField, value: string, now: int)
    modifies t
    ensures |t.stations| == |old(t.stations)|
    ensures forall i :: 0 <= i < |t.stations| ==>
              t.stations[i] == if old(t.stations)[i].id == station.id then SetField(station, field, value) else old(t.stations)[i]
    ensures !t.modalOpen
  {
    t.HandleRowClick(station);
    t.HandleInputChange(field, value);
    t.HandleUpdate(now);
  }
}
