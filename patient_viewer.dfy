/** The patient viewer: the fetch of the patient list on mount, which selects
    the first patient, and the fetch of that patient's dictation and SOAP notes
    whenever the selection changes; plus its M:SS player clock. Each request is
    split into the moment it is sent and the moment its answer arrives, and an
    answer is a parameter. */
module PatientViewer {
  import opened Strings
  import opened Json

  // ---------------------------------------------------------------------------
  // M:SS
  // ---------------------------------------------------------------------------

  /** `formatTime(seconds)` of the audio player. The clock is "M:SS":
      unpadded minutes, a colon, two seconds digits below 60; read back, the
      fields give the time again. */
  function FormatTime(seconds: nat): (t: string)
    ensures |t| >= 4 && t[|t| - 3] == ':'
    ensures AllDigits(t[..|t| - 3]) && AllDigits(t[|t| - 2..])
    ensures |t| > 4 ==> t[0] != '0'
    ensures ParseDigits(t[|t| - 2..]) < 60
    ensures ParseDigits(t[..|t| - 3]) * 60 + ParseDigits(t[|t| - 2..]) == seconds
  {
    var m := NatToString(seconds / 60);
    var s := PadStart2(NatToString(seconds % 60));
    ParseNatToString(seconds / 60);
    ParsePadded(seconds % 60);
    TwoDigitsPadToTwo(seconds % 60);
    FieldsOfColonJoin(m, s);
    m + ":" + s
  }

  // ---------------------------------------------------------------------------
  // The requests
  // ---------------------------------------------------------------------------

  datatype Request =
    | GetPatientList(fromDate: string, toDate: string)
    | GetDictation(recordingId: Json)
    | GetSoapNotes(recordingId: Json)

  const ListFrom := "2023-01-01"
  const ListTo := "2023-12-31"

  /** What an answer to the patient-list request does to the list and the
      selection: only a truthy `Table` replaces the list, and the selection
      changes only to the first entry of the new list, and only when that
      list's `length` is above zero. */
  function ListAnswer(patients: Json, active: Json, data: Json): (r: (Json, Json))
    ensures !Truthy(Property(data, "Table")) ==> r == (patients, active)
    ensures Truthy(Property(data, "Table")) ==> r.0 == Property(data, "Table")
    ensures Truthy(Property(data, "Table")) ==>
      r.1 == if GreaterThanZero(Length(r.0)) then Element(r.0, 0) else active
    ensures r.1 != active ==> Truthy(r.0) && (r.0.Arr? ==> r.0.items != [] && r.1 == r.0.items[0])
  {
    var table := Property(data, "Table");
    if Truthy(data) && Truthy(table) then
      (table, if GreaterThanZero(Length(table)) then Element(table, 0) else active)
    else (patients, active)
  }

  /** A table that is an object with a positive "length" but no "0" property
      replaces the selection with undefined. */
  lemma ObjectTableSelectsUndefined(patients: Json, active: Json)
    ensures var table := Obj([("length", Num(1))]);
      ListAnswer(patients, active, Obj([("Table", table)])) == (table, Null)
  {
    var table := Obj([("length", Num(1))]);
    assert NatToString(0) == "0";
    assert Lookup(table.entries, "0") == Null;
  }

  /** The answer's entries become the list; the first becomes the selection. */
  lemma ListAnswerSelectsFirst(patients: Json, active: Json, rows: seq<Json>)
    ensures var data := Obj([("Table", Arr(rows))]);
      ListAnswer(patients, active, data) == (Arr(rows), if rows == [] then active else rows[0])
  {
  }

  // ---------------------------------------------------------------------------
  // The component
  // ---------------------------------------------------------------------------

  class VirtualAssistant {
    var patients: Json
    var activePatient: Json
    var dictation: Json
    var soapNotes: Json
    var isLoading: bool
    /** Every value `setIsLoading` was called with, oldest first. */
    var loadingLog: seq<bool>
    var requests: seq<Request>

    /** The first render: nothing loaded, `isLoading` already true. */
    constructor ()
      ensures patients == Arr([]) && activePatient == Null && dictation == Null && soapNotes == Null
      ensures isLoading && loadingLog == [] && requests == []
    {
      patients, activePatient, dictation, soapNotes := Arr([]), Null, Null, Null;
      isLoading := true;
      loadingLog, requests := [], [];
    }

    /** The mount effect up to the `await`: loading is switched on and the list requested. */
    method BeginPatientFetch()
      modifies this
      ensures isLoading && loadingLog == old(loadingLog) + [true]
      ensures requests == old(requests) + [GetPatientList(ListFrom, ListTo)]
      ensures patients == old(patients) && activePatient == old(activePatient)
      ensures dictation == old(dictation) && soapNotes == old(soapNotes)
    {
      isLoading := true;
      loadingLog := loadingLog + [true];
      requests := requests + [GetPatientList(ListFrom, ListTo)];
    }

    /** The rest of the mount effect once the list answer `data` arrives (an
        error answer is `Null`): the list and selection are updated and loading
        is switched off in every case. */
    method FinishPatientFetch(data: Json)
      modifies this
      ensures (patients, activePatient) == ListAnswer(old(patients), old(activePatient), data)
      ensures !isLoading && loadingLog == old(loadingLog) + [false]
      ensures requests == old(requests) && dictation == old(dictation) && soapNotes == old(soapNotes)
    {
      if Truthy(data) {
        var table := Property(data, "Table");
        if Truthy(table) {
          patients := table;
          if GreaterThanZero(Length(table)) {
            activePatient := Element(table, 0);
          }
        }
      }
      isLoading := false;
      loadingLog := loadingLog + [false];
    }

    /** The selection effect up to its first `await`: only a truthy selection
        starts a fetch, which switches loading on and asks for the dictation. */
    method BeginDetailsFetch() returns (started: bool)
      modifies this
      ensures started == Truthy(activePatient) && activePatient == old(activePatient)
      ensures started ==> isLoading && loadingLog == old(loadingLog) + [true]
      ensures started ==> requests == old(requests) + [GetDictation(Property(activePatient, "RECORDING_ID"))]
      ensures !started ==> isLoading == old(isLoading) && loadingLog == old(loadingLog) && requests == old(requests)
      ensures patients == old(patients) && dictation == old(dictation) && soapNotes == old(soapNotes)
    {
      started := Truthy(activePatient);
      if started {
        isLoading := true;
        loadingLog := loadingLog + [true];
        requests := requests + [GetDictation(Property(activePatient, "RECORDING_ID"))];
      }
    }

    /** The dictation answer arrives; the SOAP notes of the same recording are requested. */
    method DictationArrived()
      modifies this
      ensures requests == old(requests) + [GetSoapNotes(Property(activePatient, "RECORDING_ID"))]
      ensures isLoading == old(isLoading) && loadingLog == old(loadingLog)
      ensures patients == old(patients) && activePatient == old(activePatient)
      ensures dictation == old(dictation) && soapNotes == old(soapNotes)
    {
      requests := requests + [GetSoapNotes(Property(activePatient, "RECORDING_ID"))];
    }

    /** Both answers are in: they are stored, then loading is switched off. */
    method FinishDetailsFetch(dictationData: Json, soapNotesData: Json)
      modifies this
      ensures dictation == dictationData && soapNotes == soapNotesData
      ensures !isLoading && loadingLog == old(loadingLog) + [false]
      ensures patients == old(patients) && activePatient == old(activePatient) && requests == old(requests)
    {
      dictation := dictationData;
      soapNotes := soapNotesData;
      isLoading := false;
      loadingLog := loadingLog + [false];
    }
  }

  /** The whole mount: true before the answer, false after, whatever the answer. */
  method MountSequence(data: Json) returns (v: VirtualAssistant)
    ensures fresh(v)
    ensures v.loadingLog == [true, false] && !v.isLoading
    ensures v.requests == [GetPatientList(ListFrom, ListTo)]
    ensures (v.patients, v.activePatient) == ListAnswer(Arr([]), Null, data)
  {
    v := new VirtualAssistant();
    v.BeginPatientFetch();
    v.FinishPatientFetch(data);
  }
}
