/** The command handlers of the scheduler, over the tables held in memory and
    the session held in two fields, one per role, of which at most one is set. */
module Scheduling {
  import opened Wrappers
  import opened Ordering
  import opened Passwords
  import opened Tables

  /** What a command reports, in place of the line it prints. */
  datatype Outcome =
    | WrongArity                    // the command has the wrong number of tokens
    | NotLoggedIn                   // "Please login first."
    | NotAPatient                   // reserve while a caregiver is logged in
    | NotACaregiver                 // upload_availability / add_doses without a caregiver
    | AlreadyLoggedIn
    | UsernameTaken
    | WeakPassword
    | Created(username: string)
    | LoginFailed
    | LoggedIn(username: string)
    | LoggedOut
    | InvalidDate
    | InvalidCount                  // the dose count is not an int
    | AvailabilityUploaded
    | DosesUpdated
    | Unavailable(noCaregiver: bool, noDoses: bool)
    | Reserved(id: nat, caregiver: string)
    | Schedule(caregivers: seq<string>, stock: seq<StockLine>)
    | Appointments(rows: seq<Row>)

  /** The checks of `create_patient` / `create_caregiver`, in the order they
      run: token count, then a free username, then password strength. */
  function Registration(tokens: seq<string>, taken: set<string>): (r: Outcome)
    ensures r.Created? <==> |tokens| == 3 && tokens[1] !in taken && IsStrong(tokens[2])
    ensures r.Created? ==> r.username == tokens[1]
    ensures |tokens| != 3 ==> r == WrongArity
    ensures |tokens| == 3 && tokens[1] in taken ==> r == UsernameTaken
    ensures |tokens| == 3 && tokens[1] !in taken && !IsStrong(tokens[2]) ==> r == WeakPassword
  {
    if |tokens| != 3 then WrongArity
    else if tokens[1] in taken then UsernameTaken
    else if !IsStrong(tokens[2]) then WeakPassword
    else Created(tokens[1])
  }

  /** The checks of `login_patient` / `login_caregiver`: nobody may be logged
      in, then the token count, then the credential check `accepts`. */
  function Login(sessionOpen: bool, tokens: seq<string>, accepts: (string, string) -> bool): (r: Outcome)
    ensures r.LoggedIn? <==> !sessionOpen && |tokens| == 3 && accepts(tokens[1], tokens[2])
    ensures r.LoggedIn? ==> r.username == tokens[1]
    ensures sessionOpen ==> r == AlreadyLoggedIn
    ensures !sessionOpen && |tokens| != 3 ==> r == WrongArity
    ensures !sessionOpen && |tokens| == 3 && !accepts(tokens[1], tokens[2]) ==> r == LoginFailed
  {
    if sessionOpen then AlreadyLoggedIn
    else if |tokens| != 3 then WrongArity
    else if accepts(tokens[1], tokens[2]) then LoggedIn(tokens[1])
    else LoginFailed
  }

  class Scheduler {
    // the tables
    var patients: set<string>
    var caregivers: set<string>
    var availability: set<Slot>
    var vaccines: map<string, int>
    var appointments: seq<Appointment>
    var nextId: nat          // the id the Appointments identity column gives next
    // the session
    var currentCaregiver: Option<string>
    var currentPatient: Option<string>
    // the parsers the handlers apply to tokens
    const parseDate: string -> Option<Date>
    const parseCount: string -> Option<int>

    /** At most one user is logged in, and appointment ids are increasing and
        below the next id to be handed out. */
    ghost predicate Valid()
      reads this
      ensures Valid() ==> forall i, j :: 0 <= i < |appointments| && 0 <= j < |appointments| && i != j ==>
                            appointments[i].id != appointments[j].id
    {
      && (currentCaregiver.None? || currentPatient.None?)
      && IdsIncreasing(appointments)
      && IdsBelow(appointments, nextId)
    }

    predicate LoggedInAsAnyone()
      reads this
    {
      currentCaregiver.Some? || currentPatient.Some?
    }

    constructor (parseDate: string -> Option<Date>, parseCount: string -> Option<int>)
      ensures Valid()
      ensures patients == {} && caregivers == {} && availability == {}
      ensures vaccines == map[] && appointments == [] && nextId == 1
      ensures currentCaregiver == None && currentPatient == None
      ensures this.parseDate == parseDate && this.parseCount == parseCount
    {
      patients, caregivers, availability := {}, {}, {};
      vaccines, appointments, nextId := map[], [], 1;
      currentCaregiver, currentPatient := None, None;
      this.parseDate, this.parseCount := parseDate, parseCount;
    }

    /** `create_patient <username> <password>`. */
    method CreatePatient(tokens: seq<string>) returns (out: Outcome)
      requires Valid()
      modifies this`patients
      ensures Valid()
      ensures out == Registration(tokens, old(patients))
      ensures patients == if out.Created? then old(patients) + {tokens[1]} else old(patients)
    {
      out := Registration(tokens, patients);
      if out.Created? {
        patients := patients + {tokens[1]};
      }
    }

    /** `create_caregiver <username> <password>`. */
    method CreateCaregiver(tokens: seq<string>) returns (out: Outcome)
      requires Valid()
      modifies this`caregivers
      ensures Valid()
      ensures out == Registration(tokens, old(caregivers))
      ensures caregivers == if out.Created? then old(caregivers) + {tokens[1]} else old(caregivers)
    {
      out := Registration(tokens, caregivers);
      if out.Created? {
        caregivers := caregivers + {tokens[1]};
      }
    }

    /** `login_patient <username> <password>`; `accepts` is the credential
        check against the stored salted hash. */
    method LoginPatient(tokens: seq<string>, accepts: (string, string) -> bool) returns (out: Outcome)
      requires Valid()
      modifies this`currentPatient
      ensures Valid()
      ensures out == Login(old(LoggedInAsAnyone()), tokens, accepts)
      ensures currentPatient == if out.LoggedIn? then Some(out.username) else old(currentPatient)
    {
      out := Login(LoggedInAsAnyone(), tokens, accepts);
      if out.LoggedIn? {
        currentPatient := Some(out.username);
      }
    }

    /** `login_caregiver <username> <password>`. */
    method LoginCaregiver(tokens: seq<string>, accepts: (string, string) -> bool) returns (out: Outcome)
      requires Valid()
      modifies this`currentCaregiver
      ensures Valid()
      ensures out == Login(old(LoggedInAsAnyone()), tokens, accepts)
      ensures currentCaregiver == if out.LoggedIn? then Some(out.username) else old(currentCaregiver)
    {
      out := Login(LoggedInAsAnyone(), tokens, accepts);
      if out.LoggedIn? {
        currentCaregiver := Some(out.username);
      }
    }

    /** `logout`: extra tokens, or nobody logged in, leave the session as it is. */
    method Logout(tokens: seq<string>) returns (out: Outcome)
      requires Valid()
      modifies this`currentCaregiver, this`currentPatient
      ensures Valid()
      ensures |tokens| > 1 ==> out == WrongArity
      ensures |tokens| <= 1 && !old(LoggedInAsAnyone()) ==> out == NotLoggedIn
      ensures |tokens| <= 1 && old(LoggedInAsAnyone()) ==> out == LoggedOut
      ensures if out == LoggedOut then currentCaregiver == None && currentPatient == None
              else currentCaregiver == old(currentCaregiver) && currentPatient == old(currentPatient)
    {
      if |tokens| > 1 {
        return WrongArity;
      }
      if !LoggedInAsAnyone() {
        return NotLoggedIn;
      }
      currentCaregiver := None;
      currentPatient := None;
      out := LoggedOut;
    }

    /** `upload_availability <date>`: the logged-in caregiver offers the date;
        offering a date twice is the same as offering it once. */
    method UploadAvailability(tokens: seq<string>) returns (out: Outcome)
      requires Valid()
      modifies this`availability
      ensures Valid()
      ensures currentCaregiver.None? ==> out == NotACaregiver
      ensures currentCaregiver.Some? && |tokens| != 2 ==> out == WrongArity
      ensures currentCaregiver.Some? && |tokens| == 2 && parseDate(tokens[1]).None? ==> out == InvalidDate
      ensures currentCaregiver.Some? && |tokens| == 2 && parseDate(tokens[1]).Some? ==> out == AvailabilityUploaded
      ensures availability ==
              if out == AvailabilityUploaded
              then old(availability) + {Slot(parseDate(tokens[1]).value, currentCaregiver.value)}
              else old(availability)
    {
      if currentCaregiver.None? {
        return NotACaregiver;
      }
      if |tokens| != 2 {
        return WrongArity;
      }
      var date := parseDate(tokens[1]);
      if date.None? {
        return InvalidDate;
      }
      availability := availability + {Slot(date.value, currentCaregiver.value)};
      out := AvailabilityUploaded;
    }

    /** `add_doses <vaccine> <number>`: create an unknown vaccine with the
        count, or add the count to a known one; no other vaccine changes. */
    method AddDoses(tokens: seq<string>) returns (out: Outcome)
      requires Valid()
      modifies this`vaccines
      ensures Valid()
      ensures currentCaregiver.None? ==> out == NotACaregiver
      ensures currentCaregiver.Some? && |tokens| != 3 ==> out == WrongArity
      ensures currentCaregiver.Some? && |tokens| == 3 && parseCount(tokens[2]).None? ==> out == InvalidCount
      ensures currentCaregiver.Some? && |tokens| == 3 && parseCount(tokens[2]).Some? ==>
              out == DosesUpdated && vaccines == Restock(old(vaccines), tokens[1], parseCount(tokens[2]).value)
      ensures out != DosesUpdated ==> vaccines == old(vaccines)
      ensures out == DosesUpdated && NonNegativeStock(old(vaccines)) && parseCount(tokens[2]).value >= 0
              ==> NonNegativeStock(vaccines)
    {
      if currentCaregiver.None? {
        return NotACaregiver;
      }
      if |tokens| != 3 {
        return WrongArity;
      }
      var count := parseCount(tokens[2]);
      if count.None? {
        return InvalidCount;
      }
      if NonNegativeStock(vaccines) && count.value >= 0 {
        RestockKeepsNonNegative(vaccines, tokens[1], count.value);
      }
      vaccines := Restock(vaccines, tokens[1], count.value);
      out := DosesUpdated;
    }

    /** `reserve <date> <vaccine>` for the logged-in patient. Both reasons for
        refusing are reported together; a refusal changes nothing. On success
        it records one appointment with the first free caregiver in username
        order, removes that caregiver's slot and takes one dose. */
    method Reserve(tokens: seq<string>) returns (out: Outcome)
      requires Valid()
      modifies this`availability, this`vaccines, this`appointments, this`nextId
      ensures Valid()
      ensures currentCaregiver.Some? ==> out == NotAPatient
      ensures currentCaregiver.None? && currentPatient.None? ==> out == NotLoggedIn
      ensures currentCaregiver.None? && currentPatient.Some? && |tokens| != 3 ==> out == WrongArity
      ensures currentCaregiver.None? && currentPatient.Some? && |tokens| == 3 && parseDate(tokens[1]).None?
              ==> out == InvalidDate
      ensures currentCaregiver.None? && currentPatient.Some? && |tokens| == 3 && parseDate(tokens[1]).Some? ==>
              var free := CaregiversOn(old(availability), parseDate(tokens[1]).value);
              var doses := DosesOf(old(vaccines), tokens[2]);
              if free == {} || doses == 0 then out == Unavailable(free == {}, doses == 0)
              else out.Reserved? && out.id == old(nextId) && IsLeast(out.caregiver, free)
      ensures !out.Reserved? ==>
              && availability == old(availability) && vaccines == old(vaccines)
              && appointments == old(appointments) && nextId == old(nextId)
      ensures out.Reserved? ==>
              && currentPatient.Some? && |tokens| == 3 && parseDate(tokens[1]).Some?
              && var d := parseDate(tokens[1]).value;
              && appointments == old(appointments) + [Appointment(out.id, currentPatient.value, out.caregiver, tokens[2], d)]
              && Slot(d, out.caregiver) in old(availability)
              && availability == old(availability) - {Slot(d, out.caregiver)}
              && |availability| == |old(availability)| - 1
              && tokens[2] in old(vaccines)
              && vaccines == old(vaccines)[tokens[2] := old(vaccines)[tokens[2]] - 1]
              && nextId == old(nextId) + 1
      ensures NonNegativeStock(old(vaccines)) ==> NonNegativeStock(vaccines)
    {
      if currentCaregiver.Some? {
        return NotAPatient;
      }
      if currentPatient.None? {
        return NotLoggedIn;
      }
      if |tokens| != 3 {
        return WrongArity;
      }
      var date := parseDate(tokens[1]);
      if date.None? {
        return InvalidDate;
      }
      var d, vaccine := date.value, tokens[2];
      var chosen := ChooseCaregiver(availability, d);
      var doses := DosesOf(vaccines, vaccine);
      if chosen.None? || doses == 0 {
        return Unavailable(chosen.None?, doses == 0);
      }
      var caregiver, id := chosen.value, nextId;
      RecordKeepsIds(appointments, nextId, Appointment(id, currentPatient.value, caregiver, vaccine, d));
      appointments := appointments + [Appointment(id, currentPatient.value, caregiver, vaccine, d)];
      nextId := nextId + 1;
      availability := availability - {Slot(d, caregiver)};
      vaccines := vaccines[vaccine := doses - 1];
      out := Reserved(id, caregiver);
    }

    /** `search_caregiver_schedule <date>`: the caregivers free on the date in
        username order, then every vaccine with its doses in name order. */
    method SearchCaregiverSchedule(tokens: seq<string>) returns (out: Outcome)
      ensures !LoggedInAsAnyone() ==> out == NotLoggedIn
      ensures LoggedInAsAnyone() && |tokens| != 2 ==> out == WrongArity
      ensures LoggedInAsAnyone() && |tokens| == 2 && parseDate(tokens[1]).None? ==> out == InvalidDate
      ensures LoggedInAsAnyone() && |tokens| == 2 && parseDate(tokens[1]).Some? ==>
              && out.Schedule?
              && StrictlySorted(out.caregivers)
              && (forall c :: c in out.caregivers <==> c in CaregiversOn(availability, parseDate(tokens[1]).value))
              && StrictlySorted(NamesOf(out.stock))
              && (forall v :: v in NamesOf(out.stock) <==> v in vaccines)
              && (forall i :: 0 <= i < |out.stock| ==>
                    out.stock[i].name in vaccines && out.stock[i].doses == vaccines[out.stock[i].name])
    {
      if !LoggedInAsAnyone() {
        return NotLoggedIn;
      }
      if |tokens| != 2 {
        return WrongArity;
      }
      var date := parseDate(tokens[1]);
      if date.None? {
        return InvalidDate;
      }
      var free := SortedElements(CaregiversOn(availability, date.value));
      var names := SortedElements(vaccines.Keys);
      var stock: seq<StockLine> := [];
      for i := 0 to |names|
        invariant |stock| == i
        invariant NamesOf(stock) == names[..i]
        invariant forall k :: 0 <= k < i ==> stock[k].doses == vaccines[names[k]]
      {
        stock := stock + [StockLine(names[i], vaccines[names[i]])];
      }
      assert names[..|names|] == names;
      out := Schedule(free, stock);
    }

    /** `show_appointments`: the appointments of the logged-in user; a
        caregiver's lines name the patient, a patient's the caregiver. */
    method ShowAppointments(tokens: seq<string>) returns (out: Outcome)
      ensures !LoggedInAsAnyone() ==> out == NotLoggedIn
      ensures currentCaregiver.Some? ==>
              out == Appointments(Listing(appointments, currentCaregiver.value, AsCaregiver))
      ensures currentCaregiver.None? && currentPatient.Some? ==>
              out == Appointments(Listing(appointments, currentPatient.value, AsPatient))
    {
      if !LoggedInAsAnyone() {
        return NotLoggedIn;
      }
      var u, role;
      if currentCaregiver.Some? {
        u, role := currentCaregiver.value, AsCaregiver;
      } else {
        u, role := currentPatient.value, AsPatient;
      }
      var rows: seq<Row> := [];
      for i := 0 to |appointments|
        invariant rows == Listing(appointments[..i], u, role)
      {
        var a := appointments[i];
        assert appointments[..i + 1][..i] == appointments[..i];
        if PartyOf(a, role) == u {
          rows := rows + [RowOf(a, role)];
        }
      }
      assert appointments[..|appointments|] == appointments;
      out := Appointments(rows);
    }
  }
}
