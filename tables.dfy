/** The database tables the scheduler reads and writes, as values, and the
    pure rules over them: which caregivers are free on a date, how many doses a
    vaccine has, how `add_doses` restocks, and which appointments a user sees. */
module Tables {
  import opened Wrappers
  import opened Ordering

  /** A calendar day, as `java.sql.Date` holds it after `Date.valueOf`. */
  datatype Date = Date(year: int, month: int, day: int)

  /** A row of the Availabilities table: `caregiver` offers `date`. */
  datatype Slot = Slot(date: Date, caregiver: string)

  /** A row of the Appointments table. */
  datatype Appointment = Appointment(id: nat, patient: string, caregiver: string, vaccine: string, date: Date)

  /** Whose appointments a listing shows. */
  datatype Role = AsPatient | AsCaregiver

  /** A line of `show_appointments`: id, vaccine, date and the other party. */
  datatype Row = Row(id: nat, vaccine: string, date: Date, counterpart: string)

  /** A line of the vaccine part of `search_caregiver_schedule`. */
  datatype StockLine = StockLine(name: string, doses: int)

  /** The vaccine names of a stock listing, in listing order. */
  function NamesOf(stock: seq<StockLine>): (names: seq<string>)
    ensures |names| == |stock|
    ensures forall i :: 0 <= i < |stock| ==> names[i] == stock[i].name
  {
    seq(|stock|, i requires 0 <= i < |stock| => stock[i].name)
  }

  /** The usernames with an Availabilities row on `d`. */
  function CaregiversOn(avail: set<Slot>, d: Date): (r: set<string>)
    ensures forall c :: c in r <==> Slot(d, c) in avail
  {
    assert forall c :: Slot(d, c).caregiver == c;
    set s | s in avail && s.date == d :: s.caregiver
  }


  /** The `TOP 1 ... ORDER BY Username` query: the first caregiver, in username
      order, offering `d`, or none when nobody offers it. */
  method ChooseCaregiver(avail: set<Slot>, d: Date) returns (c: Option<string>)
    ensures c.None? <==> CaregiversOn(avail, d) == {}
    ensures c.Some? ==> IsLeast(c.value, CaregiversOn(avail, d)) && Slot(d, c.value) in avail
    ensures c.Some? ==> c.value == SelectedAsWritten(avail, d)
    ensures c.None? ==> SelectedAsWritten(avail, d) == ""
  {
    var free := CaregiversOn(avail, d);
    if free == {} {
      c := None;
    } else {
      LeastExists(free);
      var m :| m in free && IsLeast(m, free);
      LeastUnique(m, SelectedAsWritten(avail, d), free);
      c := Some(m);
    }
  }

  /** The caregiver `reserve` selects as written: the username of the one row
      the query returns, or the initial "" when it returns none; "" is then
      read as "no caregiver is available". */
  ghost function SelectedAsWritten(avail: set<Slot>, d: Date): (c: string)
    ensures CaregiversOn(avail, d) == {} ==> c == ""
    ensures CaregiversOn(avail, d) != {} ==> IsLeast(c, CaregiversOn(avail, d))
  {
    var free := CaregiversOn(avail, d);
    if free == {} then ""
    else
      LeastExists(free);
      var m :| IsLeast(m, free); m
  }

  ghost predicate ReportsNoCaregiverAsWritten(avail: set<Slot>, d: Date)
  {
    SelectedAsWritten(avail, d) == ""
  }

  /** As written, "no caregiver" is reported exactly when nobody offers `d`
      OR a caregiver whose username is empty offers it, since "" sorts first. */
  lemma AsWrittenNoCaregiverWhen(avail: set<Slot>, d: Date)
    ensures ReportsNoCaregiverAsWritten(avail, d) <==>
            CaregiversOn(avail, d) == {} || "" in CaregiversOn(avail, d)
  {
    var free := CaregiversOn(avail, d);
    if "" in free {
      var m := SelectedAsWritten(avail, d);
      if m != "" {
        EmptyIsFirst(m);
      }
    }
  }

  /** A caregiver named "" hides every other caregiver offering the same date. */
  lemma EmptyNameHidesOtherCaregivers()
    ensures var d := Date(2024, 6, 1);
            var avail := {Slot(d, ""), Slot(d, "bob")};
            "bob" in CaregiversOn(avail, d) && ReportsNoCaregiverAsWritten(avail, d)
  {
    var d := Date(2024, 6, 1);
    var avail := {Slot(d, ""), Slot(d, "bob")};
    AsWrittenNoCaregiverWhen(avail, d);
  }

  /** The dose count `reserve` reads: an unknown vaccine reads as 0. */
  function DosesOf(stock: map<string, int>, name: string): (r: int)
    ensures name !in stock ==> r == 0
    ensures NonNegativeStock(stock) ==> r >= 0
  {
    if name in stock then stock[name] else 0
  }

  /** The Vaccines table after `add_doses name n`: an unknown vaccine is
      created with `n` doses, a known one gains `n`. */
  function Restock(stock: map<string, int>, name: string, n: int): (r: map<string, int>)
    ensures r.Keys == stock.Keys + {name}
    ensures r[name] == DosesOf(stock, name) + n
    ensures forall v :: v in stock && v != name ==> r[v] == stock[v]
  {
    if name in stock then stock[name := stock[name] + n] else stock[name := n]
  }

  /** Restocking twice is restocking once with the sum. */
  lemma RestockAdds(stock: map<string, int>, name: string, a: int, b: int)
    ensures Restock(Restock(stock, name, a), name, b) == Restock(stock, name, a + b)
  {
  }

  ghost predicate NonNegativeStock(stock: map<string, int>)
  {
    forall v :: v in stock ==> stock[v] >= 0
  }

  /** Adding a non-negative count keeps every dose count non-negative. */
  lemma RestockKeepsNonNegative(stock: map<string, int>, name: string, n: int)
    requires NonNegativeStock(stock) && n >= 0
    ensures NonNegativeStock(Restock(stock, name, n))
  {
  }

  /** Appointment ids grow along the ledger, so none is repeated. */
  predicate IdsIncreasing(apps: seq<Appointment>)
  {
    forall i, j :: 0 <= i < j < |apps| ==> apps[i].id < apps[j].id
  }

  /** Every id in the ledger is below `next`, the id the next insert gets. */
  predicate IdsBelow(apps: seq<Appointment>, next: nat)
  {
    forall i :: 0 <= i < |apps| ==> apps[i].id < next
  }

  /** Recording an appointment under the next id keeps ids increasing and fresh. */
  lemma RecordKeepsIds(apps: seq<Appointment>, next: nat, a: Appointment)
    requires IdsIncreasing(apps) && IdsBelow(apps, next) && a.id == next
    ensures IdsIncreasing(apps + [a]) && IdsBelow(apps + [a], next + 1)
  {
  }

  /** The user an appointment belongs to in a listing for `role`. */
  function PartyOf(a: Appointment, role: Role): string
  {
    match role
    case AsPatient => a.patient
    case AsCaregiver => a.caregiver
  }

  /** The listing line of `a`: a caregiver sees the patient, a patient the caregiver. */
  function RowOf(a: Appointment, role: Role): Row
  {
    match role
    case AsPatient => Row(a.id, a.vaccine, a.date, a.caregiver)
    case AsCaregiver => Row(a.id, a.vaccine, a.date, a.patient)
  }

  /** The lines `show_appointments` prints for user `u` in `role`, in ledger order. */
  function Listing(apps: seq<Appointment>, u: string, role: Role): (r: seq<Row>)
    ensures |r| <= |apps|
    ensures (forall i :: 0 <= i < |apps| ==> PartyOf(apps[i], role) != u) ==> r == []
    decreases |apps|
  {
    if apps == [] then []
    else
      var a := apps[|apps| - 1];
      Listing(apps[..|apps| - 1], u, role) + (if PartyOf(a, role) == u then [RowOf(a, role)] else [])
  }

  /** A listing holds exactly the lines of the appointments that belong to `u`. */
  lemma {:induction false} ListingHasExactly(apps: seq<Appointment>, u: string, role: Role, r: Row)
    ensures r in Listing(apps, u, role) <==>
            exists i :: 0 <= i < |apps| && PartyOf(apps[i], role) == u && RowOf(apps[i], role) == r
    decreases |apps|
  {
    if apps != [] {
      var n := |apps| - 1;
      var init := apps[..n];
      ListingHasExactly(init, u, role, r);
      if r in Listing(init, u, role) {
        var i :| 0 <= i < |init| && PartyOf(init[i], role) == u && RowOf(init[i], role) == r;
        assert apps[i] == init[i];
      }
      if exists i :: 0 <= i < |apps| && PartyOf(apps[i], role) == u && RowOf(apps[i], role) == r {
        var i :| 0 <= i < |apps| && PartyOf(apps[i], role) == u && RowOf(apps[i], role) == r;
        if i < n {
          assert init[i] == apps[i];
        }
      }
    }
  }
}
