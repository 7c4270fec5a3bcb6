/** Sessions of commands against a fresh scheduler, showing what callers can
    conclude from the handlers' contracts alone. */
module Scenarios {
  import opened Wrappers
  import opened Ordering
  import opened Passwords
  import opened Tables
  import opened Scheduling

  const June1 := Date(2024, 6, 1)

  /** A scheduler whose date parser knows one date and whose count parser
      knows the counts 0, 1 and 5. */
  method Fresh() returns (s: Scheduler)
    ensures fresh(s) && s.Valid()
    ensures s.patients == {} && s.caregivers == {} && s.availability == {}
    ensures s.vaccines == map[] && s.appointments == [] && s.nextId == 1
    ensures s.currentCaregiver == None && s.currentPatient == None
    ensures s.parseDate("2024-06-01") == Some(June1) && s.parseDate("June 1") == None
    ensures s.parseCount("5") == Some(5) && s.parseCount("1") == Some(1) && s.parseCount("0") == Some(0)
  {
    s := new Scheduler(t => if t == "2024-06-01" then Some(June1) else None,
                       t => if t == "5" then Some(5) else if t == "1" then Some(1)
                            else if t == "0" then Some(0) else None);
  }

  /** Caregiver `name` registers, logs in, offers June 1st and logs out. */
  method Offer(s: Scheduler, name: string)
    requires s.Valid() && !s.LoggedInAsAnyone() && name !in s.caregivers
    requires s.parseDate("2024-06-01") == Some(June1)
    modifies s
    ensures s.Valid() && !s.LoggedInAsAnyone()
    ensures s.caregivers == old(s.caregivers) + {name}
    ensures s.availability == old(s.availability) + {Slot(June1, name)}
    ensures s.patients == old(s.patients) && s.vaccines == old(s.vaccines)
    ensures s.appointments == old(s.appointments) && s.nextId == old(s.nextId)
  {
    StrongExample();
    var o := s.CreateCaregiver(["create_caregiver", name, "Abcdefg1!"]);
    o := s.LoginCaregiver(["login_caregiver", name, "Abcdefg1!"], (u, p) => true);
    o := s.UploadAvailability(["upload_availability", "2024-06-01"]);
    assert o == AvailabilityUploaded;
    o := s.Logout(["logout"]);
  }

  /** Patient "alice" registers and logs in. */
  method BecomeAlice(s: Scheduler)
    requires s.Valid() && !s.LoggedInAsAnyone() && "alice" !in s.patients
    modifies s
    ensures s.Valid() && s.currentPatient == Some("alice") && s.currentCaregiver == None
    ensures s.availability == old(s.availability) && s.vaccines == old(s.vaccines)
    ensures s.appointments == old(s.appointments) && s.nextId == old(s.nextId)
  {
    StrongExample();
    var o := s.CreatePatient(["create_patient", "alice", "Abcdefg1!"]);
    o := s.LoginPatient(["login_patient", "alice", "Abcdefg1!"], (u, p) => true);
  }

  /** Caregiver `name` registers, logs in, adds `count` doses of "pfizer" and
      logs out. */
  method Stock(s: Scheduler, name: string, count: string, n: int)
    requires s.Valid() && !s.LoggedInAsAnyone() && name !in s.caregivers
    requires s.parseCount(count) == Some(n)
    modifies s
    ensures s.Valid() && !s.LoggedInAsAnyone()
    ensures s.vaccines == Restock(old(s.vaccines), "pfizer", n)
    ensures s.caregivers == old(s.caregivers) + {name}
    ensures s.patients == old(s.patients) && s.availability == old(s.availability)
    ensures s.appointments == old(s.appointments) && s.nextId == old(s.nextId)
  {
    StrongExample();
    var o := s.CreateCaregiver(["create_caregiver", name, "Abcdefg1!"]);
    o := s.LoginCaregiver(["login_caregiver", name, "Abcdefg1!"], (u, p) => true);
    o := s.AddDoses(["add_doses", "pfizer", count]);
    assert o == DosesUpdated;
    o := s.Logout(["logout"]);
  }

  /** Alice logged in, `n` doses of "pfizer", carol alone free on June 1st. */
  method CarolOnly(count: string, n: int) returns (s: Scheduler)
    requires (count, n) == ("0", 0) || (count, n) == ("5", 5)
    ensures fresh(s) && s.Valid()
    ensures s.currentPatient == Some("alice") && s.currentCaregiver == None
    ensures s.parseDate("2024-06-01") == Some(June1)
    ensures s.vaccines == map["pfizer" := n] && s.appointments == [] && s.nextId == 1
    ensures s.availability == {Slot(June1, "carol")}
    ensures CaregiversOn(s.availability, June1) == {"carol"}
  {
    s := Fresh();
    Stock(s, "dave", count, n);
    Offer(s, "carol");
    BecomeAlice(s);
  }

  /** Five doses, one caregiver: the reservation gets id 1 and "carol", leaves
      four doses and consumes carol's slot. */
  method ReserveSucceeds()
  {
    var s := CarolOnly("5", 5);
    var o := s.Reserve(["reserve", "2024-06-01", "pfizer"]);
    assert o == Reserved(1, "carol");
    assert s.vaccines["pfizer"] == 4;
    assert s.availability == {};
    assert s.appointments == [Appointment(1, "alice", "carol", "pfizer", June1)];
  }

  /** A vaccine stocked with 0 doses: the reservation is refused and nothing
      changes. */
  method ReserveWithoutDoses()
  {
    var s := CarolOnly("0", 0);
    var o := s.Reserve(["reserve", "2024-06-01", "pfizer"]);
    assert o == Unavailable(false, true);
    assert s.availability == {Slot(June1, "carol")} && s.appointments == [];
    assert s.vaccines == map["pfizer" := 0];
  }

  /** Doses in stock but no caregiver free: the reservation is refused for
      that reason alone, and nothing changes. */
  method ReserveWithoutCaregiver()
  {
    var s := Fresh();
    Stock(s, "dave", "5", 5);
    BecomeAlice(s);
    assert s.vaccines == map["pfizer" := 5] && s.availability == {};
    assert DosesOf(s.vaccines, "pfizer") == 5;
    var o := s.Reserve(["reserve", "2024-06-01", "pfizer"]);
    assert o == Unavailable(true, false);
    assert s.vaccines == map["pfizer" := 5];
    assert s.availability == {} && s.appointments == [];
  }

  /** No caregiver free and no doses: both reasons are reported. */
  method ReserveWithNothing()
  {
    var s := Fresh();
    BecomeAlice(s);
    var o := s.Reserve(["reserve", "2024-06-01", "pfizer"]);
    assert o == Unavailable(true, true);
    assert s.vaccines == map[] && s.availability == {} && s.appointments == [];
  }

  /** Alice logged in, `n` doses of "pfizer", carol and bob free on June 1st. */
  method BobAndCarol(count: string, n: int) returns (s: Scheduler)
    requires (count, n) == ("1", 1) || (count, n) == ("5", 5)
    ensures fresh(s) && s.Valid()
    ensures s.currentPatient == Some("alice") && s.currentCaregiver == None
    ensures s.parseDate("2024-06-01") == Some(June1)
    ensures s.vaccines == map["pfizer" := n] && s.appointments == []
    ensures s.availability == {Slot(June1, "carol"), Slot(June1, "bob")}
    ensures CaregiversOn(s.availability, June1) == {"bob", "carol"}
  {
    s := Fresh();
    Stock(s, "dave", count, n);
    Offer(s, "carol");
    Offer(s, "bob");
    BecomeAlice(s);
  }

  /** Two caregivers free on the same date: "bob" comes before "carol". */
  method ReservePicksFirstUsername()
  {
    var s := BobAndCarol("5", 5);
    assert Less("bob", "carol");
    assert IsLeast("bob", {"bob", "carol"});
    var o := s.Reserve(["reserve", "2024-06-01", "pfizer"]);
    assert o.Reserved?;
    LeastUnique(o.caregiver, "bob", {"bob", "carol"});
    assert o.caregiver == "bob";
    assert s.availability == {Slot(June1, "carol")};
  }

  /** One dose, two free caregivers: the second reservation is refused for
      lack of doses, so the last dose is not sold twice. */
  method LastDoseSoldOnce()
  {
    var s := BobAndCarol("1", 1);
    var o := s.Reserve(["reserve", "2024-06-01", "pfizer"]);
    assert o.Reserved?;
    assert DosesOf(s.vaccines, "pfizer") == 0 && |s.appointments| == 1;
    o := s.Reserve(["reserve", "2024-06-01", "pfizer"]);
    assert o.Unavailable? && o.noDoses;
    assert |s.appointments| == 1;
  }

  /** Offering the same date twice leaves one slot. */
  method UploadIsIdempotent()
  {
    var s := Fresh();
    StrongExample();
    var o := s.CreateCaregiver(["create_caregiver", "carol", "Abcdefg1!"]);
    o := s.LoginCaregiver(["login_caregiver", "carol", "Abcdefg1!"], (u, p) => true);
    o := s.UploadAvailability(["upload_availability", "2024-06-01"]);
    var once := s.availability;
    o := s.UploadAvailability(["upload_availability", "2024-06-01"]);
    assert s.availability == once == {Slot(June1, "carol")};
  }
}
