/** The request-independent logic of longview_app/app.py: `calculate_age`
    with the clock read passed in as `today`, `get_patient_by_id`, and the
    search rule of the `index` route (lines 49-60) over the loaded records. */
module PatientSearch {
  import opened Base
  import opened PyStrings
  import opened PyDates
  import opened FhirParser

  // ------------------------------------------------------------------ age

  /** `(today.month, today.day) < (dob.month, dob.day)`: this year's
      birthday is still ahead. */
  predicate BeforeBirthday(dob: Date, today: Date) {
    today.month < dob.month || (today.month == dob.month && today.day < dob.day)
  }

  /** Whole years from `dob` to `today`, as line 26 computes them. */
  function AgeOn(dob: Date, today: Date): (age: int)
    ensures today.year - dob.year - 1 <= age <= today.year - dob.year
    ensures age == today.year - dob.year <==> !BeforeBirthday(dob, today)
  {
    today.year - dob.year - (if BeforeBirthday(dob, today) then 1 else 0)
  }

  /** What calculate_age returns: None for a falsy or unparseable date of
      birth, else the age on `today`. */
  function CalculateAge(dob: Option<string>, today: Date): (r: Option<int>)
    ensures !Truthy(dob) ==> r.None?
    ensures r.Some? <==> Truthy(dob) && ParseYmd(dob.value).Some?
    ensures r.Some? ==> r.value == AgeOn(ParseYmd(dob.value).value, today)
  {
    if !Truthy(dob) then None
    else match ParseYmd(dob.value)
      case None => None
      case Some(d) => Some(AgeOn(d, today))
  }

  /** Calendar order on (year, month, day), as tuple comparison orders them. */
  predicate DateLe(a: Date, b: Date) {
    a.year < b.year || (a.year == b.year && (a.month < b.month || (a.month == b.month && a.day <= b.day)))
  }

  /** The age counts birthdays: the age-th anniversary of `dob` has been
      reached by `today` and the next one has not. */
  lemma AgeCountsAnniversaries(dob: Date, today: Date)
    ensures DateLe(Date(dob.year + AgeOn(dob, today), dob.month, dob.day), today)
    ensures !DateLe(Date(dob.year + AgeOn(dob, today) + 1, dob.month, dob.day), today)
  {
    if BeforeBirthday(dob, today) {
      assert dob.year + AgeOn(dob, today) == today.year - 1;
    } else {
      assert dob.year + AgeOn(dob, today) == today.year;
    }
  }

  /** On the birthday itself the age is exactly the difference of years. */
  lemma AgeOnBirthday(dob: Date, today: Date)
    requires today.month == dob.month && today.day == dob.day
    ensures AgeOn(dob, today) == today.year - dob.year
  {
  }

  /** A date of birth no later than today gives an age between zero and the
      difference of years. */
  lemma AgeBounds(dob: Date, today: Date)
    requires DateLe(dob, today)
    ensures 0 <= AgeOn(dob, today) <= today.year - dob.year
  {
  }

  /** Born today: age 0, with the date written as strftime writes it. */
  lemma BornToday(today: Date)
    requires ValidDate(today) && today.year >= 1000
    ensures CalculateAge(Some(FormatYmd(today)), today) == Some(0)
  {
    ParseFormatRoundTrip(today);
  }

  /** The app's age examples: 1990-01-01 on 2024-06-15, and the inputs that
      give None. */
  lemma TestCalculateAge()
    ensures CalculateAge(Some("1990-01-01"), Date(2024, 6, 15)) == Some(34)
    ensures CalculateAge(Some("2000-13-01"), Date(2024, 6, 15)).None?
    ensures CalculateAge(Some("invalid-date"), Date(2024, 6, 15)).None?
    ensures CalculateAge(None, Date(2024, 6, 15)).None?
    ensures CalculateAge(Some(""), Date(2024, 6, 15)).None?
  {
    TestParseYmdAccepts();
    TestParseYmdRejectsBadMonth();
    TestParseYmdRejectsText();
  }

  // ------------------------------------------------------------ lookup

  /** The first record whose patient_id equals `id`. */
  function PatientById(records: seq<PatientSummary>, id: Option<string>): (r: Option<PatientSummary>)
    ensures r.None? <==> forall i :: 0 <= i < |records| ==> records[i].patientId != id
    ensures r.Some? ==> exists i :: 0 <= i < |records| && records[i] == r.value && records[i].patientId == id
                                    && forall k :: 0 <= k < i ==> records[k].patientId != id
  {
    if records == [] then None
    else if records[0].patientId == id then Some(records[0])
    else
      var r := PatientById(records[1..], id);
      assert forall k :: 1 <= k < |records| ==> records[1..][k - 1] == records[k];
      r
  }

  /** get_patient_by_id: an early-return scan. */
  method GetPatientById(records: seq<PatientSummary>, id: Option<string>) returns (r: Option<PatientSummary>)
    ensures r == PatientById(records, id)
  {
    for i := 0 to |records|
      invariant PatientById(records, id) == PatientById(records[i..], id)
    {
      assert records[i..][1..] == records[i + 1..];
      if records[i].patientId == id {
        return Some(records[i]);
      }
    }
    return None;
  }

  // ------------------------------------------------------------ search

  /** Case-insensitive substring match of the query in the name. */
  predicate NameMatches(name: string, query: string) {
    Contains(Lower(name), Lower(query))
  }

  /** The search rule: an exact id match, or the query inside the full name
      ignoring case; a record without a name matches only by id. */
  predicate Matches(p: PatientSummary, query: string) {
    p.patientId == Some(query) || (p.fullName.Some? && NameMatches(p.fullName.value, query))
  }

  /** The matching records, each once, in collection order. */
  function SearchResults(records: seq<PatientSummary>, query: string): (r: seq<PatientSummary>)
    ensures |r| <= |records|
  {
    if records == [] then []
    else (if Matches(records[0], query) then [records[0]] else []) + SearchResults(records[1..], query)
  }

  /** The rule as line 57-58 write it: `patient.get('full_name', '')` is None
      for a record whose patient had no name, and `None.lower()` raises. */
  function SearchAsWritten(records: seq<PatientSummary>, query: string): (r: Outcome<seq<PatientSummary>>)
    ensures r.Raised? ==> r.error == AttributeError
    ensures r.Raised? <==> exists i :: 0 <= i < |records| && records[i].patientId != Some(query) && records[i].fullName.None?
    ensures r.Ok? ==> |r.value| <= |records|
  {
    if records == [] then Ok([])
    else
      var p := records[0];
      var head: Outcome<seq<PatientSummary>> :=
        if p.patientId == Some(query) then Ok([p])
        else if p.fullName.None? then Raised(AttributeError)
        else if NameMatches(p.fullName.value, query) then Ok([p])
        else Ok([]);
      var h :- head;
      var rest :- SearchAsWritten(records[1..], query);
      Ok(h + rest)
  }

  /** A record without a name whose id is not the query makes the search as
      written raise. */
  lemma SearchAsWrittenRaisesOnNamelessRecord()
    ensures SearchAsWritten([PatientSummary(Some("p-1"), None, None, None, None, None, None, None, None, None, [], [], [])], "smith")
         == Raised(AttributeError)
  {
  }

  /** Where every record has a name (or matches by id) the search as written
      and the search with the None name read as "" agree. */
  lemma {:induction false} SearchAsWrittenAgreesWhenNamed(records: seq<PatientSummary>, query: string)
    requires forall i :: 0 <= i < |records| ==> records[i].patientId == Some(query) || records[i].fullName.Some?
    ensures SearchAsWritten(records, query) == Ok(SearchResults(records, query))
  {
    if records != [] {
      SearchAsWrittenAgreesWhenNamed(records[1..], query);
    }
  }

  /** A record is found exactly when it is in the collection and matches. */
  lemma {:induction false} SearchMembership(records: seq<PatientSummary>, query: string, p: PatientSummary)
    ensures p in SearchResults(records, query) <==> p in records && Matches(p, query)
  {
    if records != [] {
      SearchMembership(records[1..], query, p);
      assert records == [records[0]] + records[1..];
    }
  }

  /** Results keep collection order: searching two collections one after the
      other gives the two result lists one after the other. */
  lemma {:induction false} SearchAppend(a: seq<PatientSummary>, b: seq<PatientSummary>, query: string)
    ensures SearchResults(a + b, query) == SearchResults(a, query) + SearchResults(b, query)
  {
    if a == [] {
      assert a + b == b;
    } else {
      var h := if Matches(a[0], query) then [a[0]] else [];
      assert (a + b)[0] == a[0];
      assert (a + b)[1..] == a[1..] + b;
      assert SearchResults(a + b, query) == h + SearchResults(a[1..] + b, query);
      SearchAppend(a[1..], b, query);
      assert SearchResults(a, query) == h + SearchResults(a[1..], query);
    }
  }

  /** The search of the `index` route for a submitted query: strip it, and
      with a non-empty query append each matching record. */
  method SearchPatients(records: seq<PatientSummary>, rawQuery: string) returns (results: seq<PatientSummary>)
    ensures Strip(rawQuery) == "" ==> results == []
    ensures Strip(rawQuery) != "" ==> results == SearchResults(records, Strip(rawQuery))
  {
    var query := Strip(rawQuery);
    results := [];
    if query != "" {
      for i := 0 to |records|
        invariant results == SearchResults(records[..i], query)
      {
        SearchAppend(records[..i], [records[i]], query);
        assert records[..i + 1] == records[..i] + [records[i]];
        var p := records[i];
        if p.patientId == Some(query) {
          results := results + [p];
          continue;
        }
        var name := if p.fullName.Some? then p.fullName.value else "";
        if Contains(Lower(name), Lower(query)) {
          results := results + [p];
          continue;
        }
      }
      assert records[..|records|] == records;
    }
  }

  /** The app's search by id: "patient-001" finds Walter White's record. */
  /** The three records of the app tests. The search reads only the id and
      the name; the encounter and diagnosis lists are left empty. */
  function MockPatients(): (r: seq<PatientSummary>)
    ensures |r| == 3
  {
    [PatientSummary(Some("patient-001"), Some("Walter White"), Some("1959-09-07"), Some("male"),
                    Some("Chemist's Choice Health"), Some("Dr. Saul Goodman"), Some("505-111-2222"),
                    None, None, None, [], [], []),
     PatientSummary(Some("patient-002"), Some("Jesse Bruce Pinkman"), Some("1984-08-24"), Some("male"),
                    Some("CapnCook Priority Plan"), Some("Dr. Walter White"), Some("505-333-4444"),
                    None, None, None, [], [], []),
     PatientSummary(Some("patient-003"), Some("Skyler White (n\U{e9}e Lambert)"), Some("1970-08-11"), Some("female"),
                    Some("A1 Car Wash Benefits"), Some("Dr. Marie Schrader"), Some("505-555-6666"),
                    None, None, None, [], [], [])]
  }

  /** Of a search over three records, only the first one matching, that
      record alone is found. */
  lemma SearchFindsOnlyFirstOfThree(m: seq<PatientSummary>, q: string)
    requires |m| == 3 && Matches(m[0], q) && !Matches(m[1], q) && !Matches(m[2], q)
    ensures SearchResults(m, q) == [m[0]]
  {
    assert m[1..][1..] == m[2..] && m[2..][1..] == [];
    assert SearchResults(m[2..], q) == [];
    assert SearchResults(m[1..], q) == [];
  }

  /** The upper-case form of a lower-case ASCII letter. */
  function UpperChar(c: char): (u: char)
    requires 'a' <= c <= 'z'
    ensures LowerChar(u) == c && u != c
  {
    (c as int - 32) as char
  }

  /** A name misses a query whose first two characters lower-case to the
      letters `a` and `b` when no `a` of the name, in either case, is
      followed by a `b`, in either case. */
  lemma NameMissesWithoutFirstPair(name: string, q: string, a: char, b: char)
    requires |q| >= 2 && 'a' <= a <= 'z' && 'a' <= b <= 'z' && LowerChar(q[0]) == a && LowerChar(q[1]) == b
    requires forall i :: 0 <= i < |name| - 1 && (name[i] == a || name[i] == UpperChar(a))
                         ==> name[i + 1] != b && name[i + 1] != UpperChar(b)
    ensures !NameMatches(name, q)
  {
    var n := Lower(name);
    assert forall i :: 0 <= i < |n| && n[i] == a ==> name[i] == a || name[i] == UpperChar(a);
    assert forall i :: 0 <= i < |n| && n[i] == b ==> name[i] == b || name[i] == UpperChar(b);
    NotContainedWithoutFirstPair(n, Lower(q));
  }

  /** "Jesse Bruce Pinkman" holds no "pa", in any case. */
  lemma JesseMissesId()
    ensures !NameMatches("Jesse Bruce Pinkman", "patient-001")
  {
    NameMissesWithoutFirstPair("Jesse Bruce Pinkman", "patient-001", 'p', 'a');
  }

  /** "Skyler White (née Lambert)" holds no "pa", in any case. */
  lemma SkylerMissesId()
    ensures !NameMatches("Skyler White (n\U{e9}e Lambert)", "patient-001")
  {
    NameMissesWithoutFirstPair("Skyler White (n\U{e9}e Lambert)", "patient-001", 'p', 'a');
  }

  /** "Jesse Bruce Pinkman" holds no "wa", in any case. */
  lemma JesseMissesWalter()
    ensures !NameMatches("Jesse Bruce Pinkman", "WALTER white")
  {
    NameMissesWithoutFirstPair("Jesse Bruce Pinkman", "WALTER white", 'w', 'a');
  }

  /** "Skyler White (née Lambert)" holds no "wa", in any case. */
  lemma SkylerMissesWalter()
    ensures !NameMatches("Skyler White (n\U{e9}e Lambert)", "WALTER white")
  {
    NameMissesWithoutFirstPair("Skyler White (n\U{e9}e Lambert)", "WALTER white", 'w', 'a');
  }

  /** The second test record differs from "patient-001" in its last digit and
      its name holds no "pa". */
  lemma JesseNotFoundById()
    ensures !Matches(MockPatients()[1], "patient-001")
  {
    JesseMissesId();
    assert MockPatients()[1].patientId.value[10] != "patient-001"[10];
  }

  /** The third test record differs from "patient-001" in its last digit and
      its name holds no "pa". */
  lemma SkylerNotFoundById()
    ensures !Matches(MockPatients()[2], "patient-001")
  {
    SkylerMissesId();
    assert MockPatients()[2].patientId.value[10] != "patient-001"[10];
  }

  /** Searching "patient-001" finds Walter White alone. */
  lemma TestSearchById()
    ensures SearchResults(MockPatients(), "patient-001") == [MockPatients()[0]]
  {
    assert Matches(MockPatients()[0], "patient-001");
    JesseNotFoundById();
    SkylerNotFoundById();
    SearchFindsOnlyFirstOfThree(MockPatients(), "patient-001");
  }

  /** "WALTER white" matches "Walter White" once both are lower-cased. */
  lemma WalterMatchesIgnoringCase()
    ensures NameMatches("Walter White", "WALTER white")
  {
    var q := "WALTER white";
    var n := "Walter White";
    assert forall i :: 0 <= i < 12 ==> LowerChar(q[i]) == LowerChar(n[i]);
    assert Lower(q) == Lower(n);
  }

  /** The first test record matches "WALTER white" by name, ignoring case. */
  lemma WalterFoundByName()
    ensures Matches(MockPatients()[0], "WALTER white")
  {
    WalterMatchesIgnoringCase();
  }

  /** The second test record's name holds no "wa". */
  lemma JesseNotFoundByName()
    ensures !Matches(MockPatients()[1], "WALTER white")
  {
    JesseMissesWalter();
  }

  /** The third test record's name holds no "wa". */
  lemma SkylerNotFoundByName()
    ensures !Matches(MockPatients()[2], "WALTER white")
  {
    SkylerMissesWalter();
  }

  /** Searching "WALTER white" finds Walter White alone. */
  lemma TestSearchIgnoresCase()
    ensures SearchResults(MockPatients(), "WALTER white") == [MockPatients()[0]]
  {
    WalterFoundByName();
    JesseNotFoundByName();
    SkylerNotFoundByName();
    SearchFindsOnlyFirstOfThree(MockPatients(), "WALTER white");
  }
}
