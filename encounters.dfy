/** `parse_recent_encounters` (longview_app/fhir_parser.py:92-134, shared
    with oneview_app/fhir_parser.py): one summary per Encounter, in input
    order. Only the diagnosis `use` lookup can raise. */
module EncounterParser {
  import opened Base
  import opened PyStrings
  import opened Fhir

  /** The five keys of `encounter_info`. */
  datatype EncounterSummary = EncounterSummary(
    date: Option<string>,
    kind: Option<string>,
    facility: Option<string>,
    provider: Option<string>,
    primaryDiagnosisText: Option<string>)

  // ---------------------------------------------------------------- fields

  /** `period.get("start") or period.get("end")` */
  function EncounterDate(e: Encounter): (r: Option<string>)
    ensures e.period.Some? && Truthy(e.period.value.start) ==> r == e.period.value.start
    ensures (e.period.None? || !Truthy(e.period.value.start)) ==> r == (if e.period.Some? then e.period.value.end else None)
  {
    if e.period.None? then None else Or(e.period.value.start, e.period.value.end)
  }

  /** The first type's truthy text, else its first coding's display (which
      may be absent); None without types. */
  function EncounterType(e: Encounter): (r: Option<string>)
    ensures e.types == [] ==> r.None?
    ensures e.types != [] && Truthy(e.types[0].text) ==> r == e.types[0].text
    ensures e.types != [] && !Truthy(e.types[0].text) && e.types[0].Codings() != []
            ==> r == e.types[0].Codings()[0].display
    ensures e.types != [] && !Truthy(e.types[0].text) && e.types[0].Codings() == [] ==> r.None?
  {
    if e.types == [] then None
    else
      var t := e.types[0];
      if Truthy(t.text) then t.text
      else if t.Codings() != [] then t.Codings()[0].display
      else None
  }

  /** A participant counted as the provider: its individual's reference
      (default "") contains "Practitioner" and it has a truthy display. */
  predicate IsProvider(p: Participant) {
    var ref := if p.individual.Some? && p.individual.value.reference.Some?
               then p.individual.value.reference.value else "";
    Contains(ref, "Practitioner") && Truthy(DisplayOf(p.individual))
  }

  /** The display of the first provider participant. */
  function FirstProvider(ps: seq<Participant>): (r: Option<string>)
    ensures r.Some? ==> r.value != ""
    ensures r.None? <==> forall j :: 0 <= j < |ps| ==> !IsProvider(ps[j])
  {
    if ps == [] then None
    else if IsProvider(ps[0]) then DisplayOf(ps[0].individual)
    else FirstProvider(ps[1..])
  }

  /** The provider of an encounter: `provider` after the participant loop. */
  function EncounterProvider(e: Encounter): Option<string> {
    FirstProvider(e.participant)
  }

  /** The first provider participant, wherever it sits, names the provider. */
  lemma {:induction false} FirstProviderAt(ps: seq<Participant>, j: nat)
    requires j < |ps| && IsProvider(ps[j])
    requires forall m :: 0 <= m < j ==> !IsProvider(ps[m])
    ensures FirstProvider(ps) == DisplayOf(ps[j].individual)
  {
    if j > 0 {
      assert !IsProvider(ps[0]);
      assert ps[1..][j - 1] == ps[j];
      FirstProviderAt(ps[1..], j - 1);
    }
  }

  // ------------------------------------------------------ primary diagnosis

  /** `diagnosis_entry.get("use", {}).get("coding", [{}])[0].get("code")` */
  function UseCode(d: EncounterDiagnosis): (r: Outcome<Option<string>>)
    ensures r.Raised? <==> d.use.Some? && d.use.value.coding == Some([])
    ensures r.Ok? && r.value.Some? ==> d.use.Some? && d.use.value.coding.Some? && r.value == d.use.value.coding.value[0].code
  {
    FirstCodeOrDefault(d.use)
  }

  /** The use codes taken to mark a primary diagnosis. */
  predicate IsPrimaryUse(code: Option<string>) {
    code == Some("primary") || code == Some("chief-complaint") || code == Some("CC")
    || code == Some("admission") || code == Some("AD")
  }

  /** `diagnosis_entry.get("condition", {}).get("display")` */
  function ConditionDisplay(d: EncounterDiagnosis): Option<string> {
    DisplayOf(d.condition)
  }

  predicate HasConditionDisplay(d: EncounterDiagnosis) {
    Truthy(ConditionDisplay(d))
  }

  /** The diagnosis loop ends at an entry whose use lookup raises or that is
      a primary diagnosis with a display (the `break`). */
  predicate EndsDiagnosisScan(d: EncounterDiagnosis) {
    UseCode(d).Raised? || (IsPrimaryUse(UseCode(d).value) && HasConditionDisplay(d))
  }

  /** The display of the first entry with any display: the value the
      fallback branch leaves when the loop runs to the end. */
  function FirstDiagnosisDisplay(ds: seq<EncounterDiagnosis>): (r: Option<string>)
    ensures r.Some? ==> r.value != ""
    ensures r.None? <==> forall k :: 0 <= k < |ds| ==> !HasConditionDisplay(ds[k])
    ensures forall k :: 0 <= k < |ds| && HasConditionDisplay(ds[k])
                        && (forall m :: 0 <= m < k ==> !HasConditionDisplay(ds[m]))
                        ==> r == ConditionDisplay(ds[k])
  {
    match FirstIndex(ds, HasConditionDisplay)
    case None => None
    case Some(k) => ConditionDisplay(ds[k])
  }

  /** What the primary-diagnosis loop leaves in `primary_diagnosis_text`:
      the entry where it stops decides (raise, or that entry's display);
      without a stop, the first display of any entry. */
  function PrimaryDiagnosisText(ds: seq<EncounterDiagnosis>): (r: Outcome<Option<string>>)
    ensures r.Raised? ==> r.error == IndexError
    ensures r.Ok? && r.value.Some? ==> r.value.value != ""
  {
    match FirstIndex(ds, EndsDiagnosisScan)
    case Some(i) => if UseCode(ds[i]).Raised? then Raised(IndexError) else Ok(ConditionDisplay(ds[i]))
    case None => Ok(FirstDiagnosisDisplay(ds))
  }

  /** The summary of one encounter, or the error its diagnoses raise. */
  function EncounterInfo(e: Encounter): (r: Outcome<EncounterSummary>)
    ensures r.Raised? <==> PrimaryDiagnosisText(e.diagnosis).Raised?
    ensures r.Raised? ==> r.error == IndexError
    ensures r.Ok? ==> r.value.provider.Some? ==> r.value.provider.value != ""
    ensures r.Ok? ==> r.value.primaryDiagnosisText.Some? ==> r.value.primaryDiagnosisText.value != ""
  {
    var dx :- PrimaryDiagnosisText(e.diagnosis);
    Ok(EncounterSummary(EncounterDate(e), EncounterType(e), DisplayOf(e.serviceProvider),
                        EncounterProvider(e), dx))
  }

  /** What parse_recent_encounters returns: every encounter's summary in
      order, or the error of the first encounter that raises. */
  function RecentEncounters(encs: seq<Encounter>): (r: Outcome<seq<EncounterSummary>>)
    ensures r.Ok? <==> forall k :: 0 <= k < |encs| ==> EncounterInfo(encs[k]).Ok?
    ensures r.Ok? ==> |r.value| == |encs|
                      && forall k :: 0 <= k < |encs| ==> EncounterInfo(encs[k]) == Ok(r.value[k])
  {
    Traverse(encs, EncounterInfo)
  }

  // ----------------------------------------------------------------- loops

  /** The provider loop: the first practitioner participant with a display. */
  method ScanProvider(e: Encounter) returns (provider: Option<string>)
    ensures provider == EncounterProvider(e)
  {
    var ps := e.participant;
    for j := 0 to |ps|
      invariant FirstProvider(ps[j..]) == FirstProvider(ps)
    {
      assert ps[j..][1..] == ps[j + 1..];
      var p := ps[j];
      var ref := if p.individual.Some? && p.individual.value.reference.Some?
                 then p.individual.value.reference.value else "";
      if Contains(ref, "Practitioner") {
        if Truthy(DisplayOf(p.individual)) {
          return DisplayOf(p.individual);
        }
      }
    }
    return None;
  }

  /** The primary-diagnosis loop: a fallback value written by the first entry
      with a display, overwritten by a primary entry that then breaks. */
  method ScanPrimaryDiagnosis(ds: seq<EncounterDiagnosis>) returns (r: Outcome<Option<string>>)
    ensures r == PrimaryDiagnosisText(ds)
  {
    var text: Option<string> := None;
    ghost var at: nat := 0;
    var i := 0;
    while i < |ds|
      invariant 0 <= i <= |ds|
      invariant forall k :: 0 <= k < i ==> !EndsDiagnosisScan(ds[k])
      invariant text.None? ==> forall k :: 0 <= k < i ==> !HasConditionDisplay(ds[k])
      invariant text.Some? ==> at < i && HasConditionDisplay(ds[at]) && text == ConditionDisplay(ds[at])
                               && forall m :: 0 <= m < at ==> !HasConditionDisplay(ds[m])
    {
      var d := ds[i];
      var use := UseCode(d);
      if use.Raised? {
        return Raised(use.error);
      }
      if IsPrimaryUse(use.value) {
        if Truthy(ConditionDisplay(d)) {
          text := ConditionDisplay(d);
          break;
        }
      }
      if !Truthy(text) && Truthy(ConditionDisplay(d)) {
        text := ConditionDisplay(d);
        at := i;
      }
      i := i + 1;
    }
    return Ok(text);
  }

  /** One turn of the outer loop: fill `encounter_info`. */
  method ParseEncounter(e: Encounter) returns (r: Outcome<EncounterSummary>)
    ensures r == EncounterInfo(e)
  {
    var date := EncounterDate(e);
    var facility := DisplayOf(e.serviceProvider);
    var kind: Option<string> := None;
    if e.types != [] {
      var t := e.types[0];
      if Truthy(t.text) {
        kind := t.text;
      } else if t.Codings() != [] {
        kind := t.Codings()[0].display;
      }
    }
    var provider := ScanProvider(e);
    var dx := ScanPrimaryDiagnosis(e.diagnosis);
    if dx.Raised? {
      return Raised(dx.error);
    }
    return Ok(EncounterSummary(date, kind, facility, provider, dx.value));
  }

  /** parse_recent_encounters: append one summary per encounter. */
  method ParseRecentEncounters(encs: seq<Encounter>) returns (r: Outcome<seq<EncounterSummary>>)
    ensures r == RecentEncounters(encs)
  {
    var out: seq<EncounterSummary> := [];
    for i := 0 to |encs|
      invariant Traverse(encs[..i], EncounterInfo) == Ok(out)
    {
      var info := ParseEncounter(encs[i]);
      if info.Raised? {
        TraverseExtendRaised(encs, EncounterInfo, i);
        return Raised(info.error);
      }
      TraverseExtendOk(encs, EncounterInfo, i, out);
      out := out + [info.value];
    }
    assert encs[..|encs|] == encs;
    return Ok(out);
  }

  // ---------------------------------------------------------------- lemmas

  /** A primary entry with a display wins over displays of earlier entries
      (line 126 overwrites the fallback), provided nothing earlier stops the
      loop. */
  lemma PrimaryDiagnosisOverridesFallback(ds: seq<EncounterDiagnosis>, j: nat)
    requires j < |ds|
    requires UseCode(ds[j]).Ok? && IsPrimaryUse(UseCode(ds[j]).value) && HasConditionDisplay(ds[j])
    requires forall k :: 0 <= k < j ==> !EndsDiagnosisScan(ds[k])
    ensures PrimaryDiagnosisText(ds) == Ok(ConditionDisplay(ds[j]))
  {
    assert EndsDiagnosisScan(ds[j]);
  }

  /** When no entry stops the loop (none raises, and no primary entry has a
      display), the text is the display of the first entry that has one. A
      primary-coded entry without a display does not stop the loop. */
  lemma PrimaryDiagnosisFallsBackToFirstDisplay(ds: seq<EncounterDiagnosis>, j: nat)
    requires j < |ds| && HasConditionDisplay(ds[j])
    requires forall k :: 0 <= k < j ==> !HasConditionDisplay(ds[k])
    requires forall k :: 0 <= k < |ds| ==> !EndsDiagnosisScan(ds[k])
    ensures PrimaryDiagnosisText(ds) == Ok(ConditionDisplay(ds[j]))
  {
  }

  /** An entry whose `use.coding` is present but empty raises when the loop
      reaches it. */
  lemma PrimaryDiagnosisRaisesOnEmptyUseCoding(ds: seq<EncounterDiagnosis>, j: nat)
    requires j < |ds| && ds[j].use.Some? && ds[j].use.value.coding == Some([])
    requires forall k :: 0 <= k < j ==> !EndsDiagnosisScan(ds[k])
    ensures PrimaryDiagnosisText(ds) == Raised(IndexError)
  {
    assert EndsDiagnosisScan(ds[j]);
  }

  /** The parser's first encounter fixture: a PCP participant that is also
      the provider, and a "primary" diagnosis. */
  lemma TestRoutineCheckup()
    ensures EncounterInfo(Encounter(
              Some(Period(Some("2023-01-15T10:00:00Z"), Some("2023-01-15T10:30:00Z"))),
              [CodeableConcept(Some("Routine Checkup"), None)],
              Some(Reference(None, Some("General Hospital"), None)),
              [Participant([CodeableConcept(None, Some([Coding(None, Some("PCP"), None)]))],
                           Some(Reference(Some("Practitioner/pcp-1"), Some("Dr. Primary Care"), None)))],
              [EncounterDiagnosis(Some(Reference(None, Some("Hypertension"), None)),
                                  Some(CodeableConcept(None, Some([Coding(None, Some("primary"), None)]))))]))
         == Ok(EncounterSummary(Some("2023-01-15T10:00:00Z"), Some("Routine Checkup"), Some("General Hospital"),
                                Some("Dr. Primary Care"), Some("Hypertension")))
  {
    var p := Participant([CodeableConcept(None, Some([Coding(None, Some("PCP"), None)]))],
                         Some(Reference(Some("Practitioner/pcp-1"), Some("Dr. Primary Care"), None)));
    assert "Practitioner" <= "Practitioner/pcp-1";
    assert IsProvider(p);
    var ds := [EncounterDiagnosis(Some(Reference(None, Some("Hypertension"), None)),
                                  Some(CodeableConcept(None, Some([Coding(None, Some("primary"), None)]))))];
    PrimaryDiagnosisOverridesFallback(ds, 0);
  }

  /** The parser's second encounter fixture: type from the coding display,
      provider without a role, an admission ("AD") diagnosis. */
  lemma TestSpecialistVisit()
    ensures EncounterInfo(Encounter(
              Some(Period(Some("2023-03-20T14:00:00Z"), None)),
              [CodeableConcept(None, Some([Coding(None, None, Some("Specialist Visit"))]))],
              Some(Reference(None, Some("Specialty Clinic"), None)),
              [Participant([], Some(Reference(Some("Practitioner/spec-1"), Some("Dr. Spectialist"), None)))],
              [EncounterDiagnosis(Some(Reference(None, Some("Type 2 Diabetes"), None)),
                                  Some(CodeableConcept(None, Some([Coding(None, Some("AD"), None)]))))]))
         == Ok(EncounterSummary(Some("2023-03-20T14:00:00Z"), Some("Specialist Visit"), Some("Specialty Clinic"),
                                Some("Dr. Spectialist"), Some("Type 2 Diabetes")))
  {
    var p := Participant([], Some(Reference(Some("Practitioner/spec-1"), Some("Dr. Spectialist"), None)));
    assert "Practitioner" <= "Practitioner/spec-1";
    assert IsProvider(p);
    var ds := [EncounterDiagnosis(Some(Reference(None, Some("Type 2 Diabetes"), None)),
                                  Some(CodeableConcept(None, Some([Coding(None, Some("AD"), None)]))))];
    PrimaryDiagnosisOverridesFallback(ds, 0);
  }
}
