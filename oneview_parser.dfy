/** `parse_fhir_bundle` of oneview_app/fhir_parser.py:176-198: the same
    field parsers as the longview version (its lines 16-174 repeat
    longview_app/fhir_parser.py:19-177), assembled into a nine-key record
    without address, marital status, language or medications. */
module OneviewParser {
  import opened Base
  import opened Fhir
  import opened Bundles
  import opened Demographics
  import opened Insurance
  import opened PrimaryCare
  import opened EncounterParser
  import opened Diagnoses
  import FhirParser

  /** The nine keys of the oneview `parsed_patient`. */
  datatype OneviewSummary = OneviewSummary(
    patientId: Option<string>,
    fullName: Option<string>,
    dob: Option<string>,
    gender: Option<string>,
    insurance: Option<string>,
    pcpName: Option<string>,
    contactPhone: Option<string>,
    recentEncounters: seq<EncounterSummary>,
    diagnoses: seq<DiagnosisSummary>)

  /** What the oneview parse_fhir_bundle returns or raises. */
  function SummariseBundle(b: Bundle): (r: Outcome<Option<OneviewSummary>>)
    ensures r == Ok(None) <==> forall i :: 0 <= i < |b.entry| ==> !HasType(b.entry[i], "Patient")
    ensures r.Ok? && r.value.Some? ==>
              Patients(b) != [] && r.value.value.patientId == Patients(b)[0].id
              && r.value.value.dob == Patients(b)[0].birthDate && r.value.value.gender == Patients(b)[0].gender
  {
    ResourceEntriesHead(b.entry, "Patient");
    var patients := Patients(b);
    if patients == [] then Ok(None)
    else
      var p := patients[0];
      var insurance :- InsuranceInfo(Coverages(b));
      var encounters :- RecentEncounters(Encounters(b));
      Ok(Some(OneviewSummary(
        p.id, FullName(p), p.birthDate, p.gender, insurance, PcpName(p, Encounters(b)),
        ContactPhone(p), encounters, ConditionSummaries(Conditions(b)))))
  }

  /** The nine shared keys of a longview record. */
  function Project(s: FhirParser.PatientSummary): (o: OneviewSummary)
    ensures o.patientId == s.patientId && o.fullName == s.fullName && o.dob == s.dob && o.gender == s.gender
    ensures o.insurance == s.insurance && o.pcpName == s.pcpName && o.contactPhone == s.contactPhone
    ensures o.recentEncounters == s.recentEncounters && o.diagnoses == s.diagnoses
  {
    OneviewSummary(s.patientId, s.fullName, s.dob, s.gender, s.insurance, s.pcpName,
                   s.contactPhone, s.recentEncounters, s.diagnoses)
  }

  /** Where the longview parser returns a record, the oneview parser returns
      its nine-key projection; where it finds no patient, so does this one. */
  lemma OneviewIsProjectionOfLongview(b: Bundle)
    requires FhirParser.SummariseBundle(b).Ok?
    ensures SummariseBundle(b).Ok?
    ensures FhirParser.SummariseBundle(b).value.None? ==> SummariseBundle(b).value.None?
    ensures FhirParser.SummariseBundle(b).value.Some?
            ==> SummariseBundle(b).value == Some(Project(FhirParser.SummariseBundle(b).value.value))
  {
    if Patients(b) != [] {
      var insurance := InsuranceInfo(Coverages(b));
      var encounters := RecentEncounters(Encounters(b));
      assert insurance.Ok? && encounters.Ok?;
      var p := Patients(b)[0];
      assert SummariseBundle(b) == Ok(Some(OneviewSummary(
        p.id, FullName(p), p.birthDate, p.gender, insurance.value, PcpName(p, Encounters(b)),
        ContactPhone(p), encounters.value, ConditionSummaries(Conditions(b)))));
    }
  }

  /** parse_fhir_bundle (oneview): pick the first Patient, call the nine
      field parsers. */
  method ParseFhirBundle(b: Bundle) returns (r: Outcome<Option<OneviewSummary>>)
    ensures r == SummariseBundle(b)
  {
    var patients := Patients(b);
    if patients == [] {
      return Ok(None);
    }
    var p := patients[0];
    var coverages := Coverages(b);
    var encounters := Encounters(b);
    var conditions := Conditions(b);
    var insurance := ParseInsuranceInfo(coverages);
    if insurance.Raised? {
      return Raised(insurance.error);
    }
    var pcp := ParsePcpName(p, encounters);
    var phone := ParseContactInfo(p);
    var recent := ParseRecentEncounters(encounters);
    if recent.Raised? {
      return Raised(recent.error);
    }
    var diagnoses := ParseDiagnoses(conditions);
    return Ok(Some(OneviewSummary(
      p.id, FullName(p), p.birthDate, p.gender, insurance.value, pcp, phone, recent.value, diagnoses)));
  }

  /** An empty bundle, and one whose only resource is not a Patient, give
      no record. */
  lemma NoPatientNoRecord(id: Option<string>, e: Encounter)
    ensures SummariseBundle(Bundle(id, [])) == Ok(None)
    ensures SummariseBundle(Bundle(id, [Entry(None, Some(EncounterResource(e)))])) == Ok(None)
  {
  }
}
