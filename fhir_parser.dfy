/** `parse_fhir_bundle` of longview_app/fhir_parser.py:298-326: the first
    Patient of the bundle and the thirteen-key summary built from it and
    from the bundle's Coverage, Encounter, Condition and Medication
    resources. */
module FhirParser {
  import opened Base
  import opened Fhir
  import opened Bundles
  import opened Demographics
  import opened Insurance
  import opened PrimaryCare
  import opened EncounterParser
  import opened Diagnoses
  import opened Medications

  /** The thirteen keys of `parsed_patient`. */
  datatype PatientSummary = PatientSummary(
    patientId: Option<string>,
    fullName: Option<string>,
    dob: Option<string>,
    gender: Option<string>,
    insurance: Option<string>,
    pcpName: Option<string>,
    contactPhone: Option<string>,
    addressFull: Option<string>,
    maritalStatus: Option<string>,
    preferredLanguage: Option<string>,
    recentEncounters: seq<EncounterSummary>,
    diagnoses: seq<DiagnosisSummary>,
    medications: seq<MedicationSummary>)

  /** What parse_fhir_bundle returns (`Ok(None)` for a bundle without a
      Patient) or raises. The parsers that can raise are evaluated in the
      order of the dictionary's keys: insurance, encounters, medications. */
  function SummariseBundle(b: Bundle): (r: Outcome<Option<PatientSummary>>)
    ensures r == Ok(None) <==> forall i :: 0 <= i < |b.entry| ==> !HasType(b.entry[i], "Patient")
    ensures r.Ok? && r.value.Some? ==>
              Patients(b) != [] && r.value.value.patientId == Patients(b)[0].id
              && r.value.value.fullName == FullName(Patients(b)[0])
              && r.value.value.dob == Patients(b)[0].birthDate && r.value.value.gender == Patients(b)[0].gender
    ensures (Patients(b) != [] && InsuranceInfo(Coverages(b)).Ok? && RecentEncounters(Encounters(b)).Ok?
             && BundleMedications(b).Ok?) ==> r.Ok? && r.value.Some?
  {
    ResourceEntriesHead(b.entry, "Patient");
    var patients := Patients(b);
    if patients == [] then Ok(None)
    else
      var p := patients[0];
      var insurance :- InsuranceInfo(Coverages(b));
      var encounters :- RecentEncounters(Encounters(b));
      var medications :- BundleMedications(b);
      Ok(Some(PatientSummary(
        p.id, FullName(p), p.birthDate, p.gender, insurance, PcpName(p, Encounters(b)),
        ContactPhone(p), AddressFull(p), MaritalStatus(p), PreferredLanguage(p),
        encounters, ConditionSummaries(Conditions(b)), medications)))
  }

  /** parse_fhir_bundle: pick the first Patient, then call every field parser. */
  method ParseFhirBundle(b: Bundle) returns (r: Outcome<Option<PatientSummary>>)
    ensures r == SummariseBundle(b)
  {
    var patients := Patients(b);
    if patients == [] {
      return Ok(None);
    }
    var p := patients[0];
    var coverages := Coverages(b);
    var encounters := Encounters(b);
    var conditions := Conditions(b);
    var insurance := ParseInsuranceInfo(coverages);
    if insurance.Raised? {
      return Raised(insurance.error);
    }
    var pcp := ParsePcpName(p, encounters);
    var phone := ParseContactInfo(p);
    var address := ParseAddress(p);
    var language := ParsePreferredLanguage(p);
    var recent := ParseRecentEncounters(encounters);
    if recent.Raised? {
      return Raised(recent.error);
    }
    var diagnoses := ParseDiagnoses(conditions);
    var medications := ParseMedications(b);
    if medications.Raised? {
      return Raised(medications.error);
    }
    return Ok(Some(PatientSummary(
      p.id, FullName(p), p.birthDate, p.gender, insurance.value, pcp, phone, address,
      MaritalStatus(p), language, recent.value, diagnoses, medications.value)));
  }

  /** A bundle without entries has no summary. */
  lemma EmptyBundleHasNoSummary(id: Option<string>)
    ensures SummariseBundle(Bundle(id, [])) == Ok(None)
  {
  }
}
