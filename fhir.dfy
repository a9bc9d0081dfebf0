/** The part of an HL7 FHIR R4 Bundle that the parsers read, typed narrowly.
    Every JSON key the parsers look up is a field; an absent key is `None`,
    or `[]` for a list whose absence and emptiness the code treats alike.
    A list the code reads as `x.get(key, [{}])[0]` keeps the difference
    (`Option<seq<..>>`): absent gives an empty object, present-but-empty
    raises IndexError. */
module Fhir {
  import opened Base

  datatype Coding = Coding(system: Option<string>, code: Option<string>, display: Option<string>)

  datatype CodeableConcept = CodeableConcept(text: Option<string>, coding: Option<seq<Coding>>) {
    /** `cc.get("coding", [])` */
    function Codings(): seq<Coding> {
      if coding.Some? then coding.value else []
    }

    /** The JSON object is `{}` (falsy) as far as the modelled keys go. */
    predicate IsEmptyObject() {
      text.None? && coding.None?
    }
  }

  /** `obj.get(key, {}).get("coding", [{}])[0].get("code")` for an optional concept. */
  function FirstCodeOrDefault(cc: Option<CodeableConcept>): (r: Outcome<Option<string>>)
    ensures r.Raised? <==> cc.Some? && cc.value.coding == Some([])
    ensures r.Raised? ==> r.error == IndexError
    ensures r.Ok? && r.value.Some? ==> cc.Some? && cc.value.coding.Some? && r.value == cc.value.coding.value[0].code
    ensures cc.None? || cc.value.coding.None? ==> r == Ok(None)
  {
    if cc.None? || cc.value.coding.None? then Ok(None)
    else if cc.value.coding.value == [] then Raised(IndexError)
    else Ok(cc.value.coding.value[0].code)
  }

  /** `obj.get(key, {}).get("coding")` as a list: absent concept or coding gives []. */
  function CodingsOf(cc: Option<CodeableConcept>): seq<Coding> {
    if cc.Some? then cc.value.Codings() else []
  }

  datatype Identifier = Identifier(value: Option<string>)

  /** A FHIR Reference: `reference`, `display` and `identifier`. */
  datatype Reference = Reference(reference: Option<string>, display: Option<string>, identifier: Option<Identifier>) {
    predicate IsEmptyObject() {
      reference.None? && display.None? && identifier.None?
    }

    /** `ref.get("identifier", {}).get("value")` */
    function IdentifierValue(): Option<string> {
      if identifier.Some? then identifier.value.value else None
    }
  }

  /** The empty JSON object `{}` read as a Reference. */
  const EmptyReference := Reference(None, None, None)

  /** `obj.get(key, {}).get("display")` for an optional reference. */
  function DisplayOf(r: Option<Reference>): Option<string> {
    if r.Some? then r.value.display else None
  }

  datatype HumanName = HumanName(given: seq<string>, family: Option<string>)

  datatype ContactPoint = ContactPoint(system: Option<string>, use: Option<string>, value: Option<string>)

  datatype Address = Address(
    use: Option<string>,
    line: Option<seq<string>>,
    city: Option<string>,
    state: Option<string>,
    postalCode: Option<string>,
    country: Option<string>)
  {
    predicate IsEmptyObject() {
      use.None? && line.None? && city.None? && state.None? && postalCode.None? && country.None?
    }

    /** `addr.get("line", [])` */
    function Lines(): seq<string> {
      if line.Some? then line.value else []
    }
  }

  datatype Communication = Communication(language: Option<CodeableConcept>, preferred: Option<bool>)

  datatype Patient = Patient(
    id: Option<string>,
    name: seq<HumanName>,
    birthDate: Option<string>,
    gender: Option<string>,
    telecom: seq<ContactPoint>,
    generalPractitioner: seq<Reference>,
    address: seq<Address>,
    maritalStatus: Option<CodeableConcept>,
    communication: seq<Communication>)

  /** `type` is the coverage class; `payor` defaults to `[{}]` in the code. */
  datatype Coverage = Coverage(coverageType: Option<CodeableConcept>, payor: Option<seq<Reference>>)

  datatype Period = Period(start: Option<string>, end: Option<string>)

  /** An Encounter.participant: its role codings (`type`) and `individual`. */
  datatype Participant = Participant(types: seq<CodeableConcept>, individual: Option<Reference>)

  /** An Encounter.diagnosis entry: `condition` and `use`. */
  datatype EncounterDiagnosis = EncounterDiagnosis(condition: Option<Reference>, use: Option<CodeableConcept>)

  datatype Encounter = Encounter(
    period: Option<Period>,
    types: seq<CodeableConcept>,
    serviceProvider: Option<Reference>,
    participant: seq<Participant>,
    diagnosis: seq<EncounterDiagnosis>)

  datatype Condition = Condition(
    code: Option<CodeableConcept>,
    clinicalStatus: Option<CodeableConcept>,
    verificationStatus: Option<CodeableConcept>,
    category: seq<CodeableConcept>)

  datatype Dosage = Dosage(text: Option<string>)

  datatype MedicationRequest = MedicationRequest(
    id: Option<string>,
    authoredOn: Option<string>,
    status: Option<string>,
    requester: Option<Reference>,
    dosageInstruction: Option<seq<Dosage>>,
    medicationCodeableConcept: Option<CodeableConcept>,
    medicationReference: Option<Reference>)

  datatype Medication = Medication(id: Option<string>, code: Option<CodeableConcept>)

  /** A `resourceType` other than the six the parsers read (or none at all). */
  type OtherResourceType = t: Option<string>
    | t.None? || t.value !in {"Patient", "Coverage", "Encounter", "Condition", "MedicationRequest", "Medication"}
    witness None

  datatype Resource =
    | PatientResource(patient: Patient)
    | CoverageResource(coverage: Coverage)
    | EncounterResource(encounter: Encounter)
    | ConditionResource(condition: Condition)
    | MedicationRequestResource(request: MedicationRequest)
    | MedicationResource(medication: Medication)
    | OtherResource(resourceType: OtherResourceType)
  {
    /** `resource.get("resourceType")` */
    function ResourceType(): Option<string> {
      match this
      case PatientResource(_) => Some("Patient")
      case CoverageResource(_) => Some("Coverage")
      case EncounterResource(_) => Some("Encounter")
      case ConditionResource(_) => Some("Condition")
      case MedicationRequestResource(_) => Some("MedicationRequest")
      case MedicationResource(_) => Some("Medication")
      case OtherResource(t) => t
    }
  }

  datatype Entry = Entry(fullUrl: Option<string>, resource: Option<Resource>)

  datatype Bundle = Bundle(id: Option<string>, entry: seq<Entry>)
}
