/** `parse_insurance_info` (longview_app/fhir_parser.py:44-63, shared with
    oneview_app/fhir_parser.py): the payor name of the first health-plan
    coverage that names one, else of the first coverage. */
module Insurance {
  import opened Base
  import opened Fhir

  /** `coverage.get("payor", [{}])[0]`: an absent list reads as one empty
      payor, a present but empty list raises IndexError. */
  function FirstPayor(c: Coverage): (r: Outcome<Reference>)
    ensures r.Raised? <==> c.payor == Some([])
    ensures r.Raised? ==> r.error == IndexError
    ensures c.payor.None? ==> r == Ok(EmptyReference)
    ensures c.payor.Some? && r.Ok? ==> r.value == c.payor.value[0]
  {
    if c.payor.None? then Ok(EmptyReference)
    else if c.payor.value == [] then Raised(IndexError)
    else Ok(c.payor.value[0])
  }

  /** A payor's name: its truthy display, else its truthy identifier value. */
  function PayorName(p: Reference): (r: Option<string>)
    ensures r.Some? ==> r.value != ""
    ensures Truthy(p.display) ==> r == p.display
    ensures !Truthy(p.display) ==> r == (if Truthy(p.IdentifierValue()) then p.IdentifierValue() else None)
  {
    if Truthy(p.display) then p.display
    else if Truthy(p.IdentifierValue()) then p.IdentifierValue()
    else None
  }

  /** The coverage classes taken to be health insurance. */
  predicate IsHealthPlanCode(code: Option<string>) {
    code == Some("health") || code == Some("PPO") || code == Some("HMO")
  }

  /** One turn of the scan over coverages: raise, go on (`Ok(None)`), or
      return a name (`Ok(Some(name))`). */
  function CoverageStep(c: Coverage): (r: Outcome<Option<string>>)
    ensures r.Raised? ==> r.error == IndexError
    ensures FirstCodeOrDefault(c.coverageType).Raised? ==> r.Raised?
    ensures FirstCodeOrDefault(c.coverageType).Ok? && !IsHealthPlanCode(FirstCodeOrDefault(c.coverageType).value)
            ==> r == Ok(None)
    ensures FirstCodeOrDefault(c.coverageType).Ok? && IsHealthPlanCode(FirstCodeOrDefault(c.coverageType).value)
            ==> (r.Raised? <==> c.payor == Some([]))
    ensures r.Ok? && r.value.Some? ==> r.value.value != ""
  {
    var code :- FirstCodeOrDefault(c.coverageType);
    if !IsHealthPlanCode(code) then Ok(None)
    else
      var payor :- FirstPayor(c);
      Ok(PayorName(payor))
  }

  /** The scan stops at a coverage that raises or that is a health plan
      naming its payor; a health plan whose payor has no name does not stop
      it. */
  predicate StopsScan(c: Coverage) {
    CoverageStep(c) != Ok(None)
  }

  /** The `for coverage in coverage_resources` loop: the outcome of the first
      coverage at which it stops, or `Ok(None)` when it runs to the end. */
  function HealthCoverageScan(covs: seq<Coverage>): (r: Outcome<Option<string>>)
    ensures FirstIndex(covs, StopsScan).None? ==> r == Ok(None)
    ensures FirstIndex(covs, StopsScan).Some? ==> r == CoverageStep(covs[FirstIndex(covs, StopsScan).value])
  {
    if covs == [] then Ok(None)
    else
      var step :- CoverageStep(covs[0]);
      if step.Some? then Ok(step) else HealthCoverageScan(covs[1..])
  }

  /** What parse_insurance_info returns or raises. */
  function InsuranceInfo(covs: seq<Coverage>): (r: Outcome<Option<string>>)
    ensures covs == [] ==> r == Ok(None)
    ensures r.Ok? && r.value.Some? ==> r.value.value != ""
  {
    if covs == [] then Ok(None)
    else
      var found :- HealthCoverageScan(covs);
      if found.Some? then Ok(found)
      else
        var payor :- FirstPayor(covs[0]);
        Ok(PayorName(payor))
  }

  /** parse_insurance_info: the scan with early return, then the fallback. */
  method ParseInsuranceInfo(covs: seq<Coverage>) returns (r: Outcome<Option<string>>)
    ensures r == InsuranceInfo(covs)
  {
    if covs == [] {
      return Ok(None);
    }
    var i := 0;
    while i < |covs|
      invariant 0 <= i <= |covs|
      invariant HealthCoverageScan(covs) == HealthCoverageScan(covs[i..])
    {
      assert covs[i..][1..] == covs[i + 1..];
      var code := FirstCodeOrDefault(covs[i].coverageType);
      if code.Raised? {
        return Raised(code.error);
      }
      if IsHealthPlanCode(code.value) {
        var payor := FirstPayor(covs[i]);
        if payor.Raised? {
          return Raised(payor.error);
        }
        var p := payor.value;
        if Truthy(p.display) {
          return Ok(p.display);
        }
        if Truthy(p.IdentifierValue()) {
          return Ok(p.IdentifierValue());
        }
      }
      i := i + 1;
    }
    var payor := FirstPayor(covs[0]);
    if payor.Raised? {
      return Raised(payor.error);
    }
    return Ok(PayorName(payor.value));
  }

  /** A health-plan coverage that names its payor wins over every other
      coverage, the first one included, once the coverages before it did not
      stop the scan. */
  lemma InsurancePrefersHealthPlan(covs: seq<Coverage>, j: nat, name: string)
    requires j < |covs|
    requires forall k :: 0 <= k < j ==> !StopsScan(covs[k])
    requires FirstCodeOrDefault(covs[j].coverageType).Ok?
    requires IsHealthPlanCode(FirstCodeOrDefault(covs[j].coverageType).value)
    requires FirstPayor(covs[j]).Ok? && PayorName(FirstPayor(covs[j]).value) == Some(name)
    ensures InsuranceInfo(covs) == Ok(Some(name))
  {
    assert StopsScan(covs[j]);
  }

  /** When no coverage stops the scan (none is a health plan naming its
      payor, none is malformed) the answer is the name of the first
      coverage's first payor, or the IndexError reading it raises. */
  lemma InsuranceFallsBackToFirstCoverage(covs: seq<Coverage>)
    requires covs != []
    requires forall k :: 0 <= k < |covs| ==> !StopsScan(covs[k])
    ensures InsuranceInfo(covs) == (match FirstPayor(covs[0])
                                    case Ok(p) => Ok(PayorName(p))
                                    case Raised(e) => Raised(e))
  {
  }

  /** A health-plan coverage whose payor list is present but empty raises,
      when the scan reaches it. */
  lemma InsuranceRaisesOnEmptyPayorList(covs: seq<Coverage>, j: nat)
    requires j < |covs|
    requires forall k :: 0 <= k < j ==> !StopsScan(covs[k])
    requires FirstCodeOrDefault(covs[j].coverageType).Ok?
    requires IsHealthPlanCode(FirstCodeOrDefault(covs[j].coverageType).value)
    requires covs[j].payor == Some([])
    ensures InsuranceInfo(covs) == Raised(IndexError)
  {
    assert StopsScan(covs[j]);
  }

  /** The parser's two insurance fixtures: a "health" coverage with a payor
      display, and an untyped coverage whose payor has only an identifier. */
  lemma TestInsurance()
    ensures InsuranceInfo([Coverage(Some(CodeableConcept(None, Some([Coding(Some("http://hl7.org/fhir/coverage-class"), Some("health"), None)]))),
                                    Some([Reference(None, Some("Awesome Health Inc."), None)]))])
            == Ok(Some("Awesome Health Inc."))
    ensures InsuranceInfo([Coverage(None, Some([Reference(None, None, Some(Identifier(Some("MINIMAL_INSURANCE_ID"))))]))])
            == Ok(Some("MINIMAL_INSURANCE_ID"))
  {
  }

  /** Coverage classes ["other", "health"]: the second coverage's payor is
      named, not the first's. */
  lemma TestHealthPlanOutranksPosition()
    ensures InsuranceInfo([Coverage(Some(CodeableConcept(None, Some([Coding(None, Some("other"), None)]))),
                                    Some([Reference(None, Some("Other Payor"), None)])),
                           Coverage(Some(CodeableConcept(None, Some([Coding(None, Some("health"), None)]))),
                                    Some([Reference(None, Some("Health Payor"), None)]))])
            == Ok(Some("Health Payor"))
  {
    var covs := [Coverage(Some(CodeableConcept(None, Some([Coding(None, Some("other"), None)]))),
                          Some([Reference(None, Some("Other Payor"), None)])),
                 Coverage(Some(CodeableConcept(None, Some([Coding(None, Some("health"), None)]))),
                          Some([Reference(None, Some("Health Payor"), None)]))];
    assert !StopsScan(covs[0]);
    InsurancePrefersHealthPlan(covs, 1, "Health Payor");
  }
}
