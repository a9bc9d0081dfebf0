/** `parse_pcp_name` (longview_app/fhir_parser.py:65-83, shared with
    oneview_app/fhir_parser.py): the first encounter participant coded as a
    primary care provider that has a display name, else the patient's first
    general practitioner. */
module PrimaryCare {
  import opened Base
  import opened Fhir

  /** `coding.get("code") in [PCP_CODE, PRIMARY_CARE_PHYSICIAN_CODE]` */
  predicate IsPcpCoding(c: Coding) {
    c.code == Some("PCP") || c.code == Some("primaryCarePhysician")
  }

  /** Some coding of the role concept is a primary-care code. */
  predicate IsPcpType(t: CodeableConcept) {
    exists q :: 0 <= q < |t.Codings()| && IsPcpCoding(t.Codings()[q])
  }

  /** Some role of the participant is a primary-care role. */
  predicate HasPcpRole(p: Participant) {
    exists n :: 0 <= n < |p.types| && IsPcpType(p.types[n])
  }

  /** A participant that the loop returns: a primary-care role and a truthy
      `individual.display`. */
  predicate DesignatesPcp(p: Participant) {
    HasPcpRole(p) && Truthy(DisplayOf(p.individual))
  }

  /** An encounter at which the loop returns. */
  predicate NamesPcp(e: Encounter) {
    exists j :: 0 <= j < |e.participant| && DesignatesPcp(e.participant[j])
  }

  /** The display of the first designated participant of `ps`; None
      exactly when none is designated. */
  function FirstDesignee(ps: seq<Participant>): (r: Option<string>)
    ensures r.None? <==> forall j :: 0 <= j < |ps| ==> !DesignatesPcp(ps[j])
    ensures r.Some? ==> r.value != ""
  {
    if ps == [] then None
    else if DesignatesPcp(ps[0]) then DisplayOf(ps[0].individual)
    else FirstDesignee(ps[1..])
  }

  /** The designee of the first encounter that has one; None exactly when no
      encounter designates a provider. */
  function EncounterPcp(encs: seq<Encounter>): (r: Option<string>)
    ensures r.None? <==> forall k :: 0 <= k < |encs| ==> !NamesPcp(encs[k])
    ensures r.Some? ==> r.value != ""
  {
    if encs == [] then None
    else if FirstDesignee(encs[0].participant).Some? then FirstDesignee(encs[0].participant)
    else EncounterPcp(encs[1..])
  }

  /** What parse_pcp_name returns. */
  function PcpName(patient: Patient, encs: seq<Encounter>): (r: Option<string>)
    ensures r.Some? ==> r.value != ""
    ensures EncounterPcp(encs).Some? ==> r == EncounterPcp(encs)
  {
    if EncounterPcp(encs).Some? then EncounterPcp(encs)
    else if patient.generalPractitioner != [] && Truthy(patient.generalPractitioner[0].display)
    then patient.generalPractitioner[0].display
    else None
  }

  /** The two inner loops of parse_pcp_name: whether some coding of some
      role of the participant carries a primary-care code. */
  method ScanPcpRole(p: Participant) returns (found: bool)
    ensures found == HasPcpRole(p)
  {
    for n := 0 to |p.types|
      invariant forall m :: 0 <= m < n ==> !IsPcpType(p.types[m])
    {
      var codings := p.types[n].Codings();
      for q := 0 to |codings|
        invariant forall m :: 0 <= m < q ==> !IsPcpCoding(codings[m])
      {
        if IsPcpCoding(codings[q]) {
          assert IsPcpType(p.types[n]);
          return true;
        }
      }
    }
    return false;
  }

  /** The participant loop of parse_pcp_name for one encounter: the display
      of the first participant with a primary-care role and a display. */
  method ScanParticipants(e: Encounter) returns (r: Option<string>)
    ensures r == FirstDesignee(e.participant)
  {
    var ps := e.participant;
    for j := 0 to |ps|
      invariant FirstDesignee(ps[j..]) == FirstDesignee(ps)
    {
      var p := ps[j];
      var role := ScanPcpRole(p);
      if role && Truthy(DisplayOf(p.individual)) {
        return DisplayOf(p.individual);
      }
      assert ps[j..][1..] == ps[j + 1..];
    }
    return None;
  }

  /** parse_pcp_name: scan the encounters, returning at the first one with a
      designated participant; then fall back to the general practitioner. */
  method ParsePcpName(patient: Patient, encs: seq<Encounter>) returns (r: Option<string>)
    ensures r == PcpName(patient, encs)
  {
    for i := 0 to |encs|
      invariant EncounterPcp(encs[i..]) == EncounterPcp(encs)
    {
      var found := ScanParticipants(encs[i]);
      if found.Some? {
        return found;
      }
      assert encs[i..][1..] == encs[i + 1..];
    }
    var gps := patient.generalPractitioner;
    if gps != [] && Truthy(gps[0].display) {
      return gps[0].display;
    }
    return None;
  }

  /** The participant scan returns the first designated participant. */
  lemma {:induction false} FirstDesigneeAt(ps: seq<Participant>, j: nat)
    requires j < |ps| && DesignatesPcp(ps[j])
    requires forall m :: 0 <= m < j ==> !DesignatesPcp(ps[m])
    ensures FirstDesignee(ps) == DisplayOf(ps[j].individual)
  {
    if j > 0 {
      FirstDesigneeAt(ps[1..], j - 1);
    }
  }

  /** The encounter scan returns the designee of the first encounter that
      has one. */
  lemma {:induction false} EncounterPcpAt(encs: seq<Encounter>, i: nat)
    requires i < |encs| && NamesPcp(encs[i])
    requires forall k :: 0 <= k < i ==> !NamesPcp(encs[k])
    ensures EncounterPcp(encs) == FirstDesignee(encs[i].participant)
  {
    if i > 0 {
      EncounterPcpAt(encs[1..], i - 1);
    }
  }

  /** The declarative reading of the encounter scan: participant j of
      encounter i is returned when it designates a provider and nothing
      before it does. */
  lemma PcpFirstDesignation(patient: Patient, encs: seq<Encounter>, i: nat, j: nat)
    requires i < |encs| && j < |encs[i].participant|
    requires DesignatesPcp(encs[i].participant[j])
    requires forall k :: 0 <= k < i ==> !NamesPcp(encs[k])
    requires forall m :: 0 <= m < j ==> !DesignatesPcp(encs[i].participant[m])
    ensures PcpName(patient, encs) == DisplayOf(encs[i].participant[j].individual)
  {
    FirstDesigneeAt(encs[i].participant, j);
    EncounterPcpAt(encs, i);
  }

  /** When no encounter designates a provider, the patient's first general
      practitioner is named, if it has a display. */
  lemma PcpFallsBackToGeneralPractitioner(patient: Patient, encs: seq<Encounter>)
    requires forall k :: 0 <= k < |encs| ==> !NamesPcp(encs[k])
    ensures PcpName(patient, encs)
         == (if patient.generalPractitioner != [] && Truthy(patient.generalPractitioner[0].display)
             then patient.generalPractitioner[0].display else None)
  {
  }

  /** The parser's fixtures: a "PCP" participant beats the general
      practitioner; a participant with no role does not count. */
  lemma TestPcp()
    ensures PcpName(Patient(None, [], None, None, [], [Reference(Some("Practitioner/gp-1"), Some("Dr. General Pract"), None)], [], None, []),
                    [Encounter(None, [], None,
                               [Participant([CodeableConcept(None, Some([Coding(None, Some("PCP"), None)]))],
                                            Some(Reference(Some("Practitioner/pcp-1"), Some("Dr. Primary Care"), None)))],
                               [])])
            == Some("Dr. Primary Care")
    ensures PcpName(Patient(None, [], None, None, [], [Reference(None, Some("Dr. Cheshire Cat (GP)"), None)], [], None, []),
                    [Encounter(None, [], None, [Participant([], Some(Reference(None, Some("Nurse Hatter"), None)))], [])])
            == Some("Dr. Cheshire Cat (GP)")
  {
    var pcp := Participant([CodeableConcept(None, Some([Coding(None, Some("PCP"), None)]))],
                           Some(Reference(Some("Practitioner/pcp-1"), Some("Dr. Primary Care"), None)));
    assert IsPcpCoding(pcp.types[0].Codings()[0]);
    assert DesignatesPcp(pcp);
    var e := Encounter(None, [], None, [pcp], []);
    PcpFirstDesignation(Patient(None, [], None, None, [], [Reference(Some("Practitioner/gp-1"), Some("Dr. General Pract"), None)], [], None, []),
                        [e], 0, 0);
    var nurse := Participant([], Some(Reference(None, Some("Nurse Hatter"), None)));
    assert !HasPcpRole(nurse);
  }
}
