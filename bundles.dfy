/** `get_resource_entries` (longview_app/fhir_parser.py:19-25, identical in
    oneview_app/fhir_parser.py:16-22) and the typed views the bundle parser
    takes of its result. */
module Bundles {
  import opened Base
  import opened Fhir

  /** `entry.get("resource", {}).get("resourceType") == resourceType` */
  predicate HasType(e: Entry, resourceType: string) {
    e.resource.Some? && e.resource.value.ResourceType() == Some(resourceType)
  }

  /** The resources of the given type, in entry order. */
  function ResourceEntries(entries: seq<Entry>, resourceType: string): (r: seq<Resource>)
    ensures |r| <= |entries|
    ensures forall x :: x in r ==> x.ResourceType() == Some(resourceType)
  {
    if entries == [] then []
    else
      (if HasType(entries[0], resourceType) then [entries[0].resource.value] else [])
      + ResourceEntries(entries[1..], resourceType)
  }

  /** The filter distributes over concatenation of entry lists: matching
      resources keep their relative bundle order and nothing else is kept. */
  lemma {:induction false} ResourceEntriesAppend(a: seq<Entry>, b: seq<Entry>, resourceType: string)
    ensures ResourceEntries(a + b, resourceType)
         == ResourceEntries(a, resourceType) + ResourceEntries(b, resourceType)
  {
    if a != [] {
      var head := if HasType(a[0], resourceType) then [a[0].resource.value] else [];
      assert (a + b)[0] == a[0];
      assert (a + b)[1..] == a[1..] + b;
      ResourceEntriesAppend(a[1..], b, resourceType);
      calc {
        ResourceEntries(a + b, resourceType);
        head + ResourceEntries(a[1..] + b, resourceType);
        head + (ResourceEntries(a[1..], resourceType) + ResourceEntries(b, resourceType));
        (head + ResourceEntries(a[1..], resourceType)) + ResourceEntries(b, resourceType);
      }
    } else {
      assert a + b == b;
    }
  }

  /** A resource is kept exactly when some entry of the right type holds it. */
  lemma {:induction false} ResourceEntriesMembership(entries: seq<Entry>, resourceType: string, x: Resource)
    ensures x in ResourceEntries(entries, resourceType)
        <==> exists i :: 0 <= i < |entries| && HasType(entries[i], resourceType)
                         && entries[i].resource.value == x
  {
    if entries != [] {
      ResourceEntriesMembership(entries[1..], resourceType, x);
      if exists i :: 1 <= i < |entries| && HasType(entries[i], resourceType)
                     && entries[i].resource.value == x {
        var i :| 1 <= i < |entries| && HasType(entries[i], resourceType)
                 && entries[i].resource.value == x;
        assert entries[1..][i - 1] == entries[i];
      }
    }
  }

  /** The result is empty exactly when no entry has the type; otherwise its
      head is the resource of the first entry that has it. */
  lemma {:induction false} ResourceEntriesHead(entries: seq<Entry>, resourceType: string)
    ensures ResourceEntries(entries, resourceType) == []
        <==> forall i :: 0 <= i < |entries| ==> !HasType(entries[i], resourceType)
    ensures ResourceEntries(entries, resourceType) != [] ==>
      exists i :: 0 <= i < |entries| && HasType(entries[i], resourceType)
                  && ResourceEntries(entries, resourceType)[0] == entries[i].resource.value
                  && forall k :: 0 <= k < i ==> !HasType(entries[k], resourceType)
  {
    if entries != [] && !HasType(entries[0], resourceType) {
      ResourceEntriesHead(entries[1..], resourceType);
      if ResourceEntries(entries[1..], resourceType) != [] {
        var i :| 0 <= i < |entries| - 1 && HasType(entries[1..][i], resourceType)
                 && ResourceEntries(entries[1..], resourceType)[0] == entries[1..][i].resource.value
                 && forall k :: 0 <= k < i ==> !HasType(entries[1..][k], resourceType);
        assert forall k :: 1 <= k < i + 1 ==> entries[k] == entries[1..][k - 1];
      } else {
        assert forall i :: 1 <= i < |entries| ==> entries[i] == entries[1..][i - 1];
      }
    }
  }

  /** `get_resource_entries(bundle, "Patient")` as Patient records. */
  function Patients(b: Bundle): (ps: seq<Patient>)
    ensures |ps| == |ResourceEntries(b.entry, "Patient")|
    ensures forall i :: 0 <= i < |ps| ==> ResourceEntries(b.entry, "Patient")[i] == PatientResource(ps[i])
  {
    var rs := ResourceEntries(b.entry, "Patient");
    assert forall i :: 0 <= i < |rs| ==> rs[i] in rs && rs[i].PatientResource?;
    seq(|rs|, i requires 0 <= i < |rs| => rs[i].patient)
  }

  /** `get_resource_entries(bundle, "Coverage")` as Coverage records. */
  function Coverages(b: Bundle): (cs: seq<Coverage>)
    ensures |cs| == |ResourceEntries(b.entry, "Coverage")|
    ensures forall i :: 0 <= i < |cs| ==> ResourceEntries(b.entry, "Coverage")[i] == CoverageResource(cs[i])
  {
    var rs := ResourceEntries(b.entry, "Coverage");
    assert forall i :: 0 <= i < |rs| ==> rs[i] in rs && rs[i].CoverageResource?;
    seq(|rs|, i requires 0 <= i < |rs| => rs[i].coverage)
  }

  /** `get_resource_entries(bundle, "Encounter")` as Encounter records. */
  function Encounters(b: Bundle): (es: seq<Encounter>)
    ensures |es| == |ResourceEntries(b.entry, "Encounter")|
    ensures forall i :: 0 <= i < |es| ==> ResourceEntries(b.entry, "Encounter")[i] == EncounterResource(es[i])
  {
    var rs := ResourceEntries(b.entry, "Encounter");
    assert forall i :: 0 <= i < |rs| ==> rs[i] in rs && rs[i].EncounterResource?;
    seq(|rs|, i requires 0 <= i < |rs| => rs[i].encounter)
  }

  /** `get_resource_entries(bundle, "Condition")` as Condition records. */
  function Conditions(b: Bundle): (cs: seq<Condition>)
    ensures |cs| == |ResourceEntries(b.entry, "Condition")|
    ensures forall i :: 0 <= i < |cs| ==> ResourceEntries(b.entry, "Condition")[i] == ConditionResource(cs[i])
  {
    var rs := ResourceEntries(b.entry, "Condition");
    assert forall i :: 0 <= i < |rs| ==> rs[i] in rs && rs[i].ConditionResource?;
    seq(|rs|, i requires 0 <= i < |rs| => rs[i].condition)
  }

  /** `get_resource_entries(bundle, "MedicationRequest")` as request records. */
  function MedicationRequests(b: Bundle): (ms: seq<MedicationRequest>)
    ensures |ms| == |ResourceEntries(b.entry, "MedicationRequest")|
    ensures forall i :: 0 <= i < |ms| ==>
      ResourceEntries(b.entry, "MedicationRequest")[i] == MedicationRequestResource(ms[i])
  {
    var rs := ResourceEntries(b.entry, "MedicationRequest");
    assert forall i :: 0 <= i < |rs| ==> rs[i] in rs && rs[i].MedicationRequestResource?;
    seq(|rs|, i requires 0 <= i < |rs| => rs[i].request)
  }

  /** The first Patient view is the patient of the first Patient entry. */
  lemma FirstPatientOfBundle(b: Bundle, i: nat)
    requires i < |b.entry| && HasType(b.entry[i], "Patient")
    requires forall k :: 0 <= k < i ==> !HasType(b.entry[k], "Patient")
    ensures Patients(b) != [] && Patients(b)[0] == b.entry[i].resource.value.patient
  {
    ResourceEntriesHead(b.entry, "Patient");
    var j :| 0 <= j < |b.entry| && HasType(b.entry[j], "Patient")
             && ResourceEntries(b.entry, "Patient")[0] == b.entry[j].resource.value
             && forall k :: 0 <= k < j ==> !HasType(b.entry[k], "Patient");
    assert j == i;
  }
}
