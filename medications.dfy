/** `parse_medications` (longview_app/fhir_parser.py:246-296): index the
    bundle's Medication resources, then summarise each MedicationRequest,
    naming its medicine through an embedded concept, a referenced
    Medication, the reference's display or a placeholder. */
module Medications {
  import opened Base
  import opened Fhir
  import opened Bundles

  /** The four keys of `med_info` besides the medicine's name, and the name,
      which is never None. */
  datatype MedicationSummary = MedicationSummary(
    name: string,
    authoredOn: Option<string>,
    prescriber: Option<string>,
    dosage: Option<string>,
    status: Option<string>)

  const NameNotFound := "Unknown (Name not found in referenced Medication)"
  const UnknownMedication := "Unknown Medication"

  /** `f"Unknown (Reference {ref_str} not found)"` */
  function ReferenceNotFound(ref: Option<string>): string {
    "Unknown (Reference " + Render(ref) + " not found)"
  }

  // ------------------------------------------------------------ the index

  /** An entry whose resource is a Medication. */
  predicate IsMedicationEntry(e: Entry) {
    e.resource.Some? && e.resource.value.MedicationResource?
  }

  /** `entry.get("fullUrl") or f"urn:uuid:{resource.get('id')}"` */
  function MedicationKey(e: Entry): (k: string)
    requires IsMedicationEntry(e)
    ensures k != ""
  {
    if Truthy(e.fullUrl) then e.fullUrl.value
    else "urn:uuid:" + Render(e.resource.value.medication.id)
  }

  /** `medication_resources` after the first loop: every Medication entry
      stored under its key, later entries overwriting earlier ones. */
  function MedicationIndex(es: seq<Entry>): (idx: map<string, Medication>)
    ensures forall k :: k in idx <==> exists i :: 0 <= i < |es| && IsMedicationEntry(es[i]) && MedicationKey(es[i]) == k
  {
    if es == [] then map[]
    else
      var idx := MedicationIndex(es[..|es| - 1]);
      var last := es[|es| - 1];
      assert forall i :: 0 <= i < |es| - 1 ==> es[..|es| - 1][i] == es[i];
      if IsMedicationEntry(last) then idx[MedicationKey(last) := last.resource.value.medication]
      else idx
  }

  /** The last Medication entry with a given key is the one indexed. */
  lemma {:induction false} MedicationIndexLastWins(es: seq<Entry>, i: nat)
    requires i < |es| && IsMedicationEntry(es[i])
    requires forall j :: i < j < |es| && IsMedicationEntry(es[j]) ==> MedicationKey(es[j]) != MedicationKey(es[i])
    ensures MedicationKey(es[i]) in MedicationIndex(es)
    ensures MedicationIndex(es)[MedicationKey(es[i])] == es[i].resource.value.medication
  {
    var front := es[..|es| - 1];
    if i < |es| - 1 {
      assert forall j :: 0 <= j < |front| ==> front[j] == es[j];
      MedicationIndexLastWins(front, i);
    }
  }

  /** The first loop of parse_medications: fill the dictionary in place. */
  method IndexMedications(es: seq<Entry>) returns (idx: map<string, Medication>)
    ensures idx == MedicationIndex(es)
  {
    idx := map[];
    for i := 0 to |es|
      invariant idx == MedicationIndex(es[..i])
    {
      assert es[..i + 1][..i] == es[..i];
      var e := es[i];
      if IsMedicationEntry(e) {
        var key := if Truthy(e.fullUrl) then e.fullUrl.value
                   else "urn:uuid:" + Render(e.resource.value.medication.id);
        if key != "" {
          idx := idx[key := e.resource.value.medication];
        }
      }
    }
    assert es[..|es|] == es;
  }

  // ------------------------------------------------------------- the name

  /** The medicine's name, or the placeholder the source substitutes. */
  function MedicationName(req: MedicationRequest, idx: map<string, Medication>): (name: string)
    ensures name != ""
  {
    var found: Option<string> :=
      if req.medicationCodeableConcept.Some? && !req.medicationCodeableConcept.value.IsEmptyObject() then
        var cc := req.medicationCodeableConcept.value;
        if !Truthy(cc.text) && cc.Codings() != [] then cc.Codings()[0].display else cc.text
      else if req.medicationReference.Some? && !req.medicationReference.value.IsEmptyObject() then
        var ref := req.medicationReference.value.reference;
        if ref.Some? && ref.value in idx then
          var med := idx[ref.value];
          if med.code.Some? && Truthy(med.code.value.text) then med.code.value.text
          else if CodingsOf(med.code) != [] then CodingsOf(med.code)[0].display
          else Some(NameNotFound)
        else Or(req.medicationReference.value.display, Some(ReferenceNotFound(ref)))
      else None;
    if Truthy(found) then found.value else UnknownMedication
  }

  /** `med_request.get("dosageInstruction", [{}])[0].get("text")` */
  function DosageText(req: MedicationRequest): (r: Outcome<Option<string>>)
    ensures r.Raised? <==> req.dosageInstruction == Some([])
    ensures r.Raised? ==> r.error == IndexError
    ensures req.dosageInstruction.None? ==> r == Ok(None)
    ensures req.dosageInstruction.Some? && r.Ok? ==> r.value == req.dosageInstruction.value[0].text
  {
    if req.dosageInstruction.None? then Ok(None)
    else if req.dosageInstruction.value == [] then Raised(IndexError)
    else Ok(req.dosageInstruction.value[0].text)
  }

  /** The summary of one request, or the IndexError its dosage lookup raises. */
  function MedicationInfo(req: MedicationRequest, idx: map<string, Medication>): (r: Outcome<MedicationSummary>)
    ensures r.Raised? <==> req.dosageInstruction == Some([])
    ensures r.Ok? ==> r.value.name == MedicationName(req, idx) && r.value.name != ""
  {
    var dosage :- DosageText(req);
    Ok(MedicationSummary(MedicationName(req, idx), req.authoredOn, DisplayOf(req.requester), dosage, req.status))
  }

  /** What parse_medications returns: one summary per MedicationRequest in
      bundle order, or the error of the first request that raises. */
  function BundleMedications(b: Bundle): (r: Outcome<seq<MedicationSummary>>)
    ensures r.Ok? <==> forall k :: 0 <= k < |MedicationRequests(b)| ==> MedicationRequests(b)[k].dosageInstruction != Some([])
    ensures r.Ok? ==> |r.value| == |MedicationRequests(b)|
    ensures r.Ok? ==> forall k :: 0 <= k < |r.value| ==>
                        Ok(r.value[k]) == MedicationInfo(MedicationRequests(b)[k], MedicationIndex(b.entry))
  {
    Traverse(MedicationRequests(b), InfoUnder(MedicationIndex(b.entry)))
  }

  /** MedicationInfo against a fixed index, as a function of the request. */
  function InfoUnder(idx: map<string, Medication>): MedicationRequest -> Outcome<MedicationSummary> {
    req => MedicationInfo(req, idx)
  }

  /** One turn of the second loop: fill `med_info`, then the name chain. */
  method ParseMedicationRequest(req: MedicationRequest, idx: map<string, Medication>)
    returns (r: Outcome<MedicationSummary>)
    ensures r == MedicationInfo(req, idx)
  {
    var dosage := DosageText(req);
    if dosage.Raised? {
      return Raised(dosage.error);
    }
    var name: Option<string> := None;
    var concept := req.medicationCodeableConcept;
    var reference := req.medicationReference;
    if concept.Some? && !concept.value.IsEmptyObject() {
      name := concept.value.text;
      if !Truthy(name) && concept.value.Codings() != [] {
        name := concept.value.Codings()[0].display;
      }
    } else if reference.Some? && !reference.value.IsEmptyObject() {
      var ref := reference.value.reference;
      if ref.Some? && ref.value in idx {
        var med := idx[ref.value];
        if med.code.Some? && Truthy(med.code.value.text) {
          name := med.code.value.text;
        } else if CodingsOf(med.code) != [] {
          name := CodingsOf(med.code)[0].display;
        } else {
          name := Some(NameNotFound);
        }
      } else {
        name := Or(reference.value.display, Some(ReferenceNotFound(ref)));
      }
    }
    var resolved := if Truthy(name) then name.value else UnknownMedication;
    return Ok(MedicationSummary(resolved, req.authoredOn, DisplayOf(req.requester), dosage.value, req.status));
  }

  /** parse_medications: build the index, then append one summary per request. */
  method ParseMedications(b: Bundle) returns (r: Outcome<seq<MedicationSummary>>)
    ensures r == BundleMedications(b)
  {
    var idx := IndexMedications(b.entry);
    var reqs := MedicationRequests(b);
    var out: seq<MedicationSummary> := [];
    for i := 0 to |reqs|
      invariant Traverse(reqs[..i], InfoUnder(idx)) == Ok(out)
    {
      var info := ParseMedicationRequest(reqs[i], idx);
      assert InfoUnder(idx)(reqs[i]) == info;
      if info.Raised? {
        TraverseExtendRaised(reqs, InfoUnder(idx), i);
        return Raised(info.error);
      }
      TraverseExtendOk(reqs, InfoUnder(idx), i, out);
      out := out + [info.value];
    }
    assert reqs[..|reqs|] == reqs;
    return Ok(out);
  }

  // --------------------------------------------------------------- lemmas

  /** An embedded concept with a text names the medicine, whatever the
      reference says. */
  lemma EmbeddedConceptFirst(req: MedicationRequest, idx: map<string, Medication>)
    requires req.medicationCodeableConcept.Some? && Truthy(req.medicationCodeableConcept.value.text)
    ensures MedicationName(req, idx) == req.medicationCodeableConcept.value.text.value
  {
  }

  /** An embedded concept without a text is named by its first coding's
      display. */
  lemma EmbeddedCodingDisplay(req: MedicationRequest, idx: map<string, Medication>)
    requires req.medicationCodeableConcept.Some? && !Truthy(req.medicationCodeableConcept.value.text)
    requires req.medicationCodeableConcept.value.Codings() != []
    requires Truthy(req.medicationCodeableConcept.value.Codings()[0].display)
    ensures MedicationName(req, idx) == req.medicationCodeableConcept.value.Codings()[0].display.value
  {
  }

  /** A resolved Medication whose code has no text is named by its first
      coding's display. */
  lemma ResolvedCodingDisplay(req: MedicationRequest, idx: map<string, Medication>)
    requires req.medicationCodeableConcept.None?
    requires req.medicationReference.Some?
    requires req.medicationReference.value.reference.Some? && req.medicationReference.value.reference.value in idx
    requires idx[req.medicationReference.value.reference.value].code.Some?
    requires !Truthy(idx[req.medicationReference.value.reference.value].code.value.text)
    requires CodingsOf(idx[req.medicationReference.value.reference.value].code) != []
    requires Truthy(CodingsOf(idx[req.medicationReference.value.reference.value].code)[0].display)
    ensures MedicationName(req, idx)
         == CodingsOf(idx[req.medicationReference.value.reference.value].code)[0].display.value
  {
  }

  /** A request that names its medicine only by reference to a Medication
      entry of the same bundle takes that Medication's code text, provided
      no later Medication entry reuses the key. */
  lemma ReferenceResolvesInBundle(b: Bundle, req: MedicationRequest, i: nat)
    requires req.medicationCodeableConcept.None?
    requires i < |b.entry| && IsMedicationEntry(b.entry[i])
    requires forall j :: i < j < |b.entry| && IsMedicationEntry(b.entry[j])
                         ==> MedicationKey(b.entry[j]) != MedicationKey(b.entry[i])
    requires req.medicationReference.Some? && req.medicationReference.value.reference == Some(MedicationKey(b.entry[i]))
    requires b.entry[i].resource.value.medication.code.Some?
    requires Truthy(b.entry[i].resource.value.medication.code.value.text)
    ensures MedicationName(req, MedicationIndex(b.entry)) == b.entry[i].resource.value.medication.code.value.text.value
  {
    MedicationIndexLastWins(b.entry, i);
  }

  /** A resolved Medication with neither code text nor codings yields the
      "Name not found" placeholder. */
  lemma ResolvedWithoutName(req: MedicationRequest, idx: map<string, Medication>)
    requires req.medicationCodeableConcept.None?
    requires req.medicationReference.Some?
    requires req.medicationReference.value.reference.Some? && req.medicationReference.value.reference.value in idx
    requires idx[req.medicationReference.value.reference.value].code.None?
    ensures MedicationName(req, idx) == NameNotFound
  {
  }

  /** A reference that does not resolve yields its display, else a
      placeholder quoting the reference. */
  lemma UnresolvedReference(req: MedicationRequest, idx: map<string, Medication>)
    requires req.medicationCodeableConcept.None?
    requires req.medicationReference.Some? && !req.medicationReference.value.IsEmptyObject()
    requires req.medicationReference.value.reference.None? || req.medicationReference.value.reference.value !in idx
    ensures MedicationName(req, idx)
         == (if Truthy(req.medicationReference.value.display) then req.medicationReference.value.display.value
             else ReferenceNotFound(req.medicationReference.value.reference))
  {
  }

  /** With neither an embedded concept nor a reference, the name is the
      final placeholder. */
  lemma NoMedicationGiven(req: MedicationRequest, idx: map<string, Medication>)
    requires req.medicationCodeableConcept.None? && req.medicationReference.None?
    ensures MedicationName(req, idx) == UnknownMedication
  {
  }

  /** A resolved Medication whose first coding has no display falls through
      to "Unknown Medication", not to the "Name not found" placeholder. */
  lemma ResolvedCodingWithoutDisplay(req: MedicationRequest, idx: map<string, Medication>)
    requires req.medicationCodeableConcept.None?
    requires req.medicationReference.Some?
    requires req.medicationReference.value.reference.Some? && req.medicationReference.value.reference.value in idx
    requires idx[req.medicationReference.value.reference.value].code.Some?
    requires !Truthy(idx[req.medicationReference.value.reference.value].code.value.text)
    requires idx[req.medicationReference.value.reference.value].code.value.Codings() != []
    requires idx[req.medicationReference.value.reference.value].code.value.Codings()[0].display.None?
    ensures MedicationName(req, idx) == UnknownMedication
  {
  }
}
