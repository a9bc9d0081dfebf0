/** `parse_diagnoses` (longview_app/fhir_parser.py:136-177, shared with
    oneview_app/fhir_parser.py): one summary per Condition, in input order. */
module Diagnoses {
  import opened Base
  import opened Fhir

  /** The four keys of `condition_info`. */
  datatype DiagnosisSummary = DiagnosisSummary(
    code: Option<string>,
    description: Option<string>,
    status: Option<string>,
    category: Option<string>)

  const SnomedSystem := "http://snomed.info/sct"

  /** `c.get("system", "").startswith("http://snomed.info/sct")` */
  predicate IsSnomed(c: Coding) {
    c.system.Some? && SnomedSystem <= c.system.value
  }

  /** `condition["code"].get("text")` */
  function CodeText(c: Condition): Option<string> {
    if c.code.Some? then c.code.value.text else None
  }

  /** Code and description: the first SNOMED coding when its code is truthy,
      else the first coding; the description falls back to the code's text;
      with no codings only a truthy text is kept. */
  function CodeAndDescription(c: Condition): (r: (Option<string>, Option<string>))
    ensures r.0.Some? ==> CodingsOf(c.code) != []
    ensures CodingsOf(c.code) == [] ==> r == (None, if Truthy(CodeText(c)) then CodeText(c) else None)
  {
    var codings := CodingsOf(c.code);
    if codings != [] then
      match FirstIndex(codings, IsSnomed)
      case Some(k) =>
        if Truthy(codings[k].code) then (codings[k].code, Or(codings[k].display, CodeText(c)))
        else (codings[0].code, Or(codings[0].display, CodeText(c)))
      case None => (codings[0].code, Or(codings[0].display, CodeText(c)))
    else if Truthy(CodeText(c)) then (None, CodeText(c))
    else (None, None)
  }

  /** The first code of clinicalStatus, else of verificationStatus. */
  function Status(c: Condition): (r: Option<string>)
    ensures CodingsOf(c.clinicalStatus) != [] ==> r == CodingsOf(c.clinicalStatus)[0].code
    ensures CodingsOf(c.clinicalStatus) == [] && CodingsOf(c.verificationStatus) != []
            ==> r == CodingsOf(c.verificationStatus)[0].code
    ensures CodingsOf(c.clinicalStatus) == [] && CodingsOf(c.verificationStatus) == [] ==> r.None?
  {
    if CodingsOf(c.clinicalStatus) != [] then CodingsOf(c.clinicalStatus)[0].code
    else if CodingsOf(c.verificationStatus) != [] then CodingsOf(c.verificationStatus)[0].code
    else None
  }

  /** The first category's first code, else its truthy text. */
  function Category(c: Condition): (r: Option<string>)
    ensures c.category == [] ==> r.None?
    ensures c.category != [] && c.category[0].Codings() != [] ==> r == c.category[0].Codings()[0].code
    ensures c.category != [] && c.category[0].Codings() == []
            ==> r == (if Truthy(c.category[0].text) then c.category[0].text else None)
  {
    if c.category == [] then None
    else
      var cat := c.category[0];
      if cat.Codings() != [] then cat.Codings()[0].code
      else if Truthy(cat.text) then cat.text
      else None
  }

  /** The summary of one condition. */
  function ConditionInfo(c: Condition): (r: DiagnosisSummary)
    ensures r.code.Some? ==> exists k :: 0 <= k < |CodingsOf(c.code)| && r.code == CodingsOf(c.code)[k].code
    ensures CodingsOf(c.code) == [] ==> r.code.None?
    ensures r.status.Some? ==> CodingsOf(c.clinicalStatus) != [] || CodingsOf(c.verificationStatus) != []
    ensures r.category.Some? ==> c.category != []
  {
    var cd := CodeAndDescription(c);
    DiagnosisSummary(cd.0, cd.1, Status(c), Category(c))
  }

  /** What parse_diagnoses returns: one summary per condition, in order. */
  function ConditionSummaries(conds: seq<Condition>): (r: seq<DiagnosisSummary>)
    ensures |r| == |conds|
    ensures forall i :: 0 <= i < |conds| ==> r[i] == ConditionInfo(conds[i])
  {
    seq(|conds|, i requires 0 <= i < |conds| => ConditionInfo(conds[i]))
  }

  /** `next(c for c in coding if <SNOMED>)`, as a search loop. */
  method FindSnomed(codings: seq<Coding>) returns (k: Option<nat>)
    ensures k == FirstIndex(codings, IsSnomed)
  {
    for i := 0 to |codings|
      invariant forall m :: 0 <= m < i ==> !IsSnomed(codings[m])
    {
      if IsSnomed(codings[i]) {
        return Some(i);
      }
    }
    return None;
  }

  /** One turn of the loop: fill `condition_info` field by field. */
  method ParseCondition(c: Condition) returns (info: DiagnosisSummary)
    ensures info == ConditionInfo(c)
  {
    info := DiagnosisSummary(None, None, None, None);
    var codings := CodingsOf(c.code);
    if codings != [] {
      var k := FindSnomed(codings);
      var snomedCode := if k.Some? then codings[k.value].code else None;
      var snomedDisplay := if k.Some? then codings[k.value].display else None;
      if Truthy(snomedCode) {
        info := info.(code := snomedCode, description := Or(snomedDisplay, CodeText(c)));
      } else {
        info := info.(code := codings[0].code, description := Or(codings[0].display, CodeText(c)));
      }
    } else if Truthy(CodeText(c)) {
      info := info.(description := CodeText(c));
    }
    if CodingsOf(c.clinicalStatus) != [] {
      info := info.(status := CodingsOf(c.clinicalStatus)[0].code);
    } else if CodingsOf(c.verificationStatus) != [] {
      info := info.(status := CodingsOf(c.verificationStatus)[0].code);
    }
    if c.category != [] {
      var cat := c.category[0];
      if cat.Codings() != [] {
        info := info.(category := cat.Codings()[0].code);
      } else if Truthy(cat.text) {
        info := info.(category := cat.text);
      }
    }
  }

  /** parse_diagnoses: append one summary per condition. */
  method ParseDiagnoses(conds: seq<Condition>) returns (r: seq<DiagnosisSummary>)
    ensures r == ConditionSummaries(conds)
  {
    r := [];
    for i := 0 to |conds|
      invariant |r| == i
      invariant forall k :: 0 <= k < i ==> r[k] == ConditionInfo(conds[k])
    {
      var info := ParseCondition(conds[i]);
      r := r + [info];
    }
  }

  /** A SNOMED coding with a truthy code supplies code and description
      wherever it sits among the codings, ahead of the first coding. */
  lemma SnomedCodingPreferred(c: Condition, k: nat)
    requires k < |CodingsOf(c.code)|
    requires IsSnomed(CodingsOf(c.code)[k]) && Truthy(CodingsOf(c.code)[k].code)
    requires forall m :: 0 <= m < k ==> !IsSnomed(CodingsOf(c.code)[m])
    ensures ConditionInfo(c).code == CodingsOf(c.code)[k].code
    ensures ConditionInfo(c).description == Or(CodingsOf(c.code)[k].display, CodeText(c))
  {
    assert FirstIndex(CodingsOf(c.code), IsSnomed) == Some(k);
  }

  /** Without a SNOMED coding the first coding supplies code and description. */
  lemma FirstCodingWithoutSnomed(c: Condition)
    requires CodingsOf(c.code) != []
    requires forall m :: 0 <= m < |CodingsOf(c.code)| ==> !IsSnomed(CodingsOf(c.code)[m])
    ensures ConditionInfo(c).code == CodingsOf(c.code)[0].code
    ensures ConditionInfo(c).description == Or(CodingsOf(c.code)[0].display, CodeText(c))
  {
  }

  /** Only the first SNOMED coding is looked at: when its code is falsy the
      first coding is used, even if a later SNOMED coding has a code. */
  lemma OnlyFirstSnomedCodingCounts(c: Condition, k: nat)
    requires k < |CodingsOf(c.code)|
    requires IsSnomed(CodingsOf(c.code)[k]) && !Truthy(CodingsOf(c.code)[k].code)
    requires forall m :: 0 <= m < k ==> !IsSnomed(CodingsOf(c.code)[m])
    ensures ConditionInfo(c).code == CodingsOf(c.code)[0].code
    ensures ConditionInfo(c).description == Or(CodingsOf(c.code)[0].display, CodeText(c))
  {
    assert FirstIndex(CodingsOf(c.code), IsSnomed) == Some(k);
  }

  /** A text-only code gives no code and the text as description. */
  lemma TextOnlyCondition(c: Condition)
    requires c.code.Some? && c.code.value.coding.None? && Truthy(c.code.value.text)
    ensures ConditionInfo(c).code.None? && ConditionInfo(c).description == c.code.value.text
  {
  }

  /** The parser's two condition fixtures. */
  lemma TestDiagnoses()
    ensures ConditionInfo(Condition(
              Some(CodeableConcept(Some("Essential hypertension"),
                                   Some([Coding(Some("http://snomed.info/sct"), Some("59621000"), Some("Essential hypertension"))]))),
              Some(CodeableConcept(None, Some([Coding(None, Some("active"), None)]))),
              Some(CodeableConcept(None, Some([Coding(None, Some("confirmed"), None)]))),
              [CodeableConcept(None, Some([Coding(None, Some("encounter-diagnosis"), None)]))]))
         == DiagnosisSummary(Some("59621000"), Some("Essential hypertension"), Some("active"), Some("encounter-diagnosis"))
    ensures ConditionInfo(Condition(
              Some(CodeableConcept(Some("Sprained Ankle"), None)),
              Some(CodeableConcept(None, Some([Coding(None, Some("resolved"), None)]))),
              None,
              [CodeableConcept(Some("Problem List Item"), None)]))
         == DiagnosisSummary(None, Some("Sprained Ankle"), Some("resolved"), Some("Problem List Item"))
  {
    var snomed := Coding(Some("http://snomed.info/sct"), Some("59621000"), Some("Essential hypertension"));
    assert IsSnomed(snomed);
  }
}
