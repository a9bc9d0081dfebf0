/** The Patient-level field parsers of longview_app/fhir_parser.py: name,
    date of birth and gender (passed through by the bundle parser), phone,
    address, marital status and preferred language. The first four are
    shared verbatim with oneview_app/fhir_parser.py. */
module Demographics {
  import opened Base
  import opened PyStrings
  import opened Fhir

  // ---------------------------------------------------------------- name

  /** `name_data.get("family", "")` */
  function Family(n: HumanName): string {
    if n.family.Some? then n.family.value else ""
  }

  /** `f"{' '.join(given)} {family}".strip()` for one HumanName. */
  function FormatName(n: HumanName): (r: string)
    ensures Unpadded(r)
  {
    Strip(Join(" ", n.given) + " " + Family(n))
  }

  /** parse_patient_name: the first name entry, formatted; None only when the
      patient has no name entries. */
  function FullName(p: Patient): (r: Option<string>)
    ensures r.None? <==> p.name == []
    ensures r.Some? ==> Unpadded(r.value)
  {
    if p.name == [] then None else Some(FormatName(p.name[0]))
  }

  /** With unpadded given and family names, the full name is the given names
      joined by single spaces, a space, and the family name. */
  lemma NameJoinsGivenThenFamily(n: HumanName)
    requires n.given != [] && n.given[0] != "" && !IsSpace(n.given[0][0])
    requires n.family.Some? && n.family.value != ""
    requires !IsSpace(n.family.value[|n.family.value| - 1])
    ensures FormatName(n) == Join(" ", n.given) + " " + n.family.value
  {
    var g := Join(" ", n.given);
    var t := g + " " + n.family.value;
    assert t[0] == g[0] == n.given[0][0];
    assert t[|t| - 1] == n.family.value[|n.family.value| - 1];
    StripUnpadded(t);
  }

  /** With no given names the full name is the family name alone. */
  lemma FamilyOnlyName(n: HumanName)
    requires n.given == [] && n.family.Some? && Unpadded(n.family.value)
    ensures FormatName(n) == n.family.value
  {
    var f := n.family.value;
    var t := Join(" ", n.given) + " " + f;
    assert t == " " + f;
    if f == "" {
      StripBlank(t);
    } else {
      assert LeadingSpaces(t) == 1 by {
        assert t[1..] == f;
        assert LeadingSpaces(t) == 1 + LeadingSpaces(f);
      }
      assert TrailingSpaces(t[1..]) == 0;
      assert t[1..] == f;
    }
  }

  /** The parser's full-name fixture: "John Middle Doe". */
  lemma TestFullName()
    ensures FormatName(HumanName(["John", "Middle"], Some("Doe"))) == "John Middle Doe"
  {
    NameJoinsGivenThenFamily(HumanName(["John", "Middle"], Some("Doe")));
    assert Join(" ", ["John", "Middle"]) == "John Middle" by {
      assert ["John", "Middle"][1..] == ["Middle"];
    }
  }

  /** The parser's family-only fixture: "Smith". */
  lemma TestFamilyOnlyName()
    ensures FormatName(HumanName([], Some("Smith"))) == "Smith"
  {
    FamilyOnlyName(HumanName([], Some("Smith")));
  }

  // --------------------------------------------------------------- phone

  /** `telecom.get("system") == "phone" and telecom.get("use") in ["home", "mobile"]` */
  predicate IsHomeOrMobilePhone(t: ContactPoint) {
    t.system == Some("phone") && (t.use == Some("home") || t.use == Some("mobile"))
  }

  /** The value of the first home or mobile phone; that telecom's value is
      returned even when it has none, and later entries are not looked at. */
  function ContactPhone(p: Patient): (r: Option<string>)
    ensures forall i :: 0 <= i < |p.telecom| && IsHomeOrMobilePhone(p.telecom[i])
                        && (forall k :: 0 <= k < i ==> !IsHomeOrMobilePhone(p.telecom[k]))
                        ==> r == p.telecom[i].value
    ensures (forall k :: 0 <= k < |p.telecom| ==> !IsHomeOrMobilePhone(p.telecom[k])) ==> r.None?
  {
    match FirstIndex(p.telecom, IsHomeOrMobilePhone)
    case Some(i) => p.telecom[i].value
    case None => None
  }

  /** parse_contact_info: an early-return scan of the telecom list. */
  method ParseContactInfo(p: Patient) returns (phone: Option<string>)
    ensures phone == ContactPhone(p)
  {
    for i := 0 to |p.telecom|
      invariant forall k :: 0 <= k < i ==> !IsHomeOrMobilePhone(p.telecom[k])
    {
      if IsHomeOrMobilePhone(p.telecom[i]) {
        return p.telecom[i].value;
      }
    }
    return None;
  }

  // ------------------------------------------------------------- address

  predicate IsHomeAddress(a: Address) {
    a.use == Some("home")
  }

  /** The five display parts: the lines joined by ", ", city, state,
      postal code and country. */
  function AddressParts(a: Address): seq<Option<string>> {
    [Some(Join(", ", a.Lines())), a.city, a.state, a.postalCode, a.country]
  }

  /** `[p for p in parts if p and p.strip()]`: the present, non-blank parts
      in their original order. */
  function NonBlank(parts: seq<Option<string>>): (r: seq<string>)
    ensures |r| <= |parts|
    ensures forall x :: x in r ==> !Blank(x)
  {
    if parts == [] then []
    else
      (if parts[0].Some? && !Blank(parts[0].value) then [parts[0].value] else [])
      + NonBlank(parts[1..])
  }

  function AddressDisplay(a: Address): string {
    Join(", ", NonBlank(AddressParts(a)))
  }

  /** What parse_address returns: None without addresses or when the chosen
      one is an empty object; otherwise the display of the first "home"
      address, or of the first address when none is marked "home". */
  function AddressFull(p: Patient): (r: Option<string>)
    ensures p.address == [] ==> r.None?
    ensures forall i :: 0 <= i < |p.address| && IsHomeAddress(p.address[i])
                        && (forall k :: 0 <= k < i ==> !IsHomeAddress(p.address[k]))
                        ==> r == Some(AddressDisplay(p.address[i]))
    ensures p.address != [] && (forall k :: 0 <= k < |p.address| ==> !IsHomeAddress(p.address[k]))
            ==> r == (if p.address[0].IsEmptyObject() then None else Some(AddressDisplay(p.address[0])))
  {
    match PreferredOrFirst(p.address, IsHomeAddress)
    case None => None
    case Some(a) => if a.IsEmptyObject() then None else Some(AddressDisplay(a))
  }

  /** parse_address: scan for a "home" address, fall back to the first. */
  method ParseAddress(p: Patient) returns (r: Option<string>)
    ensures r == AddressFull(p)
  {
    if p.address == [] {
      return None;
    }
    var home: Option<Address> := None;
    var i := 0;
    while i < |p.address|
      invariant 0 <= i <= |p.address|
      invariant home.None?
      invariant forall k :: 0 <= k < i ==> !IsHomeAddress(p.address[k])
    {
      if IsHomeAddress(p.address[i]) {
        home := Some(p.address[i]);
        break;
      }
      i := i + 1;
    }
    if home.None? {
      home := Some(p.address[0]);
    }
    if home.value.IsEmptyObject() {
      return None;
    }
    return Some(AddressDisplay(home.value));
  }

  /** The filter distributes over concatenation: kept parts keep their
      relative order. */
  lemma {:induction false} NonBlankAppend(a: seq<Option<string>>, b: seq<Option<string>>)
    ensures NonBlank(a + b) == NonBlank(a) + NonBlank(b)
  {
    if a == [] {
      assert a + b == b;
    } else {
      assert (a + b)[0] == a[0];
      assert (a + b)[1..] == a[1..] + b;
      NonBlankAppend(a[1..], b);
    }
  }

  /** A part is shown exactly when it is present and not blank. */
  lemma {:induction false} NonBlankMembership(parts: seq<Option<string>>, x: string)
    ensures x in NonBlank(parts) <==> Some(x) in parts && !Blank(x)
  {
    if parts != [] {
      NonBlankMembership(parts[1..], x);
      assert parts == [parts[0]] + parts[1..];
    }
  }

  // ------------------------------------------------ marital status, language

  /** A concept's display text: its truthy text, else the truthy display of
      its first coding, else None. */
  function ConceptDisplay(cc: CodeableConcept): (r: Option<string>)
    ensures r.Some? ==> r.value != ""
    ensures Truthy(cc.text) ==> r == cc.text
    ensures !Truthy(cc.text) ==> r == (if cc.Codings() != [] && Truthy(cc.Codings()[0].display)
                                       then cc.Codings()[0].display else None)
  {
    if Truthy(cc.text) then cc.text
    else if cc.Codings() != [] && Truthy(cc.Codings()[0].display) then cc.Codings()[0].display
    else None
  }

  /** parse_marital_status: absent or empty object gives None, otherwise the
      concept's display text. */
  function MaritalStatus(p: Patient): (r: Option<string>)
    ensures r.Some? ==> Truthy(r) && p.maritalStatus.Some?
    ensures p.maritalStatus.Some? && p.maritalStatus.value.IsEmptyObject() ==> r.None?
    ensures p.maritalStatus.Some? && Truthy(p.maritalStatus.value.text) ==> r == p.maritalStatus.value.text
    ensures p.maritalStatus.Some? && !Truthy(p.maritalStatus.value.text)
            && p.maritalStatus.value.Codings() != [] && Truthy(p.maritalStatus.value.Codings()[0].display)
            ==> r == p.maritalStatus.value.Codings()[0].display
    ensures p.maritalStatus.Some? && !Truthy(p.maritalStatus.value.text)
            && (p.maritalStatus.value.Codings() == [] || !Truthy(p.maritalStatus.value.Codings()[0].display))
            ==> r.None?
  {
    match p.maritalStatus
    case None => None
    case Some(cc) => if cc.IsEmptyObject() then None else ConceptDisplay(cc)
  }

  /** `comm.get("preferred") is True` */
  predicate IsPreferred(c: Communication) {
    c.preferred == Some(true)
  }

  /** The language text of one communication entry. */
  function LanguageOf(c: Communication): Option<string> {
    if c.language.None? || c.language.value.IsEmptyObject() then None
    else ConceptDisplay(c.language.value)
  }

  /** What parse_preferred_language returns: the language of the first entry
      flagged preferred, else of the first entry; None without entries. */
  function PreferredLanguage(p: Patient): (r: Option<string>)
    ensures p.communication == [] ==> r.None?
    ensures r.Some? ==> Truthy(r)
    ensures forall i :: 0 <= i < |p.communication| && IsPreferred(p.communication[i])
                        && (forall k :: 0 <= k < i ==> !IsPreferred(p.communication[k]))
                        ==> r == LanguageOf(p.communication[i])
    ensures p.communication != []
            && (forall k :: 0 <= k < |p.communication| ==> !IsPreferred(p.communication[k]))
            ==> r == LanguageOf(p.communication[0])
  {
    match PreferredOrFirst(p.communication, IsPreferred)
    case None => None
    case Some(c) => LanguageOf(c)
  }

  /** parse_preferred_language: scan for the preferred entry, fall back to
      the first, then read its language concept. */
  method ParsePreferredLanguage(p: Patient) returns (r: Option<string>)
    ensures r == PreferredLanguage(p)
  {
    if p.communication == [] {
      return None;
    }
    var chosen: Option<Communication> := None;
    var i := 0;
    while i < |p.communication|
      invariant 0 <= i <= |p.communication|
      invariant chosen.None?
      invariant forall k :: 0 <= k < i ==> !IsPreferred(p.communication[k])
    {
      if IsPreferred(p.communication[i]) {
        chosen := Some(p.communication[i]);
        break;
      }
      i := i + 1;
    }
    if chosen.None? {
      chosen := Some(p.communication[0]);
    }
    var c := chosen.value;
    if c.language.None? || c.language.value.IsEmptyObject() {
      return None;
    }
    var language := c.language.value;
    if Truthy(language.text) {
      return language.text;
    }
    if language.Codings() != [] {
      var coding := language.Codings()[0];
      if Truthy(coding.display) {
        return coding.display;
      }
    }
    return None;
  }
}
