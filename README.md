# FHIR patient-bundle normaliser, modelled in Dafny

The system reads FHIR R4 bundles (JSON documents that hold a Patient and the
Coverage, Encounter, Condition, MedicationRequest and Medication resources
around it) and flattens each into one patient record for a web page. The
longview parser fills thirteen keys. The oneview parser fills nine of them
(the first seven, `recent_encounters` and `diagnoses`) with the same field
parsers. The longview web app then offers three
pieces of logic on those records: age from the date of birth, lookup by
patient id, and a search by id or by name.

This project models:

- every field parser of `longview_app/fhir_parser.py` and `parse_fhir_bundle` itself;
- the oneview `parse_fhir_bundle`, as the nine-key projection of the longview record;
- `calculate_age`, `get_patient_by_id` and the search loop of `longview_app/app.py`.

Python values become Dafny datatypes:

- A JSON key that may be missing is an `Option`.
- A list the code reads with a `[{}]` default and then indexes with `[0]` is an `Option<seq<..>>`. An empty list that is present makes the Python raise `IndexError`.
- Code that can raise returns an `Outcome`, which is either `Ok(value)` or `Raised(error)`.
- Python truthiness of strings is `Truthy`: `None` and `""` are false.

Each loop of the source is a method. Its `ensures` ties the result to a
specification function. The properties the code promises are lemmas about
those functions.

Modules:

| file | module | covers |
|---|---|---|
| base.dfy | Base | Option, Outcome, truthiness, `or`, first-match search, fail-fast map |
| pystrings.dfy | PyStrings | `str.strip`, `str.join`, `in`, `str.lower` |
| pydates.dfy | PyDates | `datetime.strptime(s, "%Y-%m-%d")` and `strftime` |
| fhir.dfy | Fhir | the FHIR resources the parsers read |
| bundles.dfy | Bundles | `get_resource_entries` and the typed views of a bundle |
| demographics.dfy | Demographics | name, phone, address, marital status, language |
| insurance.dfy | Insurance | `parse_insurance_info` |
| primary_care.dfy | PrimaryCare | `parse_pcp_name` |
| encounters.dfy | EncounterParser | `parse_recent_encounters` |
| diagnoses.dfy | Diagnoses | `parse_diagnoses` |
| medications.dfy | Medications | `parse_medications` |
| fhir_parser.dfy | FhirParser | longview `parse_fhir_bundle` |
| oneview_parser.dfy | OneviewParser | oneview `parse_fhir_bundle` |
| patient_search.dfy | PatientSearch | `calculate_age`, `get_patient_by_id`, search |

The parsers of `oneview_app/fhir_parser.py` (lines 16-174) are the same text
as those of `longview_app/fhir_parser.py` (lines 19-177), so they are modelled
once.

### Behaviour worth knowing

- **Errors can escape.** Four lookups index `[0]` into a list that may be present but empty, and then raise `IndexError`:
  - a coverage's `type.coding` (`longview_app/fhir_parser.py:51`);
  - a coverage's `payor` list (`longview_app/fhir_parser.py:52` and `:58`);
  - a diagnosis entry's `use.coding` (`longview_app/fhir_parser.py:123`);
  - a request's `dosageInstruction` (`longview_app/fhir_parser.py:264`).

  The model returns `Raised(IndexError)` in these cases, and `parse_fhir_bundle` passes the error on.
- **Insurance** (`longview_app/fhir_parser.py:50-63`). A health-plan coverage whose first payor has neither a display nor an identifier value does not end the scan. The scan moves on, and the last resort is the first coverage's payor.
- **Primary care provider** (`longview_app/fhir_parser.py:71-77`). A participant with a primary-care code ends the scan only if its individual has a display. Otherwise later participants and encounters are still searched.
- **Primary diagnosis** (`longview_app/fhir_parser.py:122-130`). A primary-coded entry outranks earlier fallback displays only when no earlier entry raises. A primary-coded entry without a display does not stop the loop.
- **SNOMED code** (`longview_app/fhir_parser.py:150-157`). Only the first coding with a SNOMED system is considered. When its code is falsy, the first coding supplies the code and description, even if a later SNOMED coding has a code.
- **Medication name** (`longview_app/fhir_parser.py:281-282`). A resolved Medication whose first coding has no display leaves the name `None`, so the name becomes "Unknown Medication" and not the "name not found" placeholder.

## Model

| member | source | states |
|---|---|---|
| Base.FirstIndex | longview_app/fhir_parser.py:150 | the index of the first element satisfying a predicate: it satisfies it, none before it does, and None exactly when no element does (the meaning of every early-return scan and `next(...)`) |
| Base.PreferredOrFirst | longview_app/fhir_parser.py:184-191 | the first element satisfying a predicate, else the first element; None exactly on the empty list (the "preferred, else first" choice of address and language) |
| Base.TraverseExtendOk | longview_app/fhir_parser.py:95-134 | one more element that does not raise extends the prefix's results by its own result |
| Base.TraverseExtendRaised | longview_app/fhir_parser.py:95-134 | an element that raises after a prefix that does not makes the whole traversal raise its error |
| Base.Traverse | longview_app/fhir_parser.py:95-134 | a loop that appends one result per element returns Ok exactly when no element raises, with one result per element in order; otherwise it raises what the first raising element raises |
| PyStrings.LeadingSpaces | longview_app/fhir_parser.py:34 | the count of leading whitespace characters is bounded by the length and stops at the first non-space |
| PyStrings.TrailingSpaces | longview_app/fhir_parser.py:34 | the same for trailing whitespace |
| PyStrings.Strip | longview_app/app.py:49 | `strip()` returns a contiguous slice of its input that neither starts nor ends with whitespace |
| PyStrings.StripUnpadded | longview_app/app.py:49 | a string without whitespace ends strips to itself |
| PyStrings.StripBlank | longview_app/app.py:49-52 | an all-whitespace string strips to "" (so a blank query is falsy) |
| PyStrings.Join | longview_app/fhir_parser.py:32 | `sep.join(parts)` starts with the first part, ends with the last, and is "" for no parts |
| PyStrings.JoinAppend | longview_app/fhir_parser.py:32 | joining one more part appends exactly one separator and that part, so consecutive parts are separated by one `sep` |
| PyStrings.ContainsIffOccurs | longview_app/app.py:58 | `sub in s` holds exactly when `sub` occurs at some position of `s` |
| PyStrings.Lower | longview_app/app.py:58 | `lower()` keeps the length and lower-cases every character |
| PyStrings.NotContainedWithoutFirstPair | longview_app/app.py:58 | a string in which the first character of `sub` is never followed by its second does not contain `sub` |
| Fhir.FirstCodeOrDefault | longview_app/fhir_parser.py:51 | `.get("coding", [{}])[0].get("code")`, here and at line 123, raises IndexError exactly when the coding list is present and empty; a code found is the first coding's; an absent concept or list gives None |
| PyDates.DaysInMonth | longview_app/app.py:24 | a month has 28 to 31 days |
| PyDates.DigitValue | longview_app/app.py:24 | a decimal digit has value 0 to 9 |
| PyDates.DigitChar | longview_app/app.py:24 | the digit character of a value reads back as that value |
| PyDates.ParseMonth | longview_app/app.py:24 | the `%m` field accepts only months 1 to 12 |
| PyDates.ParseDay | longview_app/app.py:24 | the `%d` field accepts only days 1 to 31 |
| PyDates.FindDash | longview_app/app.py:24 | the position of the first '-', or None exactly when there is no '-' |
| PyDates.YearOf | longview_app/app.py:24 | four digits read as a year between 0 and 9999 |
| PyDates.MonthDayOf | longview_app/app.py:24 | the month-dash-day part yields only real calendar dates of the given year |
| PyDates.ParseYmd | longview_app/app.py:24 | `strptime(s, "%Y-%m-%d")` succeeds only with a real calendar date in years 1 to 9999 |
| PyDates.Pad2 | longview_app/test_app.py:142 | two zero-padded digits reading back as the number |
| PyDates.FormatYmd | longview_app/test_app.py:142 | `strftime("%Y-%m-%d")` writes ten characters with dashes at positions 4 and 7 |
| PyDates.ParseFormatRoundTrip | longview_app/test_app.py:140-143 | `strptime` reads back exactly the date `strftime` wrote |
| PyDates.TestParseYmdAccepts | longview_app/test_app.py:138 | "1990-01-01" parses to 1 January 1990 |
| PyDates.TestParseYmdAcceptsShortMonth | longview_app/app.py:24 | a one-digit month is accepted, and "2024-2-29" is 29 February 2024 |
| PyDates.TestParseYmdRejectsBadMonth | longview_app/test_app.py:151 | "2000-13-01" is rejected |
| PyDates.TestParseYmdRejectsBadDay | longview_app/app.py:24 | 29 February of a common year is rejected |
| PyDates.TestParseYmdRejectsText | longview_app/test_app.py:149 | "invalid-date" is rejected |
| Bundles.ResourceEntries | longview_app/fhir_parser.py:19-25 | every kept resource has the requested type, and the result is no longer than the entries |
| Bundles.ResourceEntriesAppend | longview_app/fhir_parser.py:21-25 | the filter distributes over concatenation of entry lists, so entry order is kept |
| Bundles.ResourceEntriesMembership | longview_app/fhir_parser.py:21-25 | a resource is kept exactly when some entry of the requested type holds it |
| Bundles.ResourceEntriesHead | longview_app/fhir_parser.py:300-305 | the result is empty exactly when no entry has the type; otherwise its head is the resource of the first such entry |
| Bundles.Patients | longview_app/fhir_parser.py:300 | the Patient view lists exactly the Patient resources in entry order |
| Bundles.Coverages | longview_app/fhir_parser.py:307 | the Coverage view lists exactly the Coverage resources in entry order |
| Bundles.Encounters | longview_app/fhir_parser.py:308 | the Encounter view lists exactly the Encounter resources in entry order |
| Bundles.Conditions | longview_app/fhir_parser.py:309 | the Condition view lists exactly the Condition resources in entry order |
| Bundles.MedicationRequests | longview_app/fhir_parser.py:257 | the request view lists exactly the MedicationRequest resources in entry order |
| Bundles.FirstPatientOfBundle | longview_app/fhir_parser.py:300-305 | the patient chosen is the one in the first Patient entry |
| Demographics.FormatName | longview_app/fhir_parser.py:32-34 | a formatted name has no whitespace at either end |
| Demographics.FullName | longview_app/fhir_parser.py:27-34 | the name is None exactly when the patient has no name entry; otherwise it is unpadded |
| Demographics.NameJoinsGivenThenFamily | longview_app/fhir_parser.py:32-34 | with unpadded names, the full name is the given names joined by spaces, a space, then the family name |
| Demographics.FamilyOnlyName | longview_app/fhir_parser.py:32-34 | without given names the full name is the family name alone |
| Demographics.TestFullName | oneview_app/test_fhir_parser.py:159 | the full fixture's name is "John Middle Doe" |
| Demographics.TestFamilyOnlyName | oneview_app/test_fhir_parser.py:198 | the minimal fixture's name is "Smith" |
| Demographics.ContactPhone | longview_app/fhir_parser.py:85-90 | the value of the first home or mobile phone; None when there is none |
| Demographics.ParseContactInfo | longview_app/fhir_parser.py:85-90 | the telecom loop returns ContactPhone |
| Demographics.NonBlank | longview_app/fhir_parser.py:203 | only present, non-blank parts are kept, never more than there were |
| Demographics.NonBlankAppend | longview_app/fhir_parser.py:203 | the part filter keeps the parts' order |
| Demographics.NonBlankMembership | longview_app/fhir_parser.py:203 | a part is shown exactly when it is present and not blank |
| Demographics.AddressFull | longview_app/fhir_parser.py:179-203 | None without addresses; the first "home" address is shown if there is one, else the first address |
| Demographics.ParseAddress | longview_app/fhir_parser.py:179-203 | the address loop returns AddressFull |
| Demographics.ConceptDisplay | longview_app/fhir_parser.py:211-217 | a concept's truthy text, else its first coding's truthy display, else None; never "" |
| Demographics.MaritalStatus | longview_app/fhir_parser.py:205-217 | None for an absent or empty status; its truthy text wins; else its first coding's truthy display; else None |
| Demographics.PreferredLanguage | longview_app/fhir_parser.py:219-244 | None without communications; the language of the first entry whose `preferred` is True, else of the first entry |
| Demographics.ParsePreferredLanguage | longview_app/fhir_parser.py:219-244 | the communication loop returns PreferredLanguage |
| Insurance.PayorName | longview_app/fhir_parser.py:53-56 | the payor's truthy display, else its truthy identifier value |
| Insurance.FirstPayor | longview_app/fhir_parser.py:52-58 | `.get("payor", [{}])[0]`, at lines 52 and 58, raises IndexError exactly when the payor list is present and empty; otherwise the first payor, or an empty reference when the list is absent |
| Insurance.CoverageStep | longview_app/fhir_parser.py:51-56 | one coverage's turn: IndexError on an empty type coding list, nothing for a non-health-plan code, IndexError on a health plan's empty payor list, otherwise the payor's non-empty name if it has one |
| Insurance.HealthCoverageScan | longview_app/fhir_parser.py:50-56 | the scan's result is decided by the first coverage that raises or is a health plan naming its payor |
| Insurance.InsuranceInfo | longview_app/fhir_parser.py:44-63 | None for no coverages; a returned name is never "" |
| Insurance.ParseInsuranceInfo | longview_app/fhir_parser.py:44-63 | the coverage loop returns InsuranceInfo |
| Insurance.InsurancePrefersHealthPlan | longview_app/fhir_parser.py:50-54 | a health-plan coverage naming its payor wins over every other coverage, the first one included, once no earlier coverage stopped the scan |
| Insurance.InsuranceFallsBackToFirstCoverage | longview_app/fhir_parser.py:57-63 | when no coverage stops the scan, the answer is the first coverage's payor name |
| Insurance.InsuranceRaisesOnEmptyPayorList | longview_app/fhir_parser.py:52 | a health-plan coverage with an empty payor list raises IndexError when the scan reaches it |
| Insurance.TestInsurance | oneview_app/test_fhir_parser.py:162 | the fixtures give "Awesome Health Inc." and "MINIMAL_INSURANCE_ID" |
| Insurance.TestHealthPlanOutranksPosition | longview_app/fhir_parser.py:50-54 | with classes "other" then "health", the second coverage's payor is named |
| PrimaryCare.FirstDesignee | longview_app/fhir_parser.py:72-77 | the participant loop's answer: None exactly when no participant has a primary-care role and a display; a returned name is never "" |
| PrimaryCare.FirstDesigneeAt | longview_app/fhir_parser.py:72-77 | the first designated participant, wherever it sits, is the one named |
| PrimaryCare.EncounterPcp | longview_app/fhir_parser.py:71-77 | None exactly when no encounter has a primary-care participant with a display; a returned name is never "" |
| PrimaryCare.EncounterPcpAt | longview_app/fhir_parser.py:71-77 | the first encounter naming a primary-care provider decides the answer |
| PrimaryCare.PcpName | longview_app/fhir_parser.py:65-83 | the encounter answer, when there is one, wins over the general practitioner; a returned name is never "" |
| PrimaryCare.ScanPcpRole | longview_app/fhir_parser.py:73-75 | the two inner loops find a primary-care code exactly when some role has one |
| PrimaryCare.ScanParticipants | longview_app/fhir_parser.py:72-77 | the participant loop returns FirstDesignee |
| PrimaryCare.ParsePcpName | longview_app/fhir_parser.py:65-83 | the encounter loop, the participant loop it calls and the practitioner fallback return PcpName |
| PrimaryCare.PcpFirstDesignation | longview_app/fhir_parser.py:71-77 | the first designated participant in encounter-then-participant order is named |
| PrimaryCare.PcpFallsBackToGeneralPractitioner | longview_app/fhir_parser.py:79-83 | with no designated participant, the first general practitioner's display is named |
| PrimaryCare.TestPcp | oneview_app/test_fhir_parser.py:163 | a "PCP" participant beats the general practitioner; a participant without a role does not count |
| EncounterParser.EncounterType | longview_app/fhir_parser.py:104-110 | None without types; the first type's truthy text; else its first coding's display; else None |
| EncounterParser.UseCode | longview_app/fhir_parser.py:123 | a diagnosis entry's use code raises exactly when its `use` coding list is present and empty; a code found is the first coding's |
| EncounterParser.EncounterDate | longview_app/fhir_parser.py:97 | the period's truthy start, else its end |
| EncounterParser.FirstProvider | longview_app/fhir_parser.py:113-118 | None exactly when no participant's reference contains "Practitioner" with a display; a returned name is never "" |
| EncounterParser.FirstProviderAt | longview_app/fhir_parser.py:113-118 | the first such participant, wherever it sits, is the provider named |
| EncounterParser.FirstDiagnosisDisplay | longview_app/fhir_parser.py:128-130 | the display of the first entry that has one; None exactly when no entry has one |
| EncounterParser.PrimaryDiagnosisText | longview_app/fhir_parser.py:120-130 | the only error is IndexError, and a diagnosis text found is never "" |
| EncounterParser.EncounterInfo | longview_app/fhir_parser.py:96-130 | one encounter's summary raises exactly when its diagnosis loop raises, and then only IndexError; provider and diagnosis text are never "" |
| EncounterParser.RecentEncounters | longview_app/fhir_parser.py:92-134 | Ok exactly when no encounter raises, with one summary per encounter in order |
| EncounterParser.ScanProvider | longview_app/fhir_parser.py:113-118 | the participant loop returns the provider FirstProvider names |
| EncounterParser.ScanPrimaryDiagnosis | longview_app/fhir_parser.py:122-130 | the diagnosis loop returns PrimaryDiagnosisText |
| EncounterParser.ParseEncounter | longview_app/fhir_parser.py:96-130 | one turn of the outer loop builds EncounterInfo |
| EncounterParser.ParseRecentEncounters | longview_app/fhir_parser.py:92-134 | the outer loop returns RecentEncounters |
| EncounterParser.PrimaryDiagnosisOverridesFallback | longview_app/fhir_parser.py:124-127 | a primary-coded entry with a display wins over earlier fallback displays |
| EncounterParser.PrimaryDiagnosisFallsBackToFirstDisplay | longview_app/fhir_parser.py:122-130 | when no entry raises and no primary entry has a display, the first display is kept |
| EncounterParser.PrimaryDiagnosisRaisesOnEmptyUseCoding | longview_app/fhir_parser.py:123 | an entry whose `use.coding` is present but empty raises IndexError when reached |
| EncounterParser.TestRoutineCheckup | oneview_app/test_fhir_parser.py:170-173 | the first encounter fixture: type, facility, provider "Dr. Primary Care", diagnosis "Hypertension" |
| EncounterParser.TestSpecialistVisit | oneview_app/test_fhir_parser.py:175-178 | the second fixture: type from the coding display, provider "Dr. Spectialist", diagnosis "Type 2 Diabetes" |
| Diagnoses.CodeAndDescription | longview_app/fhir_parser.py:147-159 | a code appears only when there are codings; without codings only a truthy text is kept, as description |
| Diagnoses.Category | longview_app/fhir_parser.py:168-172 | None without categories; the first category's first code; else its truthy text; else None |
| Diagnoses.ConditionInfo | longview_app/fhir_parser.py:140-174 | a code comes from one of the condition's codings and is absent without codings; a status needs a status coding, a category a category entry |
| Diagnoses.Status | longview_app/fhir_parser.py:162-166 | the clinical status's first code, else the verification status's, else None |
| Diagnoses.ConditionSummaries | longview_app/fhir_parser.py:136-177 | one summary per condition, in order |
| Diagnoses.FindSnomed | longview_app/fhir_parser.py:150-151 | the generator search finds the first coding whose system starts with the SNOMED URI |
| Diagnoses.ParseCondition | longview_app/fhir_parser.py:140-176 | one turn of the loop builds ConditionInfo |
| Diagnoses.ParseDiagnoses | longview_app/fhir_parser.py:136-177 | the condition loop returns ConditionSummaries |
| Diagnoses.SnomedCodingPreferred | longview_app/fhir_parser.py:150-154 | a SNOMED coding with a truthy code supplies code and description wherever it sits |
| Diagnoses.FirstCodingWithoutSnomed | longview_app/fhir_parser.py:155-157 | without SNOMED codings the first coding supplies them |
| Diagnoses.OnlyFirstSnomedCodingCounts | longview_app/fhir_parser.py:150-157 | when the first SNOMED coding's code is falsy the first coding supplies the code and the description |
| Diagnoses.TextOnlyCondition | longview_app/fhir_parser.py:158-159 | a text-only code gives no code and the text as description |
| Diagnoses.TestDiagnoses | oneview_app/test_fhir_parser.py:180-191 | the two condition fixtures give the expected four keys |
| Medications.MedicationKey | longview_app/fhir_parser.py:252 | the index key is never "" (the source's `if med_id` always holds) |
| Medications.MedicationIndex | longview_app/fhir_parser.py:248-254 | a key is indexed exactly when some Medication entry has it |
| Medications.MedicationIndexLastWins | longview_app/fhir_parser.py:249-254 | of several Medication entries with one key, the last is kept |
| Medications.IndexMedications | longview_app/fhir_parser.py:248-254 | the first loop builds MedicationIndex |
| Medications.MedicationName | longview_app/fhir_parser.py:268-293 | every request gets a non-empty name |
| Medications.DosageText | longview_app/fhir_parser.py:264 | `.get("dosageInstruction", [{}])[0].get("text")` raises IndexError exactly when the list is present and empty; otherwise the first instruction's text, or None when the list is absent |
| Medications.MedicationInfo | longview_app/fhir_parser.py:260-293 | raises exactly when `dosageInstruction` is present and empty; otherwise the name is MedicationName |
| Medications.BundleMedications | longview_app/fhir_parser.py:246-296 | Ok exactly when no request has an empty dosage list, with one summary per request in order |
| Medications.ParseMedicationRequest | longview_app/fhir_parser.py:260-295 | one turn of the second loop builds MedicationInfo |
| Medications.ParseMedications | longview_app/fhir_parser.py:246-296 | the two loops return BundleMedications |
| Medications.EmbeddedConceptFirst | longview_app/fhir_parser.py:271-272 | an embedded concept's text names the medicine, whatever the reference says |
| Medications.EmbeddedCodingDisplay | longview_app/fhir_parser.py:273-274 | an embedded concept without a text is named by its first coding's truthy display |
| Medications.ResolvedCodingDisplay | longview_app/fhir_parser.py:281-282 | a resolved Medication whose code has no text is named by its first coding's truthy display |
| Medications.ReferenceResolvesInBundle | longview_app/fhir_parser.py:275-280 | a reference to a Medication entry of the bundle takes that Medication's code text |
| Medications.ResolvedWithoutName | longview_app/fhir_parser.py:283-284 | a resolved Medication without a code gives the "name not found" placeholder |
| Medications.UnresolvedReference | longview_app/fhir_parser.py:287-288 | an unresolved reference gives its display, else a placeholder quoting the reference |
| Medications.NoMedicationGiven | longview_app/fhir_parser.py:291-292 | with neither concept nor reference the name is "Unknown Medication" |
| Medications.ResolvedCodingWithoutDisplay | longview_app/fhir_parser.py:281-282 | a resolved coding without a display ends as "Unknown Medication" |
| FhirParser.SummariseBundle | longview_app/fhir_parser.py:298-326 | None exactly when no entry is a Patient; otherwise id, name, birth date and gender come from the first Patient, and a record is returned whenever no parser raises |
| FhirParser.ParseFhirBundle | longview_app/fhir_parser.py:298-326 | the parser returns SummariseBundle |
| FhirParser.EmptyBundleHasNoSummary | oneview_app/test_fhir_parser.py:213-215 | an empty bundle gives None |
| OneviewParser.Project | oneview_app/fhir_parser.py:187-197 | the oneview record keeps nine longview keys unchanged: the first seven, `recent_encounters` and `diagnoses` |
| OneviewParser.SummariseBundle | oneview_app/fhir_parser.py:176-198 | None exactly when no entry is a Patient; otherwise id, birth date and gender come from the first Patient |
| OneviewParser.OneviewIsProjectionOfLongview | oneview_app/fhir_parser.py:187-197 | where the longview parser succeeds, the oneview parser returns the nine-key projection of its record |
| OneviewParser.ParseFhirBundle | oneview_app/fhir_parser.py:176-198 | the parser returns SummariseBundle |
| OneviewParser.NoPatientNoRecord | oneview_app/test_fhir_parser.py:213-219 | an empty bundle and a bundle without a Patient give None |
| PatientSearch.AgeOn | longview_app/app.py:26 | the age is the difference of years, less one exactly when this year's birthday is still ahead |
| PatientSearch.CalculateAge | longview_app/app.py:19-28 | None for a falsy or unparseable date; otherwise the age on `today` |
| PatientSearch.AgeCountsAnniversaries | longview_app/app.py:26 | the age-th anniversary of the birth date has passed by `today` and the next has not |
| PatientSearch.AgeOnBirthday | longview_app/app.py:26 | on the birthday the age is the difference of years |
| PatientSearch.AgeBounds | longview_app/app.py:26 | for a birth date no later than today, the age is between 0 and the difference of years |
| PatientSearch.BornToday | longview_app/test_app.py:140-143 | a birth date of today, written by `strftime`, gives age 0 |
| PatientSearch.TestCalculateAge | longview_app/test_app.py:138-151 | 1990-01-01 gives 34 on 2024-06-15; "2000-13-01", "invalid-date", None and "" give None |
| PatientSearch.PatientById | longview_app/app.py:12-17 | None exactly when no record has the id; otherwise a record with that id |
| PatientSearch.GetPatientById | longview_app/app.py:12-17 | the loop returns the first record with the id |
| PatientSearch.SearchResults | longview_app/app.py:53-60 | never more results than records |
| PatientSearch.SearchMembership | longview_app/app.py:53-60 | a record is found exactly when it is in the collection and matches by id or by name, ignoring case |
| PatientSearch.SearchAppend | longview_app/app.py:53-60 | results keep collection order, each record at most once |
| PatientSearch.SearchAsWritten | longview_app/app.py:53-60 | the search as written raises exactly when some record without a name does not match by id, and then only AttributeError |
| PatientSearch.SearchAsWrittenRaisesOnNamelessRecord | longview_app/app.py:57-58 | the search as written raises AttributeError on a record without a name |
| PatientSearch.SearchAsWrittenAgreesWhenNamed | longview_app/app.py:53-60 | when every record has a name or matches by id, the search as written equals the corrected search |
| PatientSearch.SearchPatients | longview_app/app.py:49-60 | a blank query finds nothing; otherwise the loop returns the corrected search for the stripped query |
| PatientSearch.MockPatients | longview_app/test_app.py:6-49 | the test fixture: three records, Walter White, Jesse Bruce Pinkman and Skyler White, in that order (the contract states the count) |
| PatientSearch.SearchFindsOnlyFirstOfThree | longview_app/app.py:53-60 | over three records of which only the first matches, the search returns exactly that record |
| PatientSearch.NameMissesWithoutFirstPair | longview_app/app.py:58 | a name in which the query's first letter, in either case, is never followed by its second, in either case, does not match the query |
| PatientSearch.JesseMissesId | longview_app/test_app.py:71-77 | "Jesse Bruce Pinkman" does not contain "patient-001", ignoring case |
| PatientSearch.SkylerMissesId | longview_app/test_app.py:71-77 | "Skyler White (née Lambert)" does not contain "patient-001", ignoring case |
| PatientSearch.JesseNotFoundById | longview_app/test_app.py:71-77 | the second test record does not match "patient-001" |
| PatientSearch.SkylerNotFoundById | longview_app/test_app.py:71-77 | the third test record does not match "patient-001" |
| PatientSearch.TestSearchById | longview_app/test_app.py:71-77 | over the three test records, "patient-001" finds Walter White and nobody else |
| PatientSearch.WalterMatchesIgnoringCase | longview_app/test_app.py:95-100 | "Walter White" contains "WALTER white" once both are lower-cased |
| PatientSearch.JesseMissesWalter | longview_app/test_app.py:95-100 | "Jesse Bruce Pinkman" does not contain "WALTER white", ignoring case |
| PatientSearch.SkylerMissesWalter | longview_app/test_app.py:95-100 | "Skyler White (née Lambert)" does not contain "WALTER white", ignoring case |
| PatientSearch.WalterFoundByName | longview_app/test_app.py:95-100 | the first test record matches "WALTER white" |
| PatientSearch.JesseNotFoundByName | longview_app/test_app.py:95-100 | the second test record does not match "WALTER white" |
| PatientSearch.SkylerNotFoundByName | longview_app/test_app.py:95-100 | the third test record does not match "WALTER white" |
| PatientSearch.TestSearchIgnoresCase | longview_app/test_app.py:95-100 | over the three test records, "WALTER white" finds Walter White and nobody else |

## Left out

- Logging: every `logging.warning` call has no effect on the result and is not modelled.
- `load_all_patients_data` reads files from disk and is not modelled. The search and lookup take the loaded records as a parameter.
- The oneview web app, including its encounter sort by date and its own age calculation, is not part of this model. Only its tests (`oneview_app/test_app.py`) are available, not its code.
- The Flask routes, templates, request parsing and `__main__` blocks are not modelled. Only the search loop of the `index` route is.
- JSON values of the wrong type and explicit JSON `null` are not modelled. The resources are typed datatypes, and a missing key and `null` are the same `None`. Where the source tests a dict's truthiness, the model treats an object as empty when all of its modelled keys are missing.
- CalculateAge: `datetime.today()` is a clock read, so the model takes `today` as a parameter.
- PyDates.ParseYmd: Python's `\d` also accepts non-ASCII decimal digits, but the model accepts only ASCII digits.
- PyStrings.Lower: lower-cases ASCII letters only. Python's `str.lower` also folds other letters.
- PyDates.FormatYmd: covers only years 1000 and later, because the platform `strftime` does not zero-pad smaller years.
- Idempotence of the parsers is not stated. Each is a function of its input bundle, so two calls give the same result by construction.
- PrimaryCare.ScanPcpRole and PrimaryCare.ScanParticipants: the inner loops of `parse_pcp_name` are separate methods, and the encounter loop calls them.
- EncounterParser.ParseEncounter and Medications.ParseMedicationRequest: these are the loop bodies, moved into methods that the outer loops call.

## Findings

| source | as written | input that shows it | evidently intended | confidence | as-written member | corrected member |
|---|---|---|---|---|---|---|
| longview_app/app.py:57-58 | `patient.get('full_name', '')` returns `None` when the record holds `full_name: None`, which happens for a patient without a name entry. `None.lower()` then raises AttributeError and the search fails | records `[{patient_id: "p-1", full_name: None}]`, query "smith" | a missing name is read as "" and does not match | medium, not executed | PatientSearch.SearchAsWrittenRaisesOnNamelessRecord | PatientSearch.SearchPatients |
