# KDO karting portal — a verified model of its roster and records bookkeeping

The portal keeps everything it knows in the browser's local storage: the pilot roster, the
championships and their calendars, the regulations, the press releases, the penalties, the
marketplace, the staff accounts, the settings, the session and a bounded audit log. Its pages
read a collection, compute a new value and write it back. This project models that
bookkeeping in Dafny and proves what the pages promise about it.

- **Store.** `Storage.LocalStore` is a class with one optional field per storage key; `None`
  means the key was never written. Each getter falls back to its seed value. `addLog` keeps
  the newest 100 entries, newest first. `castVote` is a counter per pilot.
- **Records.** `Types` holds the records and the closed label sets. `Seeds` holds the
  compiled-in categories, roster and championship calendar.
- **Registration paths.** There are two, and they are kept apart:
  - the back-office form (`AdminNewPilot`): numbers are unique per category, licences are
    unique and compared exactly, an edit replaces the record in place, and a creation goes
    in front;
  - the public self-registration (`Inscripciones`): a licence may be reused only under the
    same name, compared case-insensitively; an existing (number, category) record is
    re-registered in place; anything else is appended.
- **Back office.**
  - `AdminDashboard`: events, ranking import, regulation/news/history upserts, staff, the
    settings merge, deletions, the reset for a new race, pagination and the result exports.
  - `AdminLogin`: credential match, session write and audit entry.
- **Text-generation calls.** `AiRetry` models the retry policy and the fallbacks of the
  wrappers. Connectivity and each attempt's outcome are inputs.
- **Public pages and reports.**
  - report table bodies: `Reports`;
  - standings: `Standings`, `Campeonatos`, `Resultados`;
  - roster filter: `Pilotos`;
  - engine lottery: `Cronomax`;
  - marketplace: `Mercado`;
  - regulations: `Reglamentos`;
  - set-up arithmetic: `Ingenieria`.

  These are modelled as functions over sequences, with lemmas.
- **Inputs taken as parameters.** Ids, dates, clock readings, random draws, the answers of
  the confirmation dialogs, the parsed model output and the browser's online flag are
  parameters of the model.
- **Shared modules.** Helper modules hold the generic sequence operations (`Seqs`) and the
  JavaScript string operations the pages use (`Text`). `Wrappers` holds `Option`.

## Model

| member | source | states |
|---|---|---|
| Types.StatusOf | types.ts:3 | a text names a status exactly when it is one of the three labels, and the status found carries that label |
| Types.StatusRoundTrip | types.ts:3 | the three status labels are distinct and read back to their status |
| Types.TrackFlagOf | types.ts:5-11 | a text names a flag exactly when it is one of the five flag labels, and the flag found carries that label |
| Types.TrackFlagRoundTrip | types.ts:5-11 | the five flags have distinct labels that read back to them |
| Types.EventStatusOf | types.ts:44 | a text names an event status exactly when it is one of the five labels |
| Types.EventStatusRoundTrip | types.ts:44 | the five event statuses read back from their labels |
| Types.PenaltyTypeOf | types.ts:166 | a text names a penalty kind exactly when it is one of the six labels |
| Types.PenaltyTypeRoundTrip | types.ts:166 | the six penalty kinds read back from their labels |
| Types.Points | types.ts:75 | the optional season points, or 0 when they are absent |
| Seeds.InitialCategories | constants.ts:4-13 | eight distinct categories, from KDO Power first to Escuela last |
| Seeds.InitialPilots | constants.ts:32-37 | the seed roster has four pilots |
| Seeds.InitialPilotsDistinct | constants.ts:33-36 | the seed roster has distinct ids, no shared (number, category) pair and distinct medical licences |
| Seeds.InitialPilotsInRange | constants.ts:32-37 | every seed pilot is confirmed, in a known category, with conduct points in 0..10 |
| Seeds.InitialEvents | constants.ts:48-59 | the seed calendar has ten rounds |
| Seeds.InitialEventsNumbered | constants.ts:48-59 | the rounds are numbered 1..10 in order, under distinct ids |
| Seeds.InitialChampionships | constants.ts:39-61 | one seed championship `c1`, holding the ten-round calendar |
| Seeds.InitialRegistrationLinks | constants.ts:26-29 | one placeholder link per category, in category order |
| Storage.DefaultAdmins | services/storageService.ts:20-29 | the fallback staff list is the single SuperAdmin `admin-1` |
| Storage.DefaultSettings | services/storageService.ts:40-49 | the fallback settings: maintenance off, registrations open, voting on |
| Storage.DefaultPressReleases | services/storageService.ts:106-118 | the fallback press list is the single official note `news-1` |
| Storage.DefaultPenalties | services/storageService.ts:122-135 | the fallback penalty list has six entries, one of each kind |
| Storage.EveryKindSeeded | services/storageService.ts:127-134 | every penalty kind appears in the seeded list |
| Storage.LogAdmin | services/storageService.ts:59-63 | an entry is signed by the session's username, or by SYSTEM when there is no session (or it has no username) |
| Storage.LogAfter | services/storageService.ts:67 | the new entry goes first, the log keeps at most 100 entries, and the rest is the newest part of the old log |
| Storage.LogAfterFull | services/storageService.ts:67 | an entry written to a full log pushes out exactly the oldest entry |
| Storage.Voted | services/storageService.ts:148-152 | a vote raises only that pilot's count, by one from 0; every other count is unchanged |
| Storage.LocalStore.constructor | services/storageService.ts:5-18 | a browser in which no key was ever written |
| Storage.LocalStore.Pilots | services/storageService.ts:33-36 | the saved roster, or the seed roster when none was ever saved |
| Storage.LocalStore.SavePilots | services/storageService.ts:37 | overwrites the roster key and nothing else |
| Storage.LocalStore.Settings | services/storageService.ts:40-49 | the saved settings, or the defaults |
| Storage.LocalStore.SaveSettings | services/storageService.ts:50 | overwrites the settings key and nothing else |
| Storage.LocalStore.AuditLogs | services/storageService.ts:53-56 | the saved log, or an empty one |
| Storage.LocalStore.AddLog | services/storageService.ts:57-68 | writes the log with the new entry in front, signed by the current session, capped at 100 |
| Storage.LocalStore.TrackStatus | services/storageService.ts:71 | the saved flag, or green when none was ever saved |
| Storage.LocalStore.SaveTrackStatus | services/storageService.ts:72 | overwrites the flag key and nothing else |
| Storage.LocalStore.SetAuth | services/storageService.ts:79-82 | writes the session, or removes it for null |
| Storage.LocalStore.AdminUsers | services/storageService.ts:85-88 | the saved staff list, or the default SuperAdmin list |
| Storage.LocalStore.SaveAdminUsers | services/storageService.ts:89 | overwrites the staff key and nothing else |
| Storage.LocalStore.Regulations | services/storageService.ts:92-95 | the saved regulations, or an empty list |
| Storage.LocalStore.SaveRegulations | services/storageService.ts:96 | overwrites the regulations key and nothing else |
| Storage.LocalStore.Championships | services/storageService.ts:99-102 | the saved championships, or the seed championship |
| Storage.LocalStore.SaveChampionships | services/storageService.ts:103 | overwrites the championships key and nothing else |
| Storage.LocalStore.PressReleases | services/storageService.ts:106-118 | the saved press releases, or the launch note |
| Storage.LocalStore.SavePressReleases | services/storageService.ts:119 | overwrites the press key and nothing else |
| Storage.LocalStore.Penalties | services/storageService.ts:122-135 | the saved penalties, or the six seeded ones |
| Storage.LocalStore.SavePenalties | services/storageService.ts:136 | overwrites the penalties key and nothing else |
| Storage.LocalStore.Marketplace | services/storageService.ts:139-142 | the saved listings, or an empty list |
| Storage.LocalStore.SaveMarketplace | services/storageService.ts:143 | overwrites the marketplace key and nothing else |
| Storage.LocalStore.Votes | services/storageService.ts:149 | the saved vote counts, or none |
| Storage.LocalStore.CastVote | services/storageService.ts:148-152 | writes the counts with one more vote for that pilot |
| Storage.NeverWrittenThenWrittenEmpty | services/storageService.ts:34-35 | a never-written roster reads as the four seed pilots, while a roster saved empty reads as empty |
| Storage.SaveThenRead | services/storageService.ts:33-37 | a saved roster reads back unchanged, and only the roster key changed |
| Storage.SessionRoundTrip | services/storageService.ts:75-82 | a written session reads back; after clearing there is none |
| Storage.TrackFlagRoundTrip | services/storageService.ts:71-72 | green before any save, the saved flag after |
| Storage.FreshAdmins | services/storageService.ts:20-88 | with no staff saved, the list is exactly one SuperAdmin `admin-1` |
| Storage.FirstVote | services/storageService.ts:148-152 | the first vote ever gives that pilot a count of 1 and creates no other count |
| Storage.LogAttribution | services/storageService.ts:59-63 | logging without a session signs SYSTEM; with a session, its username |
| AdminLogin.FindAdmin | pages/AdminLogin.tsx:24 | some account matches exactly when the stored username equals the lower-cased input and the password matches exactly; the result is the first match |
| AdminLogin.SessionOf | pages/AdminLogin.tsx:27 | the session keeps id, username, role, name and permissions, drops the password, and has no last-login time |
| AdminLogin.SessionSignsLogs | pages/AdminLogin.tsx:27-28 | audit entries written under the new session are signed as the account would sign them |
| AdminLogin.SeedAccountOpens | pages/AdminLogin.tsx:24 | on a fresh store `ADMIN`/`admin123` opens the seed account, and `admin` opens it with no other password |
| AdminLogin.Login | pages/AdminLogin.tsx:21-34 | succeeds iff some account matches; on success, the session and then a LOGIN entry under it; on failure, only an AUTH_ERROR entry naming the typed username, with the session unchanged |
| AdminLogin.OpenLoginPage | pages/AdminLogin.tsx:13-17 | an existing session goes straight to the dashboard |
| AdminLogin.LoginThenReopen | pages/AdminLogin.tsx:13-34 | after a successful login the page redirects; after a failed one, only if a session already existed |
| AdminNewPilot.NumberInput | pages/AdminNewPilot.tsx:237 | the kart-number box keeps exactly the digits typed, each as often as typed, in order |
| AdminNewPilot.NumberTaken | pages/AdminNewPilot.tsx:79-83 | true exactly when another record (different id) of that category carries that number |
| AdminNewPilot.LicenceTaken | pages/AdminNewPilot.tsx:94-97 | true exactly when another record holds exactly that licence, whatever its name |
| AdminNewPilot.EditIgnoresOwnRecord | pages/AdminNewPilot.tsx:82-96 | while editing, both conflict tests give what the create-mode tests give on the roster without the edited record |
| AdminNewPilot.NumberTakenByOther | pages/AdminNewPilot.tsx:79-83 | while editing, the number test is the create-mode test on the records with another id |
| AdminNewPilot.LicenceTakenByOther | pages/AdminNewPilot.tsx:94-97 | while editing, the licence test is the create-mode test on the records with another id |
| AdminNewPilot.NameError | pages/AdminNewPilot.tsx:73 | an error exactly when the trimmed name is empty |
| AdminNewPilot.NumberError | pages/AdminNewPilot.tsx:75-88 | an error exactly when the number is empty or its trimmed value is taken in the category: required, or the number-in-category message |
| AdminNewPilot.LicenceError | pages/AdminNewPilot.tsx:90-101 | an error exactly when the trimmed licence is empty or taken: required, or the already-held message |
| AdminNewPilot.RequiredError | pages/AdminNewPilot.tsx:103-105 | an error exactly when the field is blank once trimmed |
| AdminNewPilot.Validate | pages/AdminNewPilot.tsx:69-109 | the six field errors, and none is set exactly when the form is valid |
| AdminNewPilot.IsValid | pages/AdminNewPilot.tsx:69-108 | what `validate` demands; Validate sets no error exactly when it holds |
| AdminNewPilot.EditedRecord | pages/AdminNewPilot.tsx:119-130 | the edit keeps id, creation time, statistics and conduct points, takes the category, stores number and licence trimmed, and a ranking from the box that is never 0 |
| AdminNewPilot.Edited | pages/AdminNewPilot.tsx:119-130 | same length; the records with the edited id are replaced, all others unchanged |
| AdminNewPilot.NewRecord | pages/AdminNewPilot.tsx:134-148 | conduct points 10, zeroed statistics without points, trimmed number and licence, the form's status and category, the creation time, and a ranking from the box (99 when it does not parse or is 0) |
| AdminNewPilot.Created | pages/AdminNewPilot.tsx:149 | exactly one new record in front of the unchanged roster |
| AdminNewPilot.CreateKeepsRosterRules | pages/AdminNewPilot.tsx:79-149 | a validated creation keeps ids distinct, numbers unique per category and licences distinct |
| AdminNewPilot.PrependKeepsRosterRules | pages/AdminNewPilot.tsx:149 | putting a record with a fresh id, free number and free licence in front keeps the roster rules |
| AdminNewPilot.EditKeepsRosterRules | pages/AdminNewPilot.tsx:79-131 | a validated edit keeps the roster rules |
| AdminNewPilot.Submit | pages/AdminNewPilot.tsx:111-157 | accepted iff valid; a refusal changes nothing; an acceptance saves the edited or extended roster and one ADMIN entry |
| AdminNewPilot.FormOf | pages/AdminNewPilot.tsx:53-62 | the form copies the stored record's fields and shows its ranking as a numeral |
| AdminNewPilot.OpenPage | pages/AdminNewPilot.tsx:37-67 | no session sends back to login; an `edit` id naming a stored record opens it for editing; otherwise the blank form, with the first category when one exists |
| Inscripciones.NameIndex | pages/Inscripciones.tsx:49 | the position of a pilot with that name and no earlier pilot of that name, or proof that the name is absent |
| Inscripciones.Upsert | pages/Inscripciones.tsx:49 | `map.set` keeps every name at its place; a known name's place takes the new pilot and nothing else changes, a new name is appended at the end; one pilot per name is kept |
| Inscripciones.UniqueByName | pages/Inscripciones.tsx:49 | the suggestion pool has at most one pilot per name, each taken from the roster, every roster name represented by its last pilot, the names in the order of their first occurrence in the roster |
| Inscripciones.UpsertLast | pages/Inscripciones.tsx:49 | one more `set` extends the one-per-name invariant to one more pilot |
| Inscripciones.Reload | pages/Inscripciones.tsx:45-56 | the pool is rebuilt from the whole roster; with a category chosen, the category list is exactly its pilots |
| Inscripciones.Populate | pages/Inscripciones.tsx:59-75 | name, licences and transponder come from the pilot; number and ranking only when the pilot is of the chosen category, else the typed number (or the pilot's if blank) and ranking 99 |
| Inscripciones.PopulatedRankingReadsBack | pages/Inscripciones.tsx:66 | a positive ranking put into the form reads back as the same ranking |
| Inscripciones.Suggestions | pages/Inscripciones.tsx:83-89 | none for two characters or fewer; otherwise exactly the first min(5, m) of the m pool pilots whose name contains the upper-cased input, in pool order |
| Inscripciones.NameInput | pages/Inscripciones.tsx:78-90 | the typed name, not found, fresh suggestions, and a shown name error cleared |
| Inscripciones.FirstWithNumber | pages/Inscripciones.tsx:99 | a pilot of the list with exactly that number and no earlier pilot with it, or proof there is none |
| Inscripciones.NumberLookup | pages/Inscripciones.tsx:93-104 | the typed number, a cleared number error, and a pre-fill only from a category pilot with exactly that number |
| Inscripciones.LookupPrefillsFromCategory | pages/Inscripciones.tsx:52-103 | a pre-fill comes only from a stored pilot of the chosen category and keeps its number and ranking; without a match only the number changes |
| Inscripciones.AddAnotherCategory | pages/Inscripciones.tsx:261-272 | back to step 1 with no category, the form kept with its ranking reset to 99, not submitted, errors cleared |
| Inscripciones.HolderIndex | pages/Inscripciones.tsx:194 | the first pilot whose upper-cased licence is the upper-cased input, or proof there is none |
| Inscripciones.RegNameError | pages/Inscripciones.tsx:161-165 | required when blank once trimmed, too short under 3 characters as typed, otherwise none |
| Inscripciones.RegNumberError | pages/Inscripciones.tsx:168-172 | required when blank, non-numeric when the trimmed number is not all digits, otherwise none |
| Inscripciones.RankingError | pages/Inscripciones.tsx:175-179 | required when empty, an error when not a number, otherwise none |
| Inscripciones.RegLicenceError | pages/Inscripciones.tsx:182-203 | required, then at least 3 characters trimmed, then the first holder of the licence must carry the same upper-cased name, and the message names that holder |
| Inscripciones.RegSportsError | pages/Inscripciones.tsx:206-210 | required and at least 3 characters once trimmed |
| Inscripciones.ValidateForm | pages/Inscripciones.tsx:157-214 | the errors are the five field checks, and none is set exactly when the form is valid |
| Inscripciones.IsRegValid | pages/Inscripciones.tsx:157-213 | what `validateForm` demands; ValidateForm sets no error exactly when it holds |
| Inscripciones.LicenceCheckCoversAllHolders | pages/Inscripciones.tsx:194-200 | on a roster where holders of one licence share a name, passing the first-holder check means every holder has the form's name |
| Inscripciones.ExistingIndex | pages/Inscripciones.tsx:223 | the first record of that exact number in that category, or proof there is none |
| Inscripciones.ReRegistered | pages/Inscripciones.tsx:228-235 | pending, dated today, form licences and transponder unless blank; nothing else changes |
| Inscripciones.NewRegistration | pages/Inscripciones.tsx:239-253 | pending, in the chosen category, normalised name and number, PENDIENTE or TX- placeholders for blanks, conduct 10, zeroed statistics |
| Inscripciones.Registered | pages/Inscripciones.tsx:222-255 | an existing (number, category) record is replaced in place with the length unchanged; otherwise exactly one record is appended |
| Inscripciones.ResubmissionAddsNothing | pages/Inscripciones.tsx:223-254 | submitting the same digit-only number twice in a category adds one record at most |
| Inscripciones.RegisteredHasRecord | pages/Inscripciones.tsx:223-254 | after a registration a record of that number exists in that category |
| Inscripciones.SlotAfterRegistration | pages/Inscripciones.tsx:223-254 | after a registration under a number that trims to itself, a lookup of that number finds the re-registered record or the appended one, with its name |
| Inscripciones.ValidityReadsTrimmedNumber | pages/Inscripciones.tsx:168-170 | validation sees the kart number only trimmed: forms that differ only in padding of the number pass or fail together |
| Inscripciones.PaddedNumberDuplicatesKart | pages/Inscripciones.tsx:168-242 | as written: on the seed roster JUAN ACOSTA's own form with kart number " 1" passes and appends a second KDO Power record numbered "1" |
| Inscripciones.DirectSubmit | pages/Inscripciones.tsx:216-259 | shows the validation errors; an invalid form changes nothing; a valid one saves the registered roster and marks the page submitted |
| Inscripciones.DigitLicencesAgree | pages/Inscripciones.tsx:194-200 | a roster of distinct digit-only licences satisfies the one-name-per-licence rule |
| Inscripciones.InitialPilotsHead | constants.ts:33-34 | the seed roster starts with JUAN ACOSTA #1 (licence 1001) and PEDRO RAMIREZ #2 in KDO Power |
| Inscripciones.OverwriteBreaksRule | pages/Inscripciones.tsx:189-236 | a form with the first record's licence and the second record's number and category breaks the licence rule |
| Inscripciones.ReRegistrationOverwritesAnotherPilot | pages/Inscripciones.tsx:189-236 | as written, on the seed roster JUAN ACOSTA's form with kart number 2 passes and writes his licence onto PEDRO RAMIREZ's record |
| Inscripciones.PaddedLicencesCollide | pages/Inscripciones.tsx:186-246 | two forms whose licence carries a trailing blank both pass and leave two names on one licence |
| Inscripciones.PaddedLicenceEscapesCheck | pages/Inscripciones.tsx:186-246 | as written, "1001 " is checked trimmed but stored padded, so a second pilot with "1001 " finds no holder |
| Inscripciones.Normalised | pages/Inscripciones.tsx:186-242 | the form with its licence and kart number trimmed, every other field kept; both then trim to themselves |
| Inscripciones.CorrectedRegistered | pages/Inscripciones.tsx:216-255 | corrected: looks the record up by the trimmed number, stores the trimmed licence and number, and refuses a (number, category) record that belongs to another name |
| Inscripciones.CorrectedSubmitKeepsLicenceRule | pages/Inscripciones.tsx:189-255 | corrected: a valid submission keeps the one-name-per-licence rule on every roster that had it |
| Inscripciones.CorrectedRefusesOtherName | pages/Inscripciones.tsx:223-236 | corrected: a form whose record belongs to a pilot of another initial is refused |
| Inscripciones.CorrectedAcceptsOwnName | pages/Inscripciones.tsx:223-236 | corrected: a form whose record carries the form's own name is accepted |
| Inscripciones.CorrectedRefusesOverwrite | pages/Inscripciones.tsx:223-236 | corrected: on the seed roster the overwriting form is refused and JUAN ACOSTA's own number is accepted |
| Inscripciones.CorrectedResubmissionAddsNothing | pages/Inscripciones.tsx:223-254 | corrected: once a form is accepted, the same form again, padded number or not, is accepted on the saved roster and adds no record |
| Inscripciones.CorrectedReRegistersPaddedNumber | pages/Inscripciones.tsx:223-242 | corrected: on the seed roster the form with kart number " 1" is accepted and keeps the roster's length |
| Inscripciones.ApplyScan | pages/Inscripciones.tsx:139-147 | a null scan changes nothing; otherwise every field read replaces the form's, unread fields stay, errors clear |
| Inscripciones.ScanResult | pages/Inscripciones.tsx:137-151 | a scan that throws leaves the page unchanged; a scan that returns applies its data |
| Inscripciones.ScanIdempotent | pages/Inscripciones.tsx:139-147 | applying a scan twice equals applying it once; a scan that read nothing only clears the errors |
| AdminDashboard.ActivePilotsForReports | pages/AdminDashboard.tsx:139 | the reports list exactly the pilots not withdrawn (confirmed or pending), in roster order |
| AdminDashboard.NewEvent | pages/AdminDashboard.tsx:179-188 | the saved event: the form's id or a fresh one, round `Number(round) \|\| events.length + 1`, the date or today, empty briefing and scrutiny by default; SaveEventCreatesOrEdits states where it goes |
| AdminDashboard.EventsAfterSave | pages/AdminDashboard.tsx:190-195 | an edit replaces the events carrying the form's id, a creation appends; SaveEventCreatesOrEdits and DeleteUndoesCreate state it |
| AdminDashboard.ChampionshipsAfterSaveEvent | pages/AdminDashboard.tsx:168-198 | accepted exactly when name, track and selection are filled in and the selected championship exists |
| AdminDashboard.SaveEventTouchesOnlySelected | pages/AdminDashboard.tsx:173-198 | the saved event lands in the selected championship; every other championship is unchanged |
| AdminDashboard.SaveEventCreatesOrEdits | pages/AdminDashboard.tsx:180-195 | without an id the calendar grows by one event at the end, with round `events.length + 1` when none is given; with an id only events of that id are replaced |
| AdminDashboard.SaveEvent | pages/AdminDashboard.tsx:168-205 | on an accepted form, the new championship list and one EVENTO entry; otherwise nothing changes |
| AdminDashboard.ChampionshipsAfterDeleteEvent | pages/AdminDashboard.tsx:209-215 | accepted exactly when the selected championship exists |
| AdminDashboard.DeleteEventRemovesExactly | pages/AdminDashboard.tsx:213-215 | exactly the events with that id leave the selected calendar |
| AdminDashboard.DeleteUndoesCreate | pages/AdminDashboard.tsx:194-213 | deleting an event just created under a fresh id restores the calendar |
| AdminDashboard.DeleteEvent | pages/AdminDashboard.tsx:207-220 | after a confirmed dialog the filtered calendar and one EVENTO entry are written; otherwise nothing changes |
| AdminDashboard.ImportedPilot | pages/AdminDashboard.tsx:238-252 | the record an unmatched row pushes: upper-cased name, Confirmado, ranking 99, P_IMPORT licences, `TX-` transponder, conduct 10, the row's points; MergeRowKeepsRoster states it |
| AdminDashboard.MergeRow | pages/AdminDashboard.tsx:231-254 | one `forEach` step; its effect is stated by MergeRowKeepsRoster, MergeRowRecordsPoints and MergeRowKeepsNumbersUnique |
| AdminDashboard.Merged | pages/AdminDashboard.tsx:229-256 | the `forEach` merge as a fold of MergeRow over the rows in order; MergedKeepsRoster and MergedKeepsNumbersUnique state its effect, and ImportRanking's loop is proved equal to it |
| AdminDashboard.MergeRowKeepsRoster | pages/AdminDashboard.tsx:231-255 | a ranking row removes nobody, every pilot keeps its place and everything but points and date, and a pilot added comes last, confirmed and ranked 99 |
| AdminDashboard.MergeRowRecordsPoints | pages/AdminDashboard.tsx:231-255 | after a row, the first pilot with its number and category carries its points |
| AdminDashboard.MergeRowKeepsNumbersUnique | pages/AdminDashboard.tsx:231-255 | a row never creates a second pilot for a number already taken in its category |
| AdminDashboard.MergedKeepsRoster | pages/AdminDashboard.tsx:230-256 | the whole import removes nobody and changes only points and dates |
| AdminDashboard.MergedKeepsNumbersUnique | pages/AdminDashboard.tsx:230-256 | the whole import keeps kart numbers unique per category |
| AdminDashboard.ImportRanking | pages/AdminDashboard.tsx:223-269 | a blank text or an empty parse changes nothing; otherwise the merged roster and one IMPORT entry are saved, via a loop over the rows |
| AdminDashboard.UpsertFrontPlaces | pages/AdminDashboard.tsx:298-300 | without an id the record goes in front of the unchanged list; with one the length is kept and the record is present exactly when it was already there or some record had that id |
| AdminDashboard.UpsertBackPlaces | pages/AdminDashboard.tsx:367-369 | the same, with a creation going after the unchanged list |
| AdminDashboard.EditKeepsKeysDistinct | pages/AdminDashboard.tsx:298-300 | an edit that keeps the id keeps the ids distinct |
| AdminDashboard.UpsertFront | pages/AdminDashboard.tsx:298-300 | edit by id in place, or create in front; UpsertFrontPlaces states both cases |
| AdminDashboard.UpsertBack | pages/AdminDashboard.tsx:367-369 | edit by id in place, or create at the back; UpsertBackPlaces states both cases |
| AdminDashboard.NewRegulation | pages/AdminDashboard.tsx:287-297 | the regulation: the form's id or a fresh one, version or "1.0", today's date, the size label and the file, not a draft; SaveRegulation stores it |
| AdminDashboard.NewPressRelease | pages/AdminDashboard.tsx:325-332 | the release: the form's id or a fresh one, today's date and the Author; SaveNews stores it |
| AdminDashboard.LegacyChampionship | pages/AdminDashboard.tsx:394-403 | a finished season named `Temporada <year>`, tracks or "Varios", the image or the default one, the champions or an empty list; SaveHistory stores it |
| AdminDashboard.StaffFormAccepted | pages/AdminDashboard.tsx:355 | a username, and a password for a new member; SaveStaff refuses exactly when it fails |
| AdminDashboard.RemoveUndoesCreate | pages/AdminDashboard.tsx:300-312 | removing by id a record just created under a fresh id gives back the list |
| AdminDashboard.SaveRegulation | pages/AdminDashboard.tsx:282-308 | a title and a file are required; otherwise the upserted regulations and one REGLAMENTO entry |
| AdminDashboard.DeleteRegulation | pages/AdminDashboard.tsx:310-317 | after a confirmed dialog every regulation with that id is removed and logged |
| AdminDashboard.Author | pages/AdminDashboard.tsx:331 | never empty, and the session user's name when it has one |
| AdminDashboard.SaveNews | pages/AdminDashboard.tsx:320-342 | a title and content are required; otherwise the upserted releases and one PRENSA entry |
| AdminDashboard.DeleteNews | pages/AdminDashboard.tsx:344-351 | after a confirmed dialog the release is removed and logged |
| AdminDashboard.SaveHistory | pages/AdminDashboard.tsx:389-413 | a name and year are required; otherwise the upserted finished season and one HISTORIA entry |
| AdminDashboard.NewStaff | pages/AdminDashboard.tsx:359-366 | the username is stored lower-cased |
| AdminDashboard.SaveStaff | pages/AdminDashboard.tsx:354-376 | refused without a username, or without a password for a new member; otherwise the upserted staff list and one STAFF entry |
| AdminDashboard.StaffAfterDelete | pages/AdminDashboard.tsx:378-382 | a deletion goes ahead exactly when it is confirmed and the id is not `admin-1` |
| AdminDashboard.DeleteStaffSparesSuperAdmin | pages/AdminDashboard.tsx:379-381 | `admin-1` survives every deletion, and the records left are exactly those of another id |
| AdminDashboard.DeleteStaff | pages/AdminDashboard.tsx:378-386 | refuses `admin-1`; otherwise, after a confirmed dialog, removes and logs |
| AdminDashboard.MergeSettingsFields | pages/AdminDashboard.tsx:426 | each of the eight fields an update names is replaced, every other field kept |
| AdminDashboard.MergeSettingsAlgebra | pages/AdminDashboard.tsx:426 | an empty update changes nothing, the same update twice is once, and two updates compose field by field |
| AdminDashboard.MergeSettings | pages/AdminDashboard.tsx:426 | `{ ...settings, ...updates }`; MergeSettingsFields and MergeSettingsAlgebra state it field by field |
| AdminDashboard.UpdateSettings | pages/AdminDashboard.tsx:425-430 | saves the merged settings and one AJUSTES entry |
| AdminDashboard.DeletePilotKeepsRosterRules | pages/AdminDashboard.tsx:467 | a deletion keeps every roster rule |
| AdminDashboard.DeletePilot | pages/AdminDashboard.tsx:465-472 | after a confirmed dialog the pilot is removed and logged; otherwise nothing changes |
| AdminDashboard.ResetRoster | pages/AdminDashboard.tsx:480 | same length, every pilot pending, every other field unchanged |
| AdminDashboard.ResetMakesEveryoneActive | pages/AdminDashboard.tsx:139-480 | after a reset every pilot is in the reports, and a second reset changes nothing |
| AdminDashboard.ResetKeepsRosterRules | pages/AdminDashboard.tsx:480 | a reset keeps ids, numbers, categories and licences |
| AdminDashboard.ResetForNewRace | pages/AdminDashboard.tsx:478-485 | after a confirmed dialog the reset roster and one EVENTO entry |
| AdminDashboard.FilteredPilots | pages/AdminDashboard.tsx:496 | exactly the pilots of the category (or all for 'Todas') whose name contains the upper-cased search or whose number contains it, in order |
| AdminDashboard.MatchesSearch | pages/AdminDashboard.tsx:496 | the table filter's predicate; FilteredPilots lists exactly the pilots it admits |
| AdminDashboard.EmptySearchListsAll | pages/AdminDashboard.tsx:496 | 'Todas' and an empty search list the whole roster |
| AdminDashboard.TotalPages | pages/AdminDashboard.tsx:497 | the fewest pages of ten that hold the rows |
| AdminDashboard.PageOf | pages/AdminDashboard.tsx:498-501 | a page holds at most ten rows |
| AdminDashboard.PagesAreChunks | pages/AdminDashboard.tsx:497-501 | every page in range is the matching chunk of ten, and there are `TotalPages` of them |
| AdminDashboard.PagerStaysInRange | pages/AdminDashboard.tsx:748-758 | from a page in range, the previous and next buttons stay within 1..totalPages |
| AdminDashboard.PrevPage | pages/AdminDashboard.tsx:748 | `Math.max(1, p - 1)`; PagerStaysInRange states the range |
| AdminDashboard.NextPage | pages/AdminDashboard.tsx:758 | `Math.min(totalPages, p + 1)`; PagerStaysInRange states the range |
| AdminDashboard.LapByLapPilots | pages/AdminDashboard.tsx:148 | the category's pilots, fewest points first; LapByLapOrdered states it |
| AdminDashboard.LapByLapOrdered | pages/AdminDashboard.tsx:148 | the lap-by-lap sheet lists exactly the category's pilots, fewest points first |
| AdminDashboard.DownloadLapByLap | pages/AdminDashboard.tsx:147-155 | an empty category produces nothing and logs nothing; otherwise the sheet and one RESULTADOS entry |
| AdminDashboard.DownloadFilteredList | pages/AdminDashboard.tsx:157-165 | an empty selection produces nothing; otherwise the category's pilots in order and one PADRON entry |
| AdminDashboard.DownloadBriefing | pages/AdminDashboard.tsx:436-440 | the attendance sheet is the reports' pilot list; the only write is one EVENTO entry naming the selected event, or "undefined" |
| AdminDashboard.ClassifiedRows | pages/AdminDashboard.tsx:444-452 | as many lines as the category has pilots |
| AdminDashboard.ClassifiedRowsShowCategory | pages/AdminDashboard.tsx:444-452 | the lines are the category's pilots (number and name), each as often as the roster holds it; the first carries a pilot with the category's most points, and each later gap is that maximum less the line's own pilot's points |
| AdminDashboard.ClassifiedGaps | pages/AdminDashboard.tsx:450 | only the first line is the leader, and every other gap is non-negative and never shrinks down the list |
| AdminDashboard.ExportOfficialResults | pages/AdminDashboard.tsx:443-462 | an empty category exports and logs nothing; otherwise the rows and one ADMIN entry |
| AdminDashboard.AddChampion | pages/AdminDashboard.tsx:415-422 | a winner needs a category and a pilot, and goes at the end of the list |
| AiRetry.Retry | services/aiService.ts:6-29 | each pause answers a retriable failure on a live connection; pauses start at the delay and double; the run stops at the first attempt that is offline (OFFLINE_MODE, no call), succeeds, fails otherwise, or fails with no retries left |
| AiRetry.IsUnavailable | services/aiService.ts:17-21 | status or code 503, or a message naming 503 or UNAVAILABLE; Retry and StaysUnavailable use it as the retry test |
| AiRetry.DefaultBounds | services/aiService.ts:6-26 | with the defaults the operation runs at most four times, with pauses a prefix of 1000, 2000, 4000 ms |
| AiRetry.OfflineNeverInvokes | services/aiService.ts:8-10 | offline, OFFLINE_MODE is thrown without invoking the operation |
| AiRetry.FirstOutcomeFinal | services/aiService.ts:13-27 | a first success, OFFLINE_MODE error or non-unavailable error is returned as is after one call |
| AiRetry.StaysUnavailable | services/aiService.ts:17-27 | a service that stays unavailable is called four times, with pauses of 1, 2 and 4 s, and the fourth failure is thrown |
| AiRetry.FallbackTexts | services/aiService.ts:31-199 | every wrapper answers a failure as it answers offline, except the race summary |
| AiRetry.TextReply | services/aiService.ts:34-199 | offline gives the offline text; a success gives the reply; a thrown error gives the fallback; it never throws |
| AiRetry.ReplyIsFallbackOrAnAnswer | services/aiService.ts:34-199 | the reply is a fallback or the text of one of the first four attempts |
| AiRetry.ParseRanking | services/aiService.ts:140-154 | offline gives an empty list; a reply (or `[]` when empty) is parsed, and an unparsable one gives an empty list |
| AiRetry.UnparsableRankingIsEmpty | services/aiService.ts:148-152 | unparsable ranking text yields `[]`, not an error |
| AiRetry.ExtractLicence | services/aiService.ts:119-138 | offline throws OFFLINE; a reply (or `{}`) is parsed, and an unparsable one gives null |
| AiRetry.UnparsableLicenceIsNull | services/aiService.ts:132-136 | unparsable licence text yields null, not an error |
| Reports.Numbered | utils/pdfGenerator.ts:79-86 | one row per record, in order, with positions from the offset plus 1 |
| Reports.ItemsOfNumbered | utils/pdfGenerator.ts:79-86 | numbering loses and adds no record |
| Reports.RankingCell | utils/pdfGenerator.ts:82-125 | a ranking of 0 prints as a dash; a positive one as its decimal numeral |
| Reports.Chronological | utils/pdfGenerator.ts:70-86 | the roster sorted by createdAt and numbered; ChronologicalReport states it |
| Reports.ChronologicalReport | utils/pdfGenerator.ts:70-93 | the rows hold every pilot as often as the roster does, earliest registration first, numbered 1..n |
| Reports.CategoryListFacts | utils/pdfGenerator.ts:102-104 | a category's list holds exactly its pilots, each as often as the roster does, by registration time |
| Reports.CategorySections | utils/pdfGenerator.ts:101-106 | one section per category with pilots; SectionsNonEmpty, SectionsInCategoryOrder and CategoryWithPilotsListed state it |
| Reports.SectionsNonEmpty | utils/pdfGenerator.ts:101-106 | every printed section belongs to a category with pilots and is numbered from 1 |
| Reports.SectionsInCategoryOrder | utils/pdfGenerator.ts:101 | the sections follow the category order |
| Reports.CategoryWithPilotsListed | utils/pdfGenerator.ts:101-106 | a pilot of a listed category appears in that category's section |
| Reports.GroupLabel | utils/pdfGenerator.ts:158 | group 1 is A, group 2 is B, every later group is C |
| Reports.GroupsOf | utils/pdfGenerator.ts:154-174 | the category's list in pieces of 15, labelled by group number; GroupsPartition and GroupLabels state it |
| Reports.GroupsPartition | utils/pdfGenerator.ts:154-174 | groups hold 1..15 pilots, all but the last exactly 15, positions from 1, and together they are the category's list in order |
| Reports.GroupLabels | utils/pdfGenerator.ts:156-158 | the groups are labelled A, B, then C |
| Reports.TrackGroups | utils/pdfGenerator.ts:154-180 | the `while` loop over slices of 15 builds exactly the groups of the category |
| Reports.EmptyCategoryHasNoGroups | utils/pdfGenerator.ts:152 | a category without pilots prints no group |
| Reports.TrackGroupReport | utils/pdfGenerator.ts:141-184 | the groups of every category, in category order; GruposPista and TrackGroups prove the loops equal to it |
| Reports.GruposPista | utils/pdfGenerator.ts:141-184 | the loop over the categories builds the per-category groups, in category order |
| Reports.Half | utils/pdfGenerator.ts:193-315 | the larger half of n |
| Reports.TwoColumns | utils/pdfGenerator.ts:193-195 | left column the first ceil(n/2), right column the rest when there is any; TwoColumnsSplit states it |
| Reports.TwoColumnsSplit | utils/pdfGenerator.ts:193-336 | the left column holds ceil(n/2) rows, the right one is absent exactly when n is at most 1, and positions run 1..n without a gap |
| Reports.RegisteredPilots | utils/pdfGenerator.ts:187-227 | the pilots sorted by kart number, in two columns; RegisteredPilotsOrdered states it |
| Reports.RegisteredPilotsOrdered | utils/pdfGenerator.ts:187-227 | the registered list holds every pilot once per occurrence, by kart number, numbered 1..n |
| Reports.ResultLines | utils/pdfGenerator.ts:319-324 | one result line per row, in order |
| Reports.OfficialResults | utils/pdfGenerator.ts:311-349 | the pilots in the given order, in two columns of result lines; OfficialResultsInOrder states it |
| Reports.OfficialResultsInOrder | utils/pdfGenerator.ts:311-349 | official results keep the given order: line i is position i+1 of the i-th pilot |
| Standings.ByPointsOrdered | pages/Campeonatos.tsx:29 | the ordering holds every pilot as often as the input, with points never increasing |
| Standings.ByPoints | pages/Campeonatos.tsx:29 | the roster sorted by points, most first; ByPointsOrdered and ByPointsMembers state it |
| Standings.ByPointsMembers | pages/Resultados.tsx:27-29 | the ordering has the same members as the input |
| Campeonatos.StandingsAreConfirmedByPoints | pages/Campeonatos.tsx:27-29 | standings hold exactly the confirmed pilots of the category, as a permutation, by points |
| Campeonatos.StandingsOf | pages/Campeonatos.tsx:27-29 | the confirmed pilots of the category by points; StandingsAreConfirmedByPoints states it |
| Campeonatos.CanDownload | pages/Campeonatos.tsx:31-37 | download is allowed exactly when the standings are not empty |
| Campeonatos.NoConfirmedNoDownload | pages/Campeonatos.tsx:32-35 | a category without confirmed pilots cannot be downloaded |
| Campeonatos.RankLabel | pages/Campeonatos.tsx:165 | as written, "0" followed by the position |
| Campeonatos.TenthRankHasThreeDigits | pages/Campeonatos.tsx:165 | as written, the tenth row reads "010" |
| Campeonatos.PaddedRankLabel | pages/Campeonatos.tsx:165 | corrected: at least two digits, the numeral of the position, no extra zero from 10 on |
| Resultados.RankingIsCategoryByPoints | pages/Resultados.tsx:27-29 | the ranking holds every pilot of the category, whatever the status, by points |
| Resultados.RankingOf | pages/Resultados.tsx:27-29 | the category's pilots by points, whatever their status; RankingIsCategoryByPoints states it |
| Resultados.FilteredPenalties | pages/Resultados.tsx:31 | the penalty board's filter; PenaltyFilter states it |
| Resultados.PenaltyFilter | pages/Resultados.tsx:31 | 'Todas' shows every penalty; otherwise exactly those of the category, in order |
| Resultados.InsightInput | pages/Resultados.tsx:34-37 | none for an empty ranking; otherwise the first min(5, n) rows of the ranking |
| Resultados.InsightSeesLeaders | pages/Resultados.tsx:34-37 | no pilot left out of the insight has more points than one sent to it |
| Resultados.StyleOfLabel | pages/Resultados.tsx:51-61 | any text that is not one of the six labels gets the default style |
| Resultados.StyleOf | pages/Resultados.tsx:51-61 | the style of each of the six kinds; StylesDistinct states that they differ from each other and from the default |
| Resultados.StylesDistinct | pages/Resultados.tsx:51-61 | each kind's label gets that kind's style, no kind gets the default, and different kinds get different borders |
| Pilotos.CategoryOptions | pages/Pilotos.tsx:48 | 'Todas' followed by the eight categories |
| Pilotos.Listed | pages/Pilotos.tsx:51-53 | the page's filter predicate; ListedIff states it in both directions |
| Pilotos.FilteredPilots | pages/Pilotos.tsx:50-54 | the roster filtered by Listed; FilteredIsOrderedSelection and EmptySearchListsActive state it |
| Pilotos.FilteredIsOrderedSelection | pages/Pilotos.tsx:50-54 | an order-preserving selection of the roster with no pilot of status Baja |
| Pilotos.ListedIff | pages/Pilotos.tsx:51-53 | listed exactly when not Baja, in the category unless 'Todas', and the name contains the search case-insensitively or the number contains it |
| Pilotos.EmptySearchListsActive | pages/Pilotos.tsx:51-53 | with an empty search every non-Baja pilot of the category is listed |
| Cronomax.LoadsConfirmed | pages/Cronomax.tsx:16 | exactly the confirmed pilots are loaded, in roster order |
| Cronomax.LoadedPilots | pages/Cronomax.tsx:16 | the confirmed pilots; LoadsConfirmed states it |
| Cronomax.Motors | pages/Cronomax.tsx:29 | the engines 101..100+n, in order |
| Cronomax.Without | pages/Cronomax.tsx:29 | one engine taken out, the rest kept |
| Cronomax.Shuffle | pages/Cronomax.tsx:29 | whatever the draws, the engines are rearranged with the same members, and distinct engines stay distinct |
| Cronomax.LotteryIsPermutation | pages/Cronomax.tsx:24-34 | at most ten lines, in loading order, handing out 101..100+n once each |
| Cronomax.Lottery | pages/Cronomax.tsx:24-34 | the first ten loaded pilots, each paired with a shuffled engine; LotteryIsPermutation states it |
| Cronomax.ChangeFlag | pages/Cronomax.tsx:19-22 | the page shows the new flag and a later read returns it |
| Mercado.DemoItems | pages/Mercado.tsx:22-29 | the two demo listings |
| Mercado.Load | pages/Mercado.tsx:19-33 | an empty store is seeded with the two demo listings and saved; a non-empty one is shown unchanged |
| Mercado.NewItem | pages/Mercado.tsx:37-41 | the listing is the form's fields with the fixed image and the new id |
| Mercado.Submit | pages/Mercado.tsx:35-49 | exactly one listing in front of the unchanged list, saved |
| Mercado.FirstListing | pages/Mercado.tsx:35-49 | on a fresh store the first listing is stored in front of the two demo listings |
| Mercado.FilterShowsCategory | pages/Mercado.tsx:51 | 'Todos' shows every listing; otherwise exactly those of the category, in order |
| Mercado.FilteredItems | pages/Mercado.tsx:51 | the listing filter; FilterShowsCategory states it |
| Mercado.ContactLink | pages/Mercado.tsx:96 | the wa.me link followed by the contact with every blank removed, every other character kept as often as it appears and in order |
| Reglamentos.FilterOptions | pages/Reglamentos.tsx:43 | six options, 'Todos' first |
| Reglamentos.FilterOptionsComplete | pages/Reglamentos.tsx:43 | every filter value is offered exactly once, under the five category labels |
| Reglamentos.FilterShowsCategory | pages/Reglamentos.tsx:44 | 'Todos' shows every regulation; otherwise exactly those of the category, in order |
| Reglamentos.FilteredRegs | pages/Reglamentos.tsx:44 | the regulation filter; FilterShowsCategory states it |
| Reglamentos.DownloadName | pages/Reglamentos.tsx:37 | the title with each blank run turned into `_`, then `_v`, the version and `.pdf`; the name always ends in `.pdf` |
| Reglamentos.DownloadNameExample | pages/Reglamentos.tsx:37 | "Reglamento Técnico 2024" at version 2 downloads as `Reglamento_Técnico_2024_v2.pdf` |
| Reglamentos.ThreeWords | pages/Reglamentos.tsx:37 | three blank-free words joined by single blanks come out joined by `_` |
| Reglamentos.DownloadOf | pages/Reglamentos.tsx:33-41 | no download without file data; otherwise the stored file under the computed name |
| Reglamentos.DownloadNameShape | pages/Reglamentos.tsx:37 | a version without blanks gives a name without blanks; a title without blanks is kept as is |
| Reglamentos.AiSearch | pages/Reglamentos.tsx:19-31 | a query that trims to nothing asks nothing; any other query shows the wrapper's reply |
| Reglamentos.OfflineSearch | pages/Reglamentos.tsx:19-31 | offline, a real query gets the offline notice |
| Ingenieria.Ballast | pages/Ingenieria.tsx:11 | weight, fuel and ballast add up to the target |
| Ingenieria.FuelTotal | pages/Ingenieria.tsx:12 | non-negative for a non-negative number of laps |
| Ingenieria.BallastResponds | pages/Ingenieria.tsx:11 | one unit more weight or fuel is one unit less ballast, and an overweight kart gets negative ballast |
| Ingenieria.FuelIsLinear | pages/Ingenieria.tsx:12 | zero for no laps, and additive over stints |
| Ingenieria.DefaultReadings | pages/Ingenieria.tsx:6-12 | the defaults give 5 of ballast and 6.75 litres |
| Text.TrimSplits | pages/Inscripciones.tsx:161 | JavaScript `trim`: every text is its trimmed core between a blank prefix and a blank suffix |
| Text.Trim | pages/Inscripciones.tsx:161 | `trim()`: never longer than the input, and no blank at either end of the result; TrimSplits gives the whole split |
| Text.TrimEmptyIff | pages/Inscripciones.tsx:161 | a text trims to empty exactly when it is all blanks |
| Text.TrimIdempotent | pages/Inscripciones.tsx:161 | trimming twice is trimming once |
| Text.ToUpper | pages/Inscripciones.tsx:85 | `toUpperCase()`: never shorter, empty exactly when the input is |
| Text.ToUpperIdempotent | pages/Inscripciones.tsx:85 | upper-casing twice is upper-casing once |
| Text.TrimUpperCommute | pages/Inscripciones.tsx:241 | `toUpperCase().trim()` equals `trim().toUpperCase()` |
| Text.ToLower | pages/Pilotos.tsx:51 | `toLowerCase()`: the same length, each character lower-cased |
| Text.ToLowerIdempotent | pages/Pilotos.tsx:51 | lower-casing twice is lower-casing once |
| Text.Contains | pages/Pilotos.tsx:51 | `includes`: some position of the text starts with the needle; ContainsEmpty and ContainsSelf state its edge cases |
| Text.ContainsEmpty | pages/Pilotos.tsx:51 | every text includes the empty search |
| Text.ContainsSelf | pages/Pilotos.tsx:51 | every text includes itself |
| Text.IntOr99 | pages/AdminNewPilot.tsx:127 | `parseInt(x) \|\| 99`: never 0, 99 when the text does not parse, the parsed value otherwise |
| Text.ParseInt | pages/AdminNewPilot.tsx:127 | `parseInt` without radix; ParseIntOfNatToString and ParseIntNoDigits state it |
| Text.ParseIntOfNatToString | pages/AdminNewPilot.tsx:127 | a decimal numeral parses back to its value |
| Text.ParseIntNoDigits | pages/AdminNewPilot.tsx:127 | a text with no decimal or hexadecimal digit is NaN |
| Text.NumberIsNumeric | pages/Inscripciones.tsx:177 | `!isNaN(Number(s))`; NumeralIsNumeric states that every numeral passes |
| Text.NumeralIsNumeric | pages/Inscripciones.tsx:177 | every decimal numeral is a number |
| Text.ReplaceWhitespaceRuns | pages/Reglamentos.tsx:37 | `replace(/\s+/g, sub)`: a replacement without blanks leaves no blank, and a text without blanks is unchanged |
| Text.RemoveWhitespace | pages/Mercado.tsx:96 | `replace(/\s+/g, '')`: the text with every blank removed, every other character kept as often as it appears, in order |
| Text.ReplaceRunSplits | pages/Reglamentos.tsx:37 | a maximal blank run between two texts becomes exactly one `sub`, and each side is replaced on its own |
| Text.KeepDigits | pages/AdminNewPilot.tsx:237 | `replace(/\D/g, '')`: exactly the digits of the text, each as often as it appears, in order; a text of digits is kept |

## Left out

- Rendering, modals, styling and the component state setters. Only the data effect of each handler is modelled.
- LiveCenter, the chat bot, the news and advice fetches, the navigation bar's polling, the service worker, routing and the static pages. These are network I/O, timers or display only.
- The text-generation API, its prompts and `navigator.onLine`. Connectivity is the function `online(k)`, and each attempt's result or error is `outcome(k)`.
- JSON parsing of a model reply is the parameter `parse`. JSON serialisation of the store is not modelled: the store holds typed values, and a read after a save returns them.
- Storage quota errors.
- Random ids, `Date.now()`, `new Date()` dates and the answers of `confirm()` are parameters. `alert()` is not modelled.
- Camera access and image capture. Only the merge of the scanned fields into the form is modelled.
- PDF drawing: coordinates, page breaks, fonts, headers, the credential card, `doc.save`, and the random mock laps and best-lap texts. Only the table bodies are modelled.
- The dashboard's mount effect: the redirect to login, `refreshData` and the preselection of the first championship and event. `analyzeAudit` only shows a wrapper's text. Neither is modelled.
- AdminDashboard.DownloadBriefing: the attendance PDF's drawing is not modelled. The sheet's pilot list and its EVENTO entry are.
- Cronomax.Shuffle: the random-comparator sort `sort(() => Math.random() - 0.5)` is modelled as picking the engines out one by one under a sequence of draws. This is always a permutation, but it does not model the exact distribution a random comparator gives.
- Reports.NumberKey: a kart number that does not parse (NaN in JavaScript) sorts as 0, because JavaScript's comparator on NaN is inconsistent and its order cannot be specified.
- Seqs.SortByKey: stability (equal keys keep their input order) is built into the insertion sort but is not proved as a contract.
- Reports.CreatedAt: `createdAt || 0` is the identity, because `createdAt` is a required number in the record type.
- Ingenieria.Ballast: points, weights, fuel and ballast are real numbers. Floating-point rounding and `toFixed` formatting are not modelled.
- AdminDashboard.NewRegulation: the size label, a `toFixed` of the file length, is a parameter.
- AdminDashboard.ClassifiedRows: the gap is the real difference in points. Its one-decimal `toFixed` text is not modelled.
- Text.ToUpper: case mapping covers ASCII and Latin-1 letters only. The blank set of `trim` and `\s` is JavaScript's full one (Text.IsWhitespace).
- AiRetry.Retry: `response.text` is modelled as always a string. The delays are the waits recorded in the run, not real time.
- AiRetry.Retry: `retryOperation` is called with `retries = 3`: four attempts, with pauses of 1, 2 and 4 s.
- Password hashing: credentials are compared in plain text, as in the source.

## Findings

| source | as written | input that shows it | evidently intended | confidence | as-written member | corrected member |
|---|---|---|---|---|---|---|
| pages/Inscripciones.tsx:189-236 | the licence check looks at the form's own name, but the re-registration then overwrites the licences of whichever record has the (number, category) pair | seed roster; JUAN ACOSTA's form with licence 1001 and kart number 2 in KDO Power passes and writes 1001 onto PEDRO RAMIREZ's record | a (number, category) record of another pilot is not overwritten | medium, not executed | Inscripciones.ReRegistrationOverwritesAnotherPilot | Inscripciones.CorrectedSubmitKeepsLicenceRule |
| pages/Inscripciones.tsx:186-246 | the licence is checked trimmed but stored as typed | empty roster; JUAN ACOSTA registers with "1001 ", then MARIO ROSSI with "1001 " finds no holder of "1001" and is appended | the trimmed licence is stored | medium, not executed | Inscripciones.PaddedLicenceEscapesCheck | Inscripciones.CorrectedRegistered |
| pages/Inscripciones.tsx:168-242 | the kart number is validated and stored trimmed, but the re-registration lookup compares it as typed | seed roster; JUAN ACOSTA's own form with kart number " 1" (the licence scan fills the number as read, tsx:145) finds no record " 1" and appends a second KDO Power record numbered "1" | the record is looked up by the trimmed number | medium, not executed | Inscripciones.PaddedNumberDuplicatesKart | Inscripciones.CorrectedResubmissionAddsNothing |
| pages/Campeonatos.tsx:165 | the rank cell prints "0" followed by the position | the tenth pilot of a category | a two-digit position, zero-padded below 10 only | high, not executed | Campeonatos.TenthRankHasThreeDigits | Campeonatos.PaddedRankLabel |
