/** The back-office pilot form: validation against the stored roster, then either an edit of
    the record being edited or a new record at the front of the roster, and an audit entry.
    Kart numbers must be unique inside a category and medical licences unique in the whole
    roster, both compared exactly, and the record being edited never conflicts with itself. */
module AdminNewPilot {
  import opened Wrappers
  import opened Types
  import opened Text
  import Seqs
  import opened Storage

  /** The form's fields, as typed (the ranking is the text of the ranking box). */
  datatype Form = Form(
    name: string,
    number: string,
    category: string,
    medicalLicense: string,
    sportsLicense: string,
    transponderId: string,
    ranking: string,
    status: Status)

  /** The error dictionary `validate` fills: one optional message per field. */
  datatype Errors = Errors(
    name: Option<string>,
    number: Option<string>,
    medicalLicense: Option<string>,
    sportsLicense: Option<string>,
    transponderId: Option<string>,
    category: Option<string>)
  {
    /** `Object.keys(newErrors).length === 0`. */
    predicate IsEmpty() {
      name.None? && number.None? && medicalLicense.None? && sportsLicense.None?
      && transponderId.None? && category.None?
    }
  }

  const NoErrors := Errors(None, None, None, None, None, None)

  /** `p.id !== editId`: a record other than the one being edited (none is, on create). */
  predicate IsOther(p: Pilot, editId: Option<string>) {
    editId.None? || p.id != editId.value
  }

  /** The kart-number box keeps the digits of what is typed: `value.replace(/\D/g, '')`. */
  function NumberInput(typed: string): (r: string)
    ensures forall i :: 0 <= i < |r| ==> IsDigit(r[i])
    ensures Seqs.IsSubsequence(r, typed)
    ensures forall c :: multiset(r)[c] == if IsDigit(c) then multiset(typed)[c] else 0
    ensures (forall i :: 0 <= i < |typed| ==> IsDigit(typed[i])) ==> r == typed
  {
    KeepDigits(typed)
  }

  /** `pilots.some(p => p.number === number && p.category === category && p.id !== editId)`. */
  function NumberTaken(ps: seq<Pilot>, number: string, category: string, editId: Option<string>): (r: bool)
    ensures r <==> exists i :: 0 <= i < |ps| && ps[i].number == number && ps[i].category == category
                                && IsOther(ps[i], editId)
  {
    if ps == [] then false
    else if ps[0].number == number && ps[0].category == category && IsOther(ps[0], editId) then true
    else
      var rest := NumberTaken(ps[1..], number, category, editId);
      assert forall i :: 0 < i < |ps| ==> ps[i] == ps[1..][i - 1];
      rest
  }

  /** `pilots.some(p => p.medicalLicense === licence && p.id !== editId)`: an exact,
      case-sensitive comparison over the whole roster, whatever the name. */
  function LicenceTaken(ps: seq<Pilot>, licence: string, editId: Option<string>): (r: bool)
    ensures r <==> exists i :: 0 <= i < |ps| && ps[i].medicalLicense == licence && IsOther(ps[i], editId)
  {
    if ps == [] then false
    else if ps[0].medicalLicense == licence && IsOther(ps[0], editId) then true
    else
      var rest := LicenceTaken(ps[1..], licence, editId);
      assert forall i :: 0 < i < |ps| ==> ps[i] == ps[1..][i - 1];
      rest
  }

  /** While editing record `id`, a conflict is a conflict with one of the other records:
      the record being edited never conflicts with its own number or licence. */
  lemma EditIgnoresOwnRecord(ps: seq<Pilot>, number: string, category: string,
                             licence: string, id: string)
    ensures NumberTaken(ps, number, category, Some(id))
            <==> NumberTaken(Seqs.RemoveWhere(ps, PilotId, id), number, category, None)
    ensures LicenceTaken(ps, licence, Some(id))
            <==> LicenceTaken(Seqs.RemoveWhere(ps, PilotId, id), licence, None)
  {
    var others := Seqs.RemoveWhere(ps, PilotId, id);
    NumberTakenByOther(ps, others, number, category, id);
    LicenceTakenByOther(ps, others, licence, id);
  }

  lemma NumberTakenByOther(ps: seq<Pilot>, others: seq<Pilot>, number: string, category: string,
                           id: string)
    requires forall y :: y in others <==> y in ps && y.id != id
    ensures NumberTaken(ps, number, category, Some(id)) <==> NumberTaken(others, number, category, None)
  {
    if NumberTaken(ps, number, category, Some(id)) {
      var i :| 0 <= i < |ps| && ps[i].number == number && ps[i].category == category && ps[i].id != id;
      assert ps[i] in others;
    }
    if NumberTaken(others, number, category, None) {
      var i :| 0 <= i < |others| && others[i].number == number && others[i].category == category;
      assert others[i] in ps;
    }
  }

  lemma LicenceTakenByOther(ps: seq<Pilot>, others: seq<Pilot>, licence: string, id: string)
    requires forall y :: y in others <==> y in ps && y.id != id
    ensures LicenceTaken(ps, licence, Some(id)) <==> LicenceTaken(others, licence, None)
  {
    if LicenceTaken(ps, licence, Some(id)) {
      var i :| 0 <= i < |ps| && ps[i].medicalLicense == licence && ps[i].id != id;
      assert ps[i] in others;
    }
    if LicenceTaken(others, licence, None) {
      var i :| 0 <= i < |others| && others[i].medicalLicense == licence;
      assert others[i] in ps;
    }
  }

  /** What `validate` demands: the six fields present and neither conflict found. The number
      presence test is on the number as typed; the conflict test on the trimmed number. */
  predicate IsValid(ps: seq<Pilot>, f: Form, editId: Option<string>) {
    Trim(f.name) != []
    && f.number != [] && !NumberTaken(ps, Trim(f.number), f.category, editId)
    && Trim(f.medicalLicense) != [] && !LicenceTaken(ps, Trim(f.medicalLicense), editId)
    && Trim(f.sportsLicense) != []
    && Trim(f.transponderId) != []
    && f.category != []
  }

  /** `if (!name.trim()) newErrors.name = …`. */
  function NameError(f: Form): (r: Option<string>)
    ensures r.Some? <==> Trim(f.name) == []
    ensures r.Some? ==> r.value == "El nombre es obligatorio"
  {
    if Trim(f.name) == [] then Some("El nombre es obligatorio") else None
  }

  /** A missing number, or one another record of the same category already carries. */
  function NumberError(ps: seq<Pilot>, f: Form, editId: Option<string>): (r: Option<string>)
    ensures r.Some? <==> f.number == [] || NumberTaken(ps, Trim(f.number), f.category, editId)
    ensures r.Some? ==> (r.value ==
              if f.number == [] then "El dorsal es obligatorio"
              else "El número " + f.number + " ya existe en " + f.category)
  {
    if f.number == [] then Some("El dorsal es obligatorio")
    else if NumberTaken(ps, Trim(f.number), f.category, editId) then
      Some("El número " + f.number + " ya existe en " + f.category)
    else None
  }

  /** A missing medical licence, or one another record already holds. */
  function LicenceError(ps: seq<Pilot>, f: Form, editId: Option<string>): (r: Option<string>)
    ensures r.Some? <==>
              Trim(f.medicalLicense) == [] || LicenceTaken(ps, Trim(f.medicalLicense), editId)
    ensures r.Some? ==> (r.value ==
              if Trim(f.medicalLicense) == [] then "Licencia médica requerida"
              else "Esta licencia ya pertenece a otro piloto")
  {
    if Trim(f.medicalLicense) == [] then Some("Licencia médica requerida")
    else if LicenceTaken(ps, Trim(f.medicalLicense), editId) then
      Some("Esta licencia ya pertenece a otro piloto")
    else None
  }

  /** The three presence checks that need no roster. */
  function RequiredError(value: string, message: string): (r: Option<string>)
    ensures r.Some? <==> Trim(value) == []
    ensures r.Some? ==> r.value == message
  {
    if Trim(value) == [] then Some(message) else None
  }

  /** `validate()`: fills the error dictionary field by field; the form passes exactly
      when the dictionary stays empty, that is when all six fields are present and neither
      the kart number nor the medical licence conflicts with another record. */
  method Validate(ps: seq<Pilot>, f: Form, editId: Option<string>) returns (errors: Errors)
    ensures errors == Errors(NameError(f), NumberError(ps, f, editId), LicenceError(ps, f, editId),
                             RequiredError(f.sportsLicense, "Licencia deportiva requerida"),
                             RequiredError(f.transponderId, "Transponder requerido"),
                             if f.category == [] then Some("Seleccione una categoría") else None)
    ensures errors.IsEmpty() <==> IsValid(ps, f, editId)
  {
    errors := NoErrors;
    errors := errors.(name := NameError(f));
    errors := errors.(number := NumberError(ps, f, editId));
    errors := errors.(medicalLicense := LicenceError(ps, f, editId));
    errors := errors.(sportsLicense := RequiredError(f.sportsLicense, "Licencia deportiva requerida"));
    errors := errors.(transponderId := RequiredError(f.transponderId, "Transponder requerido"));
    if f.category == [] {
      errors := errors.(category := Some("Seleccione una categoría"));
    }
  }

  /** The record an edit writes over `p`: normalised name, number, licences and transponder,
      the parsed ranking, the chosen status and today's date; the rest of `p` is kept. */
  function EditedRecord(p: Pilot, f: Form, today: string): (r: Pilot)
    ensures r.id == p.id && r.createdAt == p.createdAt && r.stats == p.stats
    ensures r.conductPoints == p.conductPoints
    ensures r.number == Trim(f.number) && r.category == f.category
    ensures r.medicalLicense == Trim(f.medicalLicense)
    ensures r.ranking == IntOr99(f.ranking) && r.ranking != 0
    ensures r.name == Trim(ToUpper(f.name)) && r.sportsLicense == Trim(f.sportsLicense)
    ensures r.transponderId == ToUpper(Trim(f.transponderId))
    ensures r.status == f.status && r.lastUpdated == today
    ensures r.bloodType == p.bloodType && r.emergencyContact == p.emergencyContact
    ensures r.association == p.association
  {
    p.(name := Trim(ToUpper(f.name)),
       number := Trim(f.number),
       category := f.category,
       medicalLicense := Trim(f.medicalLicense),
       sportsLicense := Trim(f.sportsLicense),
       transponderId := ToUpper(Trim(f.transponderId)),
       ranking := IntOr99(f.ranking),
       status := f.status,
       lastUpdated := today)
  }

  /** `pilots.map(p => p.id === editId ? {...p, ...} : p)`: every record with the edited id
      is rewritten in place; the roster keeps its length and every other record. */
  function Edited(ps: seq<Pilot>, editId: string, f: Form, today: string): (r: seq<Pilot>)
    ensures |r| == |ps|
    ensures forall i :: 0 <= i < |ps| && ps[i].id == editId ==> r[i] == EditedRecord(ps[i], f, today)
    ensures forall i :: 0 <= i < |ps| && ps[i].id != editId ==> r[i] == ps[i]
    ensures forall i :: 0 <= i < |ps| ==> r[i].id == ps[i].id
  {
    seq(|ps|, i requires 0 <= i < |ps| =>
      if ps[i].id == editId then EditedRecord(ps[i], f, today) else ps[i])
  }

  /** The record a create puts at the front: conduct points 10, zeroed statistics without
      points, and the id and clock reading supplied by the caller. */
  function NewRecord(f: Form, id: string, today: string, now: int): (r: Pilot)
    ensures r.id == id && r.conductPoints == 10 && r.stats == Stats(0, 0, 0, None)
    ensures r.number == Trim(f.number) && r.category == f.category
    ensures r.medicalLicense == Trim(f.medicalLicense)
    ensures r.ranking == IntOr99(f.ranking) && r.status == f.status && r.createdAt == now
    ensures r.name == Trim(ToUpper(f.name)) && r.sportsLicense == Trim(f.sportsLicense)
    ensures r.transponderId == ToUpper(Trim(f.transponderId)) && r.lastUpdated == today
    ensures r.bloodType.None? && r.emergencyContact.None? && r.association.None?
  {
    Pilot(id, Trim(f.number), Trim(ToUpper(f.name)), f.category, f.status, IntOr99(f.ranking),
          Trim(f.medicalLicense), Trim(f.sportsLicense), ToUpper(Trim(f.transponderId)), 10,
          today, now, Stats(0, 0, 0, None), None, None, None)
  }

  /** `[newPilot, ...currentPilots]`. */
  function Created(ps: seq<Pilot>, f: Form, id: string, today: string, now: int): (r: seq<Pilot>)
    ensures |r| == |ps| + 1
    ensures r[0] == NewRecord(f, id, today, now) && r[1..] == ps
  {
    [NewRecord(f, id, today, now)] + ps
  }

  /** A validated create keeps every roster rule: the new record's trimmed number is free in
      its category, its trimmed licence is free everywhere, and its id is fresh. */
  lemma CreateKeepsRosterRules(ps: seq<Pilot>, f: Form, id: string, today: string, now: int)
    requires IdsDistinct(ps) && NumbersUniquePerCategory(ps) && LicencesDistinct(ps)
    requires IsValid(ps, f, None)
    requires forall i :: 0 <= i < |ps| ==> ps[i].id != id
    ensures IdsDistinct(Created(ps, f, id, today, now))
    ensures NumbersUniquePerCategory(Created(ps, f, id, today, now))
    ensures LicencesDistinct(Created(ps, f, id, today, now))
  {
    var r := Created(ps, f, id, today, now);
    PrependKeepsRosterRules(ps, r[0]);
  }

  lemma PrependKeepsRosterRules(ps: seq<Pilot>, p: Pilot)
    requires IdsDistinct(ps) && NumbersUniquePerCategory(ps) && LicencesDistinct(ps)
    requires forall i :: 0 <= i < |ps| ==> ps[i].id != p.id
    requires !NumberTaken(ps, p.number, p.category, None)
    requires !LicenceTaken(ps, p.medicalLicense, None)
    ensures IdsDistinct([p] + ps)
    ensures NumbersUniquePerCategory([p] + ps)
    ensures LicencesDistinct([p] + ps)
  {
    var r := [p] + ps;
    forall i, j | 0 <= i < j < |r| ensures r[i].id != r[j].id {
      PrependedAt(ps, p, i, j);
    }
    forall i, j | 0 <= i < j < |r| && r[i].number == r[j].number
      ensures r[i].category != r[j].category
    {
      PrependedAt(ps, p, i, j);
    }
    forall i, j | 0 <= i < j < |r| ensures r[i].medicalLicense != r[j].medicalLicense {
      PrependedAt(ps, p, i, j);
    }
  }

  lemma PrependedAt(ps: seq<Pilot>, p: Pilot, i: nat, j: nat)
    requires i < j <= |ps|
    ensures ([p] + ps)[j] == ps[j - 1]
    ensures ([p] + ps)[i] == if i == 0 then p else ps[i - 1]
  {
  }

  /** A validated edit of a roster with distinct ids keeps every roster rule: the one
      rewritten record takes a number and a licence no other record holds. */
  lemma EditKeepsRosterRules(ps: seq<Pilot>, editId: string, f: Form, today: string)
    requires IdsDistinct(ps) && NumbersUniquePerCategory(ps) && LicencesDistinct(ps)
    requires IsValid(ps, f, Some(editId))
    ensures IdsDistinct(Edited(ps, editId, f, today))
    ensures NumbersUniquePerCategory(Edited(ps, editId, f, today))
    ensures LicencesDistinct(Edited(ps, editId, f, today))
  {
    var r := Edited(ps, editId, f, today);
    forall i, j | 0 <= i < j < |r| && r[i].number == r[j].number
      ensures r[i].category != r[j].category
    {
      if ps[i].id == editId {
        assert ps[j].id != editId;
      } else if ps[j].id == editId {
        assert ps[i].id != editId;
      }
    }
    forall i, j | 0 <= i < j < |r| ensures r[i].medicalLicense != r[j].medicalLicense {
      if ps[i].id == editId {
        assert ps[j].id != editId;
      } else if ps[j].id == editId {
        assert ps[i].id != editId;
      }
    }
  }

  /** `handleSubmit`: validate against the stored roster; when valid, save the edited or
      extended roster and log it under ADMIN. The new id, today's date, the clock reading and
      the log entry's id are parameters. */
  method Submit(store: LocalStore, f: Form, editId: Option<string>, newId: string, today: string,
                now: int, logId: string) returns (accepted: bool)
    modifies store
    ensures accepted <==> IsValid(old(store.Pilots()), f, editId)
    ensures !accepted ==> store.State() == old(store.State())
    ensures accepted && editId.Some? ==> store.State() == old(store.State()).(
              pilots := Some(Edited(old(store.Pilots()), editId.value, f, today)),
              logs := Some(LogAfter(old(store.AuditLogs()), AuditLog(logId, now,
                        LogAdmin(old(store.auth)), "ADMIN", "Piloto editado: " + f.name, None))))
    ensures accepted && editId.None? ==> store.State() == old(store.State()).(
              pilots := Some(Created(old(store.Pilots()), f, newId, today, now)),
              logs := Some(LogAfter(old(store.AuditLogs()), AuditLog(logId, now,
                        LogAdmin(old(store.auth)), "ADMIN",
                        "Nuevo piloto registrado: " + Trim(ToUpper(f.name)), None))))
  {
    var current := store.Pilots();
    var errors := Validate(current, f, editId);
    accepted := errors.IsEmpty();
    if !accepted {
      return;
    }
    if editId.Some? {
      store.SavePilots(Edited(current, editId.value, f, today));
      store.AddLog("ADMIN", "Piloto editado: " + f.name, logId, now);
    } else {
      var p := NewRecord(f, newId, today, now);
      store.SavePilots([p] + current);
      store.AddLog("ADMIN", "Nuevo piloto registrado: " + p.name, logId, now);
    }
  }

  /** The form as the page first shows it: empty fields, ranking 99, confirmed. */
  const BlankForm: Form := Form("", "", "", "", "", "", "99", Confirmado)

  /** A stored record copied into the form, its ranking as text. */
  function FormOf(p: Pilot): (f: Form)
    ensures f.name == p.name && f.number == p.number && f.category == p.category
    ensures f.medicalLicense == p.medicalLicense && f.sportsLicense == p.sportsLicense
    ensures f.transponderId == p.transponderId && f.status == p.status
    ensures p.ranking >= 0 ==> AllDigits(f.ranking)
  {
    Form(p.name, p.number, p.category, p.medicalLicense, p.sportsLicense, p.transponderId,
         IntToString(p.ranking), p.status)
  }

  /** Where opening the page leads: back to the login without a session, or to the form, with
      the id being edited (if any). */
  datatype Opening = ToLogin | Open(editId: Option<string>, form: Form)

  /** The mount effect. An `edit` parameter naming a stored record opens that record for
      editing; one naming no record leaves the blank form in create mode; with no (or an
      empty) parameter the category starts at the first known category. */
  function OpenPage(auth: Option<AdminUser>, ps: seq<Pilot>, cats: seq<string>,
                    editParam: Option<string>): (r: Opening)
    ensures auth.None? <==> r == ToLogin
    ensures r.Open? && r.editId.Some? ==>
              editParam == r.editId && exists i :: 0 <= i < |ps| && ps[i].id == r.editId.value
                                                   && r.form == FormOf(ps[i])
    ensures (auth.Some? && editParam.Some? && editParam.value != ""
             && exists i :: 0 <= i < |ps| && ps[i].id == editParam.value)
            ==> r.Open? && r.editId.Some?
    ensures r.Open? && r.editId.None? ==>
              r.form == (if (editParam.None? || editParam.value == "") && |cats| > 0
                         then BlankForm.(category := cats[0]) else BlankForm)
  {
    if auth.None? then ToLogin
    else if editParam.Some? && editParam.value != "" then
      match Seqs.IndexWhere(ps, PilotId, editParam.value)
      case Some(i) => Open(editParam, FormOf(ps[i]))
      case None => Open(None, BlankForm)
    else if |cats| > 0 then Open(None, BlankForm.(category := cats[0]))
    else Open(None, BlankForm)
  }
}
