/** The back office: each handler reads one collection of the store, computes its new value
    and writes it back, followed by one audit entry. Fresh ids, dates, clock readings, the
    answers of the confirmation dialogs and the parsed ranking are parameters. */
module AdminDashboard {
  import opened Wrappers
  import opened Types
  import opened Text
  import Seqs
  import opened Storage
  import Inscripciones
  import Standings

  // ---------------------------------------------------------------- reports

  predicate IsActive(p: Pilot) {
    p.status == Confirmado || p.status == Pendiente
  }

  /** `getActivePilotsForReports`: the confirmed and pending pilots, in roster order. */
  function ActivePilotsForReports(ps: seq<Pilot>): (r: seq<Pilot>)
    ensures forall i :: 0 <= i < |r| ==> r[i].status != Baja
    ensures forall p :: p in r <==> p in ps && p.status != Baja
    ensures Seqs.IsSubsequence(r, ps)
  {
    Seqs.Filter(ps, IsActive)
  }

  // ---------------------------------------------------------------- events

  /** The event form. An empty text, a zero round or an absent list is a blank field. */
  datatype EventForm = EventForm(
    id: string,
    round: int,
    name: string,
    date: string,
    track: string,
    status: EventStatus,
    briefingSigned: Option<seq<string>>,
    technicalScrutiny: Option<map<string, bool>>)

  function ChampionshipId(c: Championship): string {
    c.id
  }

  function EventId(e: ChampionshipEvent): string {
    e.id
  }

  /** `champ.events || []`. */
  function EventsOf(c: Championship): seq<ChampionshipEvent> {
    c.events.GetOr([])
  }

  /** The event `saveEvent` builds: the form's fields, with the fresh id, the next round
      number and today's date filling the blanks. */
  function NewEvent(form: EventForm, events: seq<ChampionshipEvent>, freshId: string,
                    today: string): ChampionshipEvent
  {
    ChampionshipEvent(Or(form.id, freshId),
                      if form.round != 0 then form.round else |events| + 1,
                      form.name, Or(form.date, today), form.track, form.status,
                      Some(form.briefingSigned.GetOr([])),
                      Some(form.technicalScrutiny.GetOr(map[])))
  }

  /** The championship's new calendar: an edit replaces the events carrying the form's id, a
      creation appends the new event. */
  function EventsAfterSave(events: seq<ChampionshipEvent>, form: EventForm, freshId: string,
                           today: string): seq<ChampionshipEvent>
  {
    var e := NewEvent(form, events, freshId, today);
    if form.id != "" then Seqs.ReplaceWhere(events, EventId, form.id, e) else events + [e]
  }

  /** `saveEvent` on the championship list: None when name, track or selection is blank, or
      when no championship has the selected id. */
  function ChampionshipsAfterSaveEvent(cs: seq<Championship>, selected: string,
                                       form: EventForm, freshId: string, today: string)
    : (r: Option<seq<Championship>>)
    ensures r.Some? <==> form.name != "" && form.track != "" && selected != ""
                         && exists j :: 0 <= j < |cs| && cs[j].id == selected
  {
    if form.name == "" || form.track == "" || selected == "" then None
    else match Seqs.IndexWhere(cs, ChampionshipId, selected)
      case None => None
      case Some(k) =>
        Some(cs[k := cs[k].(events := Some(EventsAfterSave(EventsOf(cs[k]), form, freshId, today)))])
  }

  /** A saved event lands in the first championship with the selected id and nowhere else:
      every other championship, and every other field of that one, is as it was. */
  lemma SaveEventTouchesOnlySelected(cs: seq<Championship>, selected: string, form: EventForm,
                                     freshId: string, today: string)
    requires ChampionshipsAfterSaveEvent(cs, selected, form, freshId, today).Some?
    ensures Seqs.IndexWhere(cs, ChampionshipId, selected).Some?
    ensures var r := ChampionshipsAfterSaveEvent(cs, selected, form, freshId, today).value;
            var k := Seqs.IndexWhere(cs, ChampionshipId, selected).value;
            |r| == |cs|
            && (forall j :: 0 <= j < |cs| && j != k ==> r[j] == cs[j])
            && r[k].(events := cs[k].events) == cs[k]
            && EventsOf(r[k]) == EventsAfterSave(EventsOf(cs[k]), form, freshId, today)
  {
  }

  /** Without an id the form creates: the calendar grows by one event at the end, under the
      fresh id, numbered from the form or else one past the last position. With an id it
      edits: the calendar keeps its length and every event with that id becomes the new one. */
  lemma SaveEventCreatesOrEdits(events: seq<ChampionshipEvent>, form: EventForm,
                                freshId: string, today: string)
    ensures var r := EventsAfterSave(events, form, freshId, today);
            form.id == "" ==>
              |r| == |events| + 1 && r[..|events|] == events && r[|events|].id == freshId
              && r[|events|].round == (if form.round != 0 then form.round else |events| + 1)
    ensures var r := EventsAfterSave(events, form, freshId, today);
            form.id != "" ==>
              |r| == |events|
              && (forall i :: 0 <= i < |r| && events[i].id == form.id ==>
                    r[i] == NewEvent(form, events, freshId, today) && r[i].id == form.id)
              && (forall i :: 0 <= i < |r| && events[i].id != form.id ==> r[i] == events[i])
  {
    var r := EventsAfterSave(events, form, freshId, today);
    if form.id == "" {
      assert r[..|events|] == events;
    }
  }

  /** `(champ.events || []).filter(e => e.id !== eventId)`, stored back into the first
      championship with the selected id; None when there is none. */
  function ChampionshipsAfterDeleteEvent(cs: seq<Championship>, selected: string,
                                         eventId: string): (r: Option<seq<Championship>>)
    ensures r.Some? <==> exists j :: 0 <= j < |cs| && cs[j].id == selected
  {
    match Seqs.IndexWhere(cs, ChampionshipId, selected)
      case None => None
      case Some(k) =>
        Some(cs[k := cs[k].(events := Some(Seqs.RemoveWhere(EventsOf(cs[k]), EventId, eventId)))])
  }

  /** Deleting an event removes exactly the events with that id from the selected
      championship: the rest keep their order, and other championships are untouched. */
  lemma DeleteEventRemovesExactly(cs: seq<Championship>, selected: string, eventId: string)
    requires ChampionshipsAfterDeleteEvent(cs, selected, eventId).Some?
    ensures Seqs.IndexWhere(cs, ChampionshipId, selected).Some?
    ensures var r := ChampionshipsAfterDeleteEvent(cs, selected, eventId).value;
            var k := Seqs.IndexWhere(cs, ChampionshipId, selected).value;
            |r| == |cs|
            && (forall j :: 0 <= j < |cs| && j != k ==> r[j] == cs[j])
            && (forall e :: e in EventsOf(r[k]) <==> e in EventsOf(cs[k]) && e.id != eventId)
            && Seqs.IsSubsequence(EventsOf(r[k]), EventsOf(cs[k]))
  {
  }

  /** Deleting an event just created under a fresh id gives back the calendar it was
      added to. */
  lemma DeleteUndoesCreate(events: seq<ChampionshipEvent>, form: EventForm, freshId: string,
                           today: string)
    requires form.id == ""
    requires forall i :: 0 <= i < |events| ==> events[i].id != freshId
    ensures Seqs.RemoveWhere(EventsAfterSave(events, form, freshId, today), EventId, freshId)
            == events
  {
    Seqs.RemoveAppended(events, EventId, NewEvent(form, events, freshId, today));
  }

  /** `saveEvent`: on an accepted form, the championship list with the saved event is
      written back and an EVENTO entry names the event. */
  method SaveEvent(store: LocalStore, selected: string, form: EventForm, freshId: string,
                   today: string, logId: string, now: int) returns (saved: bool)
    modifies store
    ensures saved <==> ChampionshipsAfterSaveEvent(old(store.Championships()), selected, form,
                                                   freshId, today).Some?
    ensures !saved ==> store.State() == old(store.State())
    ensures saved ==> store.State() == old(store.State()).(
              championships := ChampionshipsAfterSaveEvent(old(store.Championships()), selected,
                                                          form, freshId, today),
              logs := Some(LogAfter(old(store.AuditLogs()), LogEntry(logId, now, old(store.auth),
                        "EVENTO", (if form.id != "" then "Editado" else "Creado")
                                  + " evento: " + form.name))))
  {
    if form.name == "" || form.track == "" || selected == "" {
      return false;
    }
    var champs := store.Championships();
    var k := Seqs.IndexWhere(champs, ChampionshipId, selected);
    if k.None? {
      return false;
    }
    var champ := champs[k.value];
    var updatedEvents := EventsAfterSave(EventsOf(champ), form, freshId, today);
    var updated := champs[k.value := champ.(events := Some(updatedEvents))];
    store.SaveChampionships(updated);
    store.AddLog("EVENTO", (if form.id != "" then "Editado" else "Creado") + " evento: " + form.name,
                 logId, now);
    saved := true;
  }

  /** `deleteEvent`: after a confirmed dialog, the filtered calendar is written back. */
  method DeleteEvent(store: LocalStore, selected: string, eventId: string, confirmed: bool,
                     logId: string, now: int) returns (deleted: bool)
    modifies store
    ensures deleted <==> confirmed
                         && ChampionshipsAfterDeleteEvent(old(store.Championships()), selected,
                                                          eventId).Some?
    ensures !deleted ==> store.State() == old(store.State())
    ensures deleted ==> store.State() == old(store.State()).(
              championships := ChampionshipsAfterDeleteEvent(old(store.Championships()),
                                                            selected, eventId),
              logs := Some(LogAfter(old(store.AuditLogs()), LogEntry(logId, now, old(store.auth),
                        "EVENTO", "Eliminado evento ID: " + eventId))))
  {
    if !confirmed {
      return false;
    }
    var champs := store.Championships();
    var k := Seqs.IndexWhere(champs, ChampionshipId, selected);
    if k.None? {
      return false;
    }
    var champ := champs[k.value];
    var updatedEvents := Seqs.RemoveWhere(EventsOf(champ), EventId, eventId);
    store.SaveChampionships(champs[k.value := champ.(events := Some(updatedEvents))]);
    store.AddLog("EVENTO", "Eliminado evento ID: " + eventId, logId, now);
    deleted := true;
  }

  // ---------------------------------------------------------------- ranking import

  /** One row of a parsed ranking; `points` is None where `parseFloat` finds no number. */
  datatype RankingRow = RankingRow(name: string, number: string, category: string,
                                   points: Option<real>)

  /** `parseFloat(p.points) || 0`. */
  function RowPoints(row: RankingRow): real {
    row.points.GetOr(0.0)
  }

  /** The pilot an unmatched row creates: confirmed, ranked 99, with import placeholders for
      the licences and a transponder named after the number. */
  function ImportedPilot(row: RankingRow, id: string, today: string, now: int): Pilot {
    Pilot(id, row.number, ToUpper(row.name), row.category, Confirmado, 99, "P_IMPORT",
          "P_IMPORT", "TX-" + row.number, 10, today, now,
          Stats(0, 0, 0, Some(RowPoints(row))), None, None, None)
  }

  /** One step of the import loop: the first pilot with the row's number and category gets
      the row's points and today's date; without one, a new pilot is pushed at the end. */
  function MergeRow(ps: seq<Pilot>, row: RankingRow, id: string, today: string, now: int)
    : seq<Pilot>
  {
    match Inscripciones.ExistingIndex(ps, row.number, row.category)
      case Some(k) =>
        ps[k := ps[k].(stats := ps[k].stats.(points := Some(RowPoints(row))), lastUpdated := today)]
      case None => ps + [ImportedPilot(row, id, today, now)]
  }

  /** The roster after the loop has handled `rows`, in order; `ids[i]` is the id drawn for
      row `i`. */
  function Merged(ps: seq<Pilot>, rows: seq<RankingRow>, ids: seq<string>, today: string,
                  now: int): seq<Pilot>
    requires |ids| == |rows|
    decreases |rows|
  {
    if rows == [] then ps
    else
      var n := |rows| - 1;
      MergeRow(Merged(ps, rows[..n], ids[..n], today, now), rows[n], ids[n], today, now)
  }

  /** `b` is `a` with at most its points and its last-update date changed. */
  predicate Retouched(a: Pilot, b: Pilot) {
    b == a.(stats := a.stats.(points := b.stats.points), lastUpdated := b.lastUpdated)
  }

  /** One row removes nobody: every pilot keeps its place and everything but points and
      date, and a pilot that is added comes last, confirmed and ranked 99. */
  lemma MergeRowKeepsRoster(ps: seq<Pilot>, row: RankingRow, id: string, today: string, now: int)
    ensures var r := MergeRow(ps, row, id, today, now);
            |ps| <= |r| <= |ps| + 1
            && (forall i :: 0 <= i < |ps| ==> Retouched(ps[i], r[i]))
            && (forall i :: |ps| <= i < |r| ==> r[i].status == Confirmado && r[i].ranking == 99)
  {
  }

  /** After a row, the first pilot with its number and category carries its points. */
  lemma MergeRowRecordsPoints(ps: seq<Pilot>, row: RankingRow, id: string, today: string,
                              now: int)
    ensures var r := MergeRow(ps, row, id, today, now);
            var k := Inscripciones.ExistingIndex(r, row.number, row.category);
            k.Some? && r[k.value].stats.points == Some(RowPoints(row))
  {
    var r := MergeRow(ps, row, id, today, now);
    match Inscripciones.ExistingIndex(ps, row.number, row.category)
    case Some(k) =>
      assert r[k].number == row.number && r[k].category == row.category;
      assert forall i :: 0 <= i < k ==> r[i] == ps[i];
      assert Inscripciones.ExistingIndex(r, row.number, row.category) == Some(k) by {
        ExistingIndexIsFirst(r, row.number, row.category, k);
      }
    case None =>
      assert r[|ps|].number == row.number && r[|ps|].category == row.category;
      assert forall i :: 0 <= i < |ps| ==> r[i] == ps[i];
      ExistingIndexIsFirst(r, row.number, row.category, |ps|);
  }

  /** The first matching position is the one `findIndex` reports. */
  lemma ExistingIndexIsFirst(ps: seq<Pilot>, number: string, category: string, k: nat)
    requires k < |ps| && ps[k].number == number && ps[k].category == category
    requires forall i :: 0 <= i < k ==> !(ps[i].number == number && ps[i].category == category)
    ensures Inscripciones.ExistingIndex(ps, number, category) == Some(k)
  {
    var r := Inscripciones.ExistingIndex(ps, number, category);
    assert r.Some?;
  }

  /** A row never creates a second pilot for a number already taken in its category. */
  lemma MergeRowKeepsNumbersUnique(ps: seq<Pilot>, row: RankingRow, id: string, today: string,
                                   now: int)
    requires NumbersUniquePerCategory(ps)
    ensures NumbersUniquePerCategory(MergeRow(ps, row, id, today, now))
  {
    var r := MergeRow(ps, row, id, today, now);
    MergeRowKeepsRoster(ps, row, id, today, now);
    forall i, j | 0 <= i < j < |r| && r[i].number == r[j].number
      ensures r[i].category != r[j].category
    {
      if j == |ps| {
        assert r[i].number == ps[i].number && r[i].category == ps[i].category;
      } else {
        assert r[j].number == ps[j].number && r[j].category == ps[j].category;
      }
    }
  }

  /** The whole import removes nobody and keeps everything but points and dates. */
  lemma {:induction false} MergedKeepsRoster(ps: seq<Pilot>, rows: seq<RankingRow>,
                                             ids: seq<string>, today: string, now: int)
    requires |ids| == |rows|
    ensures var r := Merged(ps, rows, ids, today, now);
            |ps| <= |r| <= |ps| + |rows|
            && forall i :: 0 <= i < |ps| ==> Retouched(ps[i], r[i])
    decreases |rows|
  {
    if rows != [] {
      var n := |rows| - 1;
      var mid := Merged(ps, rows[..n], ids[..n], today, now);
      MergedKeepsRoster(ps, rows[..n], ids[..n], today, now);
      MergeRowKeepsRoster(mid, rows[n], ids[n], today, now);
    }
  }

  /** The whole import keeps kart numbers unique per category. */
  lemma {:induction false} MergedKeepsNumbersUnique(ps: seq<Pilot>, rows: seq<RankingRow>,
                                                    ids: seq<string>, today: string, now: int)
    requires |ids| == |rows|
    requires NumbersUniquePerCategory(ps)
    ensures NumbersUniquePerCategory(Merged(ps, rows, ids, today, now))
    decreases |rows|
  {
    if rows != [] {
      var n := |rows| - 1;
      MergedKeepsNumbersUnique(ps, rows[..n], ids[..n], today, now);
      MergeRowKeepsNumbersUnique(Merged(ps, rows[..n], ids[..n], today, now), rows[n], ids[n],
                                 today, now);
    }
  }

  /** `handleImportRanking`: nothing happens for a blank text or an empty parse; otherwise
      the rows are merged one by one into a copy of the roster, which is saved, and an IMPORT
      entry counts the rows. */
  method ImportRanking(store: LocalStore, rawText: string, rows: seq<RankingRow>,
                       ids: seq<string>, today: string, now: int, logId: string)
    returns (imported: bool)
    requires |ids| == |rows|
    modifies store
    ensures imported <==> Trim(rawText) != [] && rows != []
    ensures !imported ==> store.State() == old(store.State())
    ensures imported ==> store.State() == old(store.State()).(
              pilots := Some(Merged(old(store.Pilots()), rows, ids, today, now)),
              logs := Some(LogAfter(old(store.AuditLogs()), LogEntry(logId, now, old(store.auth),
                        "IMPORT", "Importados " + NatToString(|rows|) + " registros de ranking."))))
  {
    if Trim(rawText) == [] || rows == [] {
      return false;
    }
    var current := store.Pilots();
    var i := 0;
    while i < |rows|
      invariant 0 <= i <= |rows|
      invariant current == Merged(old(store.Pilots()), rows[..i], ids[..i], today, now)
    {
      assert rows[..i + 1][..i] == rows[..i] && ids[..i + 1][..i] == ids[..i];
      var row := rows[i];
      var idx := Inscripciones.ExistingIndex(current, row.number, row.category);
      if idx.Some? {
        var p := current[idx.value];
        current := current[idx.value := p.(stats := p.stats.(points := Some(RowPoints(row))),
                                           lastUpdated := today)];
      } else {
        current := current + [ImportedPilot(row, ids[i], today, now)];
      }
      i := i + 1;
    }
    assert rows[..i] == rows && ids[..i] == ids;
    store.SavePilots(current);
    store.AddLog("IMPORT", "Importados " + NatToString(|rows|) + " registros de ranking.",
                 logId, now);
    imported := true;
  }

  // ---------------------------------------------------------------- regulations, news, history

  /** `id ? xs.map(y => key(y) === id ? x : y) : [x, ...xs]`: an edit replaces in place the
      records with the form's id, a creation goes first. */
  function UpsertFront<T>(xs: seq<T>, key: T -> string, id: string, x: T): seq<T> {
    if id != "" then Seqs.ReplaceWhere(xs, key, id, x) else [x] + xs
  }

  /** `id ? xs.map(…) : [...xs, x]`: the same, but a creation goes last. */
  function UpsertBack<T>(xs: seq<T>, key: T -> string, id: string, x: T): seq<T> {
    if id != "" then Seqs.ReplaceWhere(xs, key, id, x) else xs + [x]
  }

  /** What an upsert does to the collection: a creation adds the record and moves nothing
      else; an edit keeps every position and swaps the record in wherever the id was, so the
      record is stored exactly when the id was known. */
  lemma UpsertFrontPlaces<T>(xs: seq<T>, key: T -> string, id: string, x: T)
    ensures id == "" ==> UpsertFront(xs, key, id, x) == [x] + xs
    ensures id != "" ==> |UpsertFront(xs, key, id, x)| == |xs|
    ensures id != "" ==> (x in UpsertFront(xs, key, id, x)
                          <==> x in xs || exists i :: 0 <= i < |xs| && key(xs[i]) == id)
  {
    if id != "" {
      var r := UpsertFront(xs, key, id, x);
      if x in r {
        var i :| 0 <= i < |r| && r[i] == x;
        if key(xs[i]) != id {
          assert xs[i] == x;
        }
      }
      if exists i :: 0 <= i < |xs| && key(xs[i]) == id {
        var i :| 0 <= i < |xs| && key(xs[i]) == id;
        assert r[i] == x;
      }
      if x in xs {
        var i :| 0 <= i < |xs| && xs[i] == x;
        assert r[i] == x;
      }
    }
  }

  /** The same for the append-at-the-end flavour. */
  lemma UpsertBackPlaces<T>(xs: seq<T>, key: T -> string, id: string, x: T)
    ensures id == "" ==> UpsertBack(xs, key, id, x) == xs + [x]
    ensures id != "" ==> |UpsertBack(xs, key, id, x)| == |xs|
    ensures id != "" ==> (x in UpsertBack(xs, key, id, x)
                          <==> x in xs || exists i :: 0 <= i < |xs| && key(xs[i]) == id)
  {
    UpsertFrontPlaces(xs, key, id, x);
  }

  /** An edit that keeps the record's id keeps the ids distinct. */
  lemma EditKeepsKeysDistinct<T>(xs: seq<T>, key: T -> string, id: string, x: T)
    requires id != "" && key(x) == id
    requires forall i, j :: 0 <= i < j < |xs| ==> key(xs[i]) != key(xs[j])
    ensures var r := Seqs.ReplaceWhere(xs, key, id, x);
            forall i, j :: 0 <= i < j < |r| ==> key(r[i]) != key(r[j])
  {
    var r := Seqs.ReplaceWhere(xs, key, id, x);
    forall i, j | 0 <= i < j < |r| ensures key(r[i]) != key(r[j]) {
      assert key(r[i]) == key(xs[i]) && key(r[j]) == key(xs[j]);
    }
  }

  /** Removing by id a record just created under a fresh id gives back the collection. */
  lemma RemoveUndoesCreate<T(!new)>(xs: seq<T>, key: T -> string, x: T)
    requires forall i :: 0 <= i < |xs| ==> key(xs[i]) != key(x)
    ensures Seqs.RemoveWhere(UpsertFront(xs, key, "", x), key, key(x)) == xs
    ensures Seqs.RemoveWhere(UpsertBack(xs, key, "", x), key, key(x)) == xs
  {
    Seqs.RemoveAppended(xs, key, x);
  }

  /** The regulation form; blanks are empty texts. */
  datatype RegulationForm = RegulationForm(id: string, title: string, description: string,
                                           category: RegulationCategory, version: string)

  function RegulationId(r: Regulation): string {
    r.id
  }

  /** `saveReg`'s record. The uploaded file's data URL and its size label are parameters. */
  function NewRegulation(form: RegulationForm, file: string, fileSize: string, freshId: string,
                         today: string): Regulation
  {
    Regulation(Or(form.id, freshId), form.title, form.description, form.category,
               Or(form.version, "1.0"), today, fileSize, file, false)
  }

  /** `saveReg`: a title and a file are required. */
  method SaveRegulation(store: LocalStore, form: RegulationForm, file: Option<string>,
                        fileSize: string, freshId: string, today: string, logId: string,
                        now: int) returns (saved: bool)
    modifies store
    ensures saved <==> form.title != "" && file.Some? && file.value != ""
    ensures !saved ==> store.State() == old(store.State())
    ensures saved ==> store.State() == old(store.State()).(
              regulations := Some(UpsertFront(old(store.Regulations()), RegulationId, form.id,
                                 NewRegulation(form, file.value, fileSize, freshId, today))),
              logs := Some(LogAfter(old(store.AuditLogs()), LogEntry(logId, now, old(store.auth),
                        "REGLAMENTO", (if form.id != "" then "Editado" else "Publicado")
                                      + ": " + form.title))))
  {
    if form.title == "" || file.None? || file.value == "" {
      return false;
    }
    var reg := NewRegulation(form, file.value, fileSize, freshId, today);
    store.SaveRegulations(UpsertFront(store.Regulations(), RegulationId, form.id, reg));
    store.AddLog("REGLAMENTO", (if form.id != "" then "Editado" else "Publicado") + ": " + reg.title,
                 logId, now);
    saved := true;
  }

  /** `deleteReg`: after a confirmed dialog, every regulation with that id is removed. */
  method DeleteRegulation(store: LocalStore, id: string, confirmed: bool, logId: string, now: int)
    modifies store
    ensures !confirmed ==> store.State() == old(store.State())
    ensures confirmed ==> store.State() == old(store.State()).(
              regulations := Some(Seqs.RemoveWhere(old(store.Regulations()), RegulationId, id)),
              logs := Some(LogAfter(old(store.AuditLogs()), LogEntry(logId, now, old(store.auth),
                        "REGLAMENTO", "Eliminado ID: " + id))))
  {
    if confirmed {
      store.SaveRegulations(Seqs.RemoveWhere(store.Regulations(), RegulationId, id));
      store.AddLog("REGLAMENTO", "Eliminado ID: " + id, logId, now);
    }
  }

  datatype NewsForm = NewsForm(id: string, title: string, content: string, category: PressCategory)

  function PressId(n: PressRelease): string {
    n.id
  }

  /** `currentUser?.name || 'Admin KDO'`: the press release's author. */
  function Author(user: Option<AdminUser>): (r: string)
    ensures r != ""
    ensures user.Some? && user.value.name != "" ==> r == user.value.name
  {
    if user.Some? && user.value.name != "" then user.value.name else "Admin KDO"
  }

  function NewPressRelease(form: NewsForm, user: Option<AdminUser>, freshId: string,
                           today: string): PressRelease
  {
    PressRelease(Or(form.id, freshId), form.title, form.content, today, Author(user), form.category)
  }

  /** `saveNews`: a title and a content are required. The author is the session user read
      when the page was opened. */
  method SaveNews(store: LocalStore, form: NewsForm, user: Option<AdminUser>, freshId: string,
                  today: string, logId: string, now: int) returns (saved: bool)
    modifies store
    ensures saved <==> form.title != "" && form.content != ""
    ensures !saved ==> store.State() == old(store.State())
    ensures saved ==> store.State() == old(store.State()).(
              news := Some(UpsertFront(old(store.PressReleases()), PressId, form.id,
                          NewPressRelease(form, user, freshId, today))),
              logs := Some(LogAfter(old(store.AuditLogs()), LogEntry(logId, now, old(store.auth),
                        "PRENSA", (if form.id != "" then "Editado" else "Publicado")
                                  + ": " + form.title))))
  {
    if form.title == "" || form.content == "" {
      return false;
    }
    var entry := NewPressRelease(form, user, freshId, today);
    store.SavePressReleases(UpsertFront(store.PressReleases(), PressId, form.id, entry));
    store.AddLog("PRENSA", (if form.id != "" then "Editado" else "Publicado") + ": " + entry.title,
                 logId, now);
    saved := true;
  }

  /** `deleteNews`. */
  method DeleteNews(store: LocalStore, id: string, confirmed: bool, logId: string, now: int)
    modifies store
    ensures !confirmed ==> store.State() == old(store.State())
    ensures confirmed ==> store.State() == old(store.State()).(
              news := Some(Seqs.RemoveWhere(old(store.PressReleases()), PressId, id)),
              logs := Some(LogAfter(old(store.AuditLogs()), LogEntry(logId, now, old(store.auth),
                        "PRENSA", "Eliminado ID: " + id))))
  {
    if confirmed {
      store.SavePressReleases(Seqs.RemoveWhere(store.PressReleases(), PressId, id));
      store.AddLog("PRENSA", "Eliminado ID: " + id, logId, now);
    }
  }

  /** The form of a past season; a zero year is a blank one. */
  datatype HistoryForm = HistoryForm(id: string, name: string, year: int, tracks: string,
                                     image: string, champions: Option<seq<Champion>>)

  function DefaultHistoryImage(): string {
    "https://images.unsplash.com/photo-1547631618-f29792042761?w=800"
  }

  /** `saveHistory`'s record: a finished season, with no calendar. */
  function LegacyChampionship(form: HistoryForm, freshId: string): Championship {
    Championship(Or(form.id, freshId), form.name, "Finalizada",
                 "Temporada " + IntToString(form.year), Or(form.tracks, "Varios"),
                 Or(form.image, DefaultHistoryImage()), form.year, None,
                 Some(form.champions.GetOr([])))
  }

  /** `saveHistory`: a name and a year are required. */
  method SaveHistory(store: LocalStore, form: HistoryForm, freshId: string, logId: string, now: int)
    returns (saved: bool)
    modifies store
    ensures saved <==> form.name != "" && form.year != 0
    ensures !saved ==> store.State() == old(store.State())
    ensures saved ==> store.State() == old(store.State()).(
              championships := Some(UpsertFront(old(store.Championships()), ChampionshipId,
                                   form.id, LegacyChampionship(form, freshId))),
              logs := Some(LogAfter(old(store.AuditLogs()), LogEntry(logId, now, old(store.auth),
                        "HISTORIA", (if form.id != "" then "Editado" else "Añadido")
                                    + " Legado: " + form.name))))
  {
    if form.name == "" || form.year == 0 {
      return false;
    }
    var legacy := LegacyChampionship(form, freshId);
    store.SaveChampionships(UpsertFront(store.Championships(), ChampionshipId, form.id, legacy));
    store.AddLog("HISTORIA", (if form.id != "" then "Editado" else "Añadido") + " Legado: "
                             + legacy.name, logId, now);
    saved := true;
  }

  // ---------------------------------------------------------------- staff

  /** The staff form; `password` is None when the field was never touched. */
  datatype StaffForm = StaffForm(id: string, username: string, password: Option<string>,
                                 name: string, role: UserRole)

  function StaffId(u: AdminUser): string {
    u.id
  }

  /** The form is refused without a username, and a new member also needs a password. */
  predicate StaffFormAccepted(form: StaffForm) {
    form.username != "" && (form.id != "" || (form.password.Some? && form.password.value != ""))
  }

  /** `saveStaff`'s record: the username lower-cased, read and write permissions. */
  function NewStaff(form: StaffForm, freshId: string): (u: AdminUser)
    ensures ToLower(u.username) == u.username
  {
    ToLowerIdempotent(form.username);
    AdminUser(Or(form.id, freshId), ToLower(form.username), form.password, form.role, form.name,
              None, ["READ", "WRITE"])
  }

  method SaveStaff(store: LocalStore, form: StaffForm, freshId: string, logId: string, now: int)
    returns (saved: bool)
    modifies store
    ensures saved <==> StaffFormAccepted(form)
    ensures !saved ==> store.State() == old(store.State())
    ensures saved ==> store.State() == old(store.State()).(
              admins := Some(UpsertBack(old(store.AdminUsers()), StaffId, form.id,
                            NewStaff(form, freshId))),
              logs := Some(LogAfter(old(store.AuditLogs()), LogEntry(logId, now, old(store.auth),
                        "STAFF", (if form.id != "" then "Editado" else "Nuevo oficial")
                                 + ": " + form.name))))
  {
    if !StaffFormAccepted(form) {
      return false;
    }
    var user := NewStaff(form, freshId);
    store.SaveAdminUsers(UpsertBack(store.AdminUsers(), StaffId, form.id, user));
    store.AddLog("STAFF", (if form.id != "" then "Editado" else "Nuevo oficial") + ": " + user.name,
                 logId, now);
    saved := true;
  }

  /** The id of the system's SuperAdmin, which `deleteStaff` refuses to remove. */
  const ProtectedStaffId: string := "admin-1"

  /** `deleteStaff` on the staff list: the SuperAdmin's id is refused before any dialog. */
  function StaffAfterDelete(users: seq<AdminUser>, id: string, confirmed: bool)
    : (r: Option<seq<AdminUser>>)
    ensures r.Some? <==> id != ProtectedStaffId && confirmed
  {
    if id == ProtectedStaffId || !confirmed then None
    else Some(Seqs.RemoveWhere(users, StaffId, id))
  }

  /** No deletion ever removes the SuperAdmin's record; otherwise exactly the records with
      the id go. */
  lemma DeleteStaffSparesSuperAdmin(users: seq<AdminUser>, id: string, confirmed: bool)
    ensures var r := StaffAfterDelete(users, id, confirmed);
            r.Some? ==> forall u :: u in users && u.id == ProtectedStaffId ==> u in r.value
    ensures var r := StaffAfterDelete(users, id, confirmed);
            r.Some? ==> forall u :: u in r.value <==> u in users && u.id != id
  {
  }

  method DeleteStaff(store: LocalStore, id: string, confirmed: bool, logId: string, now: int)
    returns (deleted: bool)
    modifies store
    ensures deleted <==> StaffAfterDelete(old(store.AdminUsers()), id, confirmed).Some?
    ensures !deleted ==> store.State() == old(store.State())
    ensures deleted ==> store.State() == old(store.State()).(
              admins := StaffAfterDelete(old(store.AdminUsers()), id, confirmed),
              logs := Some(LogAfter(old(store.AuditLogs()), LogEntry(logId, now, old(store.auth),
                        "STAFF", "Oficial removido ID: " + id))))
  {
    var updated := StaffAfterDelete(store.AdminUsers(), id, confirmed);
    if updated.None? {
      return false;
    }
    store.SaveAdminUsers(updated.value);
    store.AddLog("STAFF", "Oficial removido ID: " + id, logId, now);
    deleted := true;
  }

  // ---------------------------------------------------------------- settings

  /** A partial settings record: None leaves a field alone. */
  datatype SettingsUpdate = SettingsUpdate(
    paddockTicker: Option<string>,
    maintenanceMode: Option<bool>,
    registrationsOpen: Option<bool>,
    activeVoting: Option<bool>,
    weatherInfo: Option<string>,
    liveTimingUrl: Option<string>,
    useLocalOrbits: Option<bool>,
    orbitsIp: Option<string>)

  function OrKeep<T>(update: Option<T>, current: T): T {
    if update.Some? then update.value else current
  }

  function OrKeepOptional<T>(update: Option<T>, current: Option<T>): Option<T> {
    if update.Some? then update else current
  }

  /** `{ ...settings, ...updates }`. */
  function MergeSettings(s: SystemSettings, u: SettingsUpdate): SystemSettings {
    SystemSettings(OrKeep(u.paddockTicker, s.paddockTicker),
                   OrKeep(u.maintenanceMode, s.maintenanceMode),
                   OrKeep(u.registrationsOpen, s.registrationsOpen),
                   OrKeepOptional(u.activeVoting, s.activeVoting),
                   OrKeepOptional(u.weatherInfo, s.weatherInfo),
                   OrKeep(u.liveTimingUrl, s.liveTimingUrl),
                   OrKeepOptional(u.useLocalOrbits, s.useLocalOrbits),
                   OrKeepOptional(u.orbitsIp, s.orbitsIp))
  }

  /** Two updates in a row, the later one winning field by field. */
  function ThenUpdate(u1: SettingsUpdate, u2: SettingsUpdate): SettingsUpdate {
    SettingsUpdate(OrKeepOptional(u2.paddockTicker, u1.paddockTicker),
                   OrKeepOptional(u2.maintenanceMode, u1.maintenanceMode),
                   OrKeepOptional(u2.registrationsOpen, u1.registrationsOpen),
                   OrKeepOptional(u2.activeVoting, u1.activeVoting),
                   OrKeepOptional(u2.weatherInfo, u1.weatherInfo),
                   OrKeepOptional(u2.liveTimingUrl, u1.liveTimingUrl),
                   OrKeepOptional(u2.useLocalOrbits, u1.useLocalOrbits),
                   OrKeepOptional(u2.orbitsIp, u1.orbitsIp))
  }

  const NoUpdate: SettingsUpdate :=
    SettingsUpdate(None, None, None, None, None, None, None, None)

  /** An update names the fields it changes: each of the eight settings takes the given value
      when the update carries one, and keeps its own otherwise. */
  lemma MergeSettingsFields(s: SystemSettings, u: SettingsUpdate)
    ensures u.paddockTicker.Some? ==> MergeSettings(s, u).paddockTicker == u.paddockTicker.value
    ensures u.paddockTicker.None? ==> MergeSettings(s, u).paddockTicker == s.paddockTicker
    ensures u.maintenanceMode.Some? ==> MergeSettings(s, u).maintenanceMode == u.maintenanceMode.value
    ensures u.maintenanceMode.None? ==> MergeSettings(s, u).maintenanceMode == s.maintenanceMode
    ensures u.registrationsOpen.Some? ==>
              MergeSettings(s, u).registrationsOpen == u.registrationsOpen.value
    ensures u.registrationsOpen.None? ==> MergeSettings(s, u).registrationsOpen == s.registrationsOpen
    ensures u.orbitsIp.Some? ==> MergeSettings(s, u).orbitsIp == u.orbitsIp
    ensures u.orbitsIp.None? ==> MergeSettings(s, u).orbitsIp == s.orbitsIp
    ensures u.activeVoting.Some? ==> MergeSettings(s, u).activeVoting == u.activeVoting
    ensures u.activeVoting.None? ==> MergeSettings(s, u).activeVoting == s.activeVoting
    ensures u.weatherInfo.Some? ==> MergeSettings(s, u).weatherInfo == u.weatherInfo
    ensures u.weatherInfo.None? ==> MergeSettings(s, u).weatherInfo == s.weatherInfo
    ensures u.liveTimingUrl.Some? ==> MergeSettings(s, u).liveTimingUrl == u.liveTimingUrl.value
    ensures u.liveTimingUrl.None? ==> MergeSettings(s, u).liveTimingUrl == s.liveTimingUrl
    ensures u.useLocalOrbits.Some? ==> MergeSettings(s, u).useLocalOrbits == u.useLocalOrbits
    ensures u.useLocalOrbits.None? ==> MergeSettings(s, u).useLocalOrbits == s.useLocalOrbits
  {
  }

  /** An empty update changes nothing, an update applied twice is applied once, and two
      updates in a row are one merged update. */
  lemma MergeSettingsAlgebra(s: SystemSettings, u1: SettingsUpdate, u2: SettingsUpdate)
    ensures MergeSettings(s, NoUpdate) == s
    ensures MergeSettings(MergeSettings(s, u1), u1) == MergeSettings(s, u1)
    ensures MergeSettings(MergeSettings(s, u1), u2) == MergeSettings(s, ThenUpdate(u1, u2))
  {
  }

  /** `handleUpdateSettings`. */
  method UpdateSettings(store: LocalStore, u: SettingsUpdate, logId: string, now: int)
    modifies store
    ensures store.State() == old(store.State()).(
              settings := Some(MergeSettings(old(store.Settings()), u)),
              logs := Some(LogAfter(old(store.AuditLogs()), LogEntry(logId, now, old(store.auth),
                        "AJUSTES", "Configuración de sistema actualizada"))))
  {
    store.SaveSettings(MergeSettings(store.Settings(), u));
    store.AddLog("AJUSTES", "Configuración de sistema actualizada", logId, now);
  }

  // ---------------------------------------------------------------- roster

  /** `pilots.filter(p => p.id !== id)`: a deletion keeps every roster rule. */
  lemma DeletePilotKeepsRosterRules(ps: seq<Pilot>, id: string)
    requires IdsDistinct(ps) && NumbersUniquePerCategory(ps) && LicencesDistinct(ps)
    ensures var r := Seqs.RemoveWhere(ps, PilotId, id);
            IdsDistinct(r) && NumbersUniquePerCategory(r) && LicencesDistinct(r)
            && forall p :: p in r <==> p in ps && p.id != id
  {
    var r := Seqs.RemoveWhere(ps, PilotId, id);
    var f := Seqs.RemoveWhereIndices(ps, PilotId, id);
    forall i, j | 0 <= i < j < |r|
      ensures r[i].id != r[j].id && r[i].medicalLicense != r[j].medicalLicense
      ensures r[i].number == r[j].number ==> r[i].category != r[j].category
    {
      assert r[i] == ps[f[i]] && r[j] == ps[f[j]] && f[i] < f[j];
    }
  }

  method DeletePilot(store: LocalStore, id: string, confirmed: bool, logId: string, now: int)
    modifies store
    ensures !confirmed ==> store.State() == old(store.State())
    ensures confirmed ==> store.State() == old(store.State()).(
              pilots := Some(Seqs.RemoveWhere(old(store.Pilots()), PilotId, id)),
              logs := Some(LogAfter(old(store.AuditLogs()), LogEntry(logId, now, old(store.auth),
                        "ADMIN", "Piloto eliminado permanentemente ID: " + id))))
  {
    if confirmed {
      store.SavePilots(Seqs.RemoveWhere(store.Pilots(), PilotId, id));
      store.AddLog("ADMIN", "Piloto eliminado permanentemente ID: " + id, logId, now);
    }
  }

  /** `pilots.map(p => ({ ...p, status: PENDIENTE }))`. */
  function ResetRoster(ps: seq<Pilot>): (r: seq<Pilot>)
    ensures |r| == |ps|
    ensures forall i :: 0 <= i < |r| ==> r[i].status == Pendiente
    ensures forall i :: 0 <= i < |r| ==> r[i].(status := ps[i].status) == ps[i]
  {
    seq(|ps|, i requires 0 <= i < |ps| => ps[i].(status := Pendiente))
  }

  /** After a reset every pilot is in the reports, and resetting again changes nothing. */
  lemma ResetMakesEveryoneActive(ps: seq<Pilot>)
    ensures ActivePilotsForReports(ResetRoster(ps)) == ResetRoster(ps)
    ensures ResetRoster(ResetRoster(ps)) == ResetRoster(ps)
  {
    Seqs.FilterKeepsAll(ResetRoster(ps), IsActive);
  }

  /** A reset keeps every roster rule: ids, numbers, categories and licences are as they were. */
  lemma ResetKeepsRosterRules(ps: seq<Pilot>)
    requires IdsDistinct(ps) && NumbersUniquePerCategory(ps) && LicencesDistinct(ps)
    ensures var r := ResetRoster(ps);
            IdsDistinct(r) && NumbersUniquePerCategory(r) && LicencesDistinct(r)
  {
    var r := ResetRoster(ps);
    forall i, j | 0 <= i < j < |r|
      ensures r[i].id != r[j].id && r[i].medicalLicense != r[j].medicalLicense
      ensures r[i].number == r[j].number ==> r[i].category != r[j].category
    {
      assert r[i].(status := ps[i].status) == ps[i] && r[j].(status := ps[j].status) == ps[j];
    }
  }

  method ResetForNewRace(store: LocalStore, confirmed: bool, logId: string, now: int)
    modifies store
    ensures !confirmed ==> store.State() == old(store.State())
    ensures confirmed ==> store.State() == old(store.State()).(
              pilots := Some(ResetRoster(old(store.Pilots()))),
              logs := Some(LogAfter(old(store.AuditLogs()), LogEntry(logId, now, old(store.auth),
                        "EVENTO", "Reinicio masivo de inscripciones para nueva fecha"))))
  {
    if confirmed {
      store.SavePilots(ResetRoster(store.Pilots()));
      store.AddLog("EVENTO", "Reinicio masivo de inscripciones para nueva fecha", logId, now);
    }
  }

  // ---------------------------------------------------------------- pagination

  const PageSize: nat := 10

  /** The roster table's filter: the category unless 'Todas', then the upper-cased search in
      the name or the raw search in the number. */
  predicate MatchesSearch(p: Pilot, catFilter: string, search: string) {
    (catFilter == "Todas" || p.category == catFilter)
    && (Contains(p.name, ToUpper(search)) || Contains(p.number, search))
  }

  function FilteredPilots(ps: seq<Pilot>, catFilter: string, search: string): (r: seq<Pilot>)
    ensures forall p :: p in r <==> p in ps && MatchesSearch(p, catFilter, search)
    ensures Seqs.IsSubsequence(r, ps)
  {
    Seqs.Filter(ps, p => MatchesSearch(p, catFilter, search))
  }

  /** With 'Todas' and an empty search the table lists the whole roster. */
  lemma EmptySearchListsAll(ps: seq<Pilot>)
    ensures FilteredPilots(ps, "Todas", "") == ps
  {
    forall i | 0 <= i < |ps| ensures MatchesSearch(ps[i], "Todas", "") {
      ContainsEmpty(ps[i].number);
    }
    Seqs.FilterKeepsAll(ps, p => MatchesSearch(p, "Todas", ""));
  }

  /** `Math.ceil(n / itemsPerPage)`: the fewest pages of ten that hold `n` rows. */
  function TotalPages(n: nat): (r: nat)
    ensures r * PageSize >= n
    ensures r == 0 || (r - 1) * PageSize < n
  {
    (n + PageSize - 1) / PageSize
  }

  /** `slice((page - 1) * itemsPerPage, page * itemsPerPage)`. */
  function PageOf<T>(xs: seq<T>, page: int): (r: seq<T>)
    ensures |r| <= PageSize
  {
    Seqs.Slice(xs, (page - 1) * PageSize, page * PageSize)
  }

  /** The pages are the chunks of ten of the filtered list: there are `TotalPages` of them,
      each in-range page is the matching chunk, and together they list every row once. */
  lemma PagesAreChunks<T>(xs: seq<T>, page: int)
    requires 1 <= page <= TotalPages(|xs|)
    ensures |Seqs.Chunks(xs, PageSize)| == TotalPages(|xs|)
    ensures PageOf(xs, page) == Seqs.Chunks(xs, PageSize)[page - 1]
    ensures Seqs.Flatten(Seqs.Chunks(xs, PageSize)) == xs
  {
    ChunkCountIsTotalPages(xs);
    PageIsChunk(xs, page);
    Seqs.ChunksFlatten(xs, PageSize);
  }

  lemma ChunkCountIsTotalPages<T>(xs: seq<T>)
    ensures |Seqs.Chunks(xs, PageSize)| == TotalPages(|xs|)
  {
    Seqs.ChunkCount(xs, PageSize);
  }

  lemma PageIsChunk<T>(xs: seq<T>, page: int)
    requires 1 <= page <= TotalPages(|xs|)
    ensures page - 1 < |Seqs.Chunks(xs, PageSize)|
    ensures PageOf(xs, page) == Seqs.Chunks(xs, PageSize)[page - 1]
  {
    var k: nat := page - 1;
    var lo := k * PageSize;
    Seqs.OffsetIsProduct(k, PageSize);
    Seqs.ChunkAt(xs, PageSize, k);
    assert page * PageSize == lo + PageSize;
    Seqs.SliceFrom(xs, lo, lo + PageSize);
  }

  /** `Math.max(1, p - 1)` and `Math.min(totalPages, p + 1)`. */
  function PrevPage(p: int): int {
    Max(1, p - 1)
  }

  function NextPage(p: int, totalPages: int): int {
    Min(totalPages, p + 1)
  }

  /** From a page in range, the pager stays in range, and each button leaves the page only
      when it is enabled (not on the first, resp. the last page). */
  lemma PagerStaysInRange(p: int, totalPages: int)
    requires 1 <= p <= totalPages
    ensures 1 <= PrevPage(p) <= totalPages && 1 <= NextPage(p, totalPages) <= totalPages
    ensures PrevPage(p) == p <==> p == 1
    ensures NextPage(p, totalPages) == p <==> p == totalPages
  {
  }

  // ---------------------------------------------------------------- results exports

  /** The lap-by-lap sheet's pilots: the category's, fewest points first. */
  function LapByLapPilots(ps: seq<Pilot>, cat: string): seq<Pilot> {
    Seqs.SortByKey(Seqs.Filter(ps, InCategory(cat)), Points)
  }

  /** The sheet lists exactly the category's pilots, each as often as the roster holds it,
      with points never decreasing down the sheet. */
  lemma LapByLapOrdered(ps: seq<Pilot>, cat: string)
    ensures var r := LapByLapPilots(ps, cat);
            (forall p :: p in r <==> p in ps && p.category == cat)
            && multiset(r) == multiset(Seqs.Filter(ps, InCategory(cat)))
            && (forall i, j :: 0 <= i < j < |r| ==> Points(r[i]) <= Points(r[j]))
  {
    var f := Seqs.Filter(ps, InCategory(cat));
    var r := LapByLapPilots(ps, cat);
    forall p ensures p in r <==> p in f {
      assert p in r <==> multiset(r)[p] > 0;
      assert p in f <==> multiset(f)[p] > 0;
    }
    forall p ensures p in f <==> p in ps && p.category == cat {
      assert InCategory(cat)(p) == (p.category == cat);
    }
  }

  /** `handleDownloadLapByLap`: an empty category produces no sheet and no audit entry;
      otherwise the sheet is produced and logged. */
  method DownloadLapByLap(store: LocalStore, cat: string, logId: string, now: int)
    returns (sheet: Option<seq<Pilot>>)
    modifies store
    ensures sheet.None? <==> LapByLapPilots(old(store.Pilots()), cat) == []
    ensures sheet.Some? ==> sheet.value == LapByLapPilots(old(store.Pilots()), cat)
    ensures sheet.None? ==> store.State() == old(store.State())
    ensures sheet.Some? ==> store.State() == old(store.State()).(
              logs := Some(LogAfter(old(store.AuditLogs()), LogEntry(logId, now, old(store.auth),
                        "RESULTADOS", "Descargado Vuelta a Vuelta: " + cat))))
  {
    var categoryPilots := LapByLapPilots(store.Pilots(), cat);
    if categoryPilots == [] {
      return None;
    }
    store.AddLog("RESULTADOS", "Descargado Vuelta a Vuelta: " + cat, logId, now);
    sheet := Some(categoryPilots);
  }

  predicate InCategoryOrAll(catFilter: string, p: Pilot) {
    catFilter == "Todas" || p.category == catFilter
  }

  /** `handleDownloadFilteredList`: the roster table's category filter, without the search;
      nothing is produced or logged when it selects nobody. */
  method DownloadFilteredList(store: LocalStore, catFilter: string, logId: string, now: int)
    returns (listed: Option<seq<Pilot>>)
    modifies store
    ensures listed.None? <==> forall p :: p in old(store.Pilots()) ==> !InCategoryOrAll(catFilter, p)
    ensures listed.Some? ==>
              forall p :: p in listed.value <==> (p in old(store.Pilots()) && InCategoryOrAll(catFilter, p))
    ensures listed.Some? ==> Seqs.IsSubsequence(listed.value, old(store.Pilots()))
    ensures listed.None? ==> store.State() == old(store.State())
    ensures listed.Some? ==> store.State() == old(store.State()).(
              logs := Some(LogAfter(old(store.AuditLogs()), LogEntry(logId, now, old(store.auth),
                        "PADRON", "Descargado listado de pilotos: " + catFilter))))
  {
    var filtered := Seqs.Filter(store.Pilots(), p => InCategoryOrAll(catFilter, p));
    if filtered == [] {
      assert forall p :: p in store.Pilots() ==> !InCategoryOrAll(catFilter, p);
      return None;
    }
    assert filtered[0] in store.Pilots();
    store.AddLog("PADRON", "Descargado listado de pilotos: " + catFilter, logId, now);
    listed := Some(filtered);
  }

  /** `${currentEvent?.name}`: the selected event's name, or "undefined" when none is selected. */
  function EventLabel(eventName: Option<string>): string {
    if eventName.Some? then eventName.value else "undefined"
  }

  /** `downloadBriefingPDF`: the attendance sheet lists the pilots the reports use, and one
      EVENTO entry names the selected event; the roster is not touched. */
  method DownloadBriefing(store: LocalStore, eventName: Option<string>, logId: string, now: int)
    returns (sheet: seq<Pilot>)
    modifies store
    ensures sheet == ActivePilotsForReports(old(store.Pilots()))
    ensures store.State() == old(store.State()).(
              logs := Some(LogAfter(old(store.AuditLogs()), LogEntry(logId, now, old(store.auth),
                        "EVENTO", "Descargada planilla de briefing: " + EventLabel(eventName)))))
  {
    sheet := ActivePilotsForReports(store.Pilots());
    store.AddLog("EVENTO", "Descargada planilla de briefing: " + EventLabel(eventName), logId, now);
  }

  /** One line of the exported classification; `gap` is None for the leader ('LIDER'). The
      random best-lap text is not modelled. */
  datatype ClassifiedRow = ClassifiedRow(number: string, name: string, gap: Option<real>)

  /** `exportOfficialResults`'s rows: the category by points, each pilot after the first with
      its distance in points to the leader. */
  function ClassifiedRows(ps: seq<Pilot>, cat: string): (r: seq<ClassifiedRow>)
    ensures |r| == |Standings.ByPoints(Seqs.Filter(ps, InCategory(cat)))|
  {
    var sorted := Standings.ByPoints(Seqs.Filter(ps, InCategory(cat)));
    seq(|sorted|, i requires 0 <= i < |sorted| =>
      ClassifiedRow(sorted[i].number, sorted[i].name,
                    if i == 0 then None else Some(Points(sorted[0]) - Points(sorted[i]))))
  }

  /** Only the first row is the leader, and every other gap is the leader's lead over that
      pilot: never negative and never shrinking down the classification. */
  lemma ClassifiedGaps(ps: seq<Pilot>, cat: string)
    ensures var r := ClassifiedRows(ps, cat);
            (forall i :: 0 <= i < |r| ==> (r[i].gap.None? <==> i == 0))
            && (forall i :: 0 < i < |r| ==> r[i].gap.value >= 0.0)
            && (forall i, j :: 0 < i < j < |r| ==> r[i].gap.value <= r[j].gap.value)
  {
    var sorted := Standings.ByPoints(Seqs.Filter(ps, InCategory(cat)));
    Standings.ByPointsOrdered(Seqs.Filter(ps, InCategory(cat)));
    var r := ClassifiedRows(ps, cat);
    forall i | 0 < i < |r| ensures r[i].gap.value >= 0.0 {
      assert Points(sorted[0]) >= Points(sorted[i]);
    }
    forall i, j | 0 < i < j < |r| ensures r[i].gap.value <= r[j].gap.value {
      assert Points(sorted[i]) >= Points(sorted[j]);
    }
  }

  /** The rows are the category's pilots, each as often as the roster holds it, in an
      order by points: the first row carries a pilot with the most points of the category,
      and every later row's gap is that maximum less its own pilot's points. */
  lemma ClassifiedRowsShowCategory(ps: seq<Pilot>, cat: string) returns (order: seq<Pilot>)
    ensures forall q :: multiset(order)[q] == if q.category == cat then multiset(ps)[q] else 0
    ensures var r := ClassifiedRows(ps, cat);
            |r| == |order|
            && forall i :: 0 <= i < |r| ==> r[i].number == order[i].number && r[i].name == order[i].name
    ensures order != [] ==>
              order[0].category == cat
              && forall p :: p in ps && p.category == cat ==> Points(p) <= Points(order[0])
    ensures var r := ClassifiedRows(ps, cat);
            forall i :: 0 < i < |r| ==> r[i].gap.Some? && r[i].gap.value == Points(order[0]) - Points(order[i])
  {
    var f := Seqs.Filter(ps, InCategory(cat));
    order := Standings.ByPoints(f);
    Standings.ByPointsOrdered(f);
    CategoryFilterCounts(ps, cat);
    RowsOfOrder(ps, cat);
    if order != [] {
      LeaderHasMost(order);
      Standings.ByPointsMembers(f);
      assert order[0] in f;
    }
  }

  lemma RowsOfOrder(ps: seq<Pilot>, cat: string)
    ensures var sorted := Standings.ByPoints(Seqs.Filter(ps, InCategory(cat)));
            var r := ClassifiedRows(ps, cat);
            |r| == |sorted|
            && (forall i :: 0 <= i < |r| ==> r[i].number == sorted[i].number && r[i].name == sorted[i].name)
            && forall i :: 0 < i < |r| ==>
                 r[i].gap.Some? && r[i].gap.value == Points(sorted[0]) - Points(sorted[i])
  {
  }

  lemma CategoryFilterCounts(ps: seq<Pilot>, cat: string)
    ensures var f := Seqs.Filter(ps, InCategory(cat));
            (forall q :: multiset(f)[q] == if q.category == cat then multiset(ps)[q] else 0)
            && forall q :: q in f <==> q in ps && q.category == cat
  {
    assert forall q :: InCategory(cat)(q) == (q.category == cat);
  }

  /** The head of a list ordered by points has the most points of the list. */
  lemma LeaderHasMost(order: seq<Pilot>)
    requires order != []
    requires forall i, j :: 0 <= i < j < |order| ==> Points(order[i]) >= Points(order[j])
    ensures forall p :: p in order ==> Points(p) <= Points(order[0])
  {
    forall p | p in order ensures Points(p) <= Points(order[0]) {
      var k :| 0 <= k < |order| && order[k] == p;
      if k > 0 {
        assert Points(order[0]) >= Points(order[k]);
      }
    }
  }

  /** `exportOfficialResults`: an empty category exports nothing and logs nothing. */
  method ExportOfficialResults(store: LocalStore, cat: string, session: string, logId: string,
                               now: int)
    returns (rows: Option<seq<ClassifiedRow>>)
    modifies store
    ensures rows.None? <==> ClassifiedRows(old(store.Pilots()), cat) == []
    ensures rows.Some? ==> rows.value == ClassifiedRows(old(store.Pilots()), cat)
    ensures rows.None? ==> store.State() == old(store.State())
    ensures rows.Some? ==> store.State() == old(store.State()).(
              logs := Some(LogAfter(old(store.AuditLogs()), LogEntry(logId, now, old(store.auth),
                        "ADMIN", "Exportada Clasificación Oficial: " + cat + " - " + session))))
  {
    var categoryPilots := ClassifiedRows(store.Pilots(), cat);
    if categoryPilots == [] {
      return None;
    }
    store.AddLog("ADMIN", "Exportada Clasificación Oficial: " + cat + " - " + session, logId, now);
    rows := Some(categoryPilots);
  }

  /** `addChampionToForm`: a winner needs a category and a pilot, and goes last. */
  function AddChampion(champions: Option<seq<Champion>>, winner: Champion)
    : (r: Option<seq<Champion>>)
    ensures r.None? <==> winner.category == "" || winner.pilot == ""
    ensures r.Some? ==> |r.value| > 0 && r.value[|r.value| - 1] == winner
                        && r.value[..|r.value| - 1] == champions.GetOr([])
  {
    if winner.category == "" || winner.pilot == "" then None
    else Some(champions.GetOr([]) + [winner])
  }
}
