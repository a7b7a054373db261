/** The browser-storage service: one storage key per collection, read back with a seed
    fallback when the key was never written. The store is a class holding one optional value
    per key (`None` is a key that was never written or was removed); getters are functions
    that supply the fallback, and every saver overwrites exactly one key. Values are kept as
    typed values: the JSON encoding in between is taken to round-trip. */
module Storage {
  import opened Wrappers
  import opened Types
  import opened Seeds
  import Seqs

  /** The audit log keeps at most this many entries. */
  const LogCapacity: nat := 100

  /** The administrator list used while none was ever saved: the one SuperAdmin account. */
  function DefaultAdmins(): (r: seq<AdminUser>)
    ensures |r| == 1
    ensures r[0].id == "admin-1" && r[0].role == SuperAdmin && r[0].username == "admin"
  {
    [ AdminUser("admin-1", "admin", Some("admin123"), SuperAdmin, "Director General KDO", None,
                ["READ", "WRITE", "ADMIN"]) ]
  }

  function DefaultSettings(): (r: SystemSettings)
    ensures !r.maintenanceMode && r.registrationsOpen && r.activeVoting == Some(true)
  {
    SystemSettings("BIENVENIDOS A LA TEMPORADA 2026 - KDO OFICIAL", false, true, Some(true), None,
                   "", None, None)
  }

  function DefaultPressReleases(): (r: seq<PressRelease>)
    ensures |r| == 1 && r[0].id == "news-1" && r[0].category == Oficial
  {
    [ PressRelease("news-1", "Lanzamiento Portal KDO 2026",
                   "Iniciamos una nueva era tecnológica en el karting regional. Padrón digital e inscripciones inteligentes.",
                   "01/01/2026", "Prensa KDO", Oficial) ]
  }

  function SeedPenalty(id: string, pilotId: string, name: string, number: string, category: string,
                       kind: PenaltyType, reason: string, points: Option<real>): Penalty
  {
    Penalty(id, pilotId, Some(name), Some(number), category, kind, reason, points, "08/03/2026")
  }

  /** The penalties shown while none was ever saved: one of each of the six kinds. */
  function DefaultPenalties(): (r: seq<Penalty>)
    ensures |r| == 6
    ensures forall t: PenaltyType :: r[KindIndex(t)].kind == t
    ensures forall i, j :: 0 <= i < j < |r| ==> r[i].kind != r[j].kind
  {
    var r := [
      SeedPenalty("p1", "1", "JUAN ACOSTA", "1", "KDO Power", Exclusion,
                  "Técnica: Peso inferior al reglamentario", None),
      SeedPenalty("p2", "2", "PEDRO RAMIREZ", "2", "KDO Power", Recargo5s,
                  "Maniobra peligrosa en Curva 1", None),
      SeedPenalty("p3", "3", "FRANCISCO PEROYE", "8", "Supermaster", Recargo10s,
                  "Adelantamiento con bandera amarilla", None),
      SeedPenalty("p4", "4", "MARTIN GARCIA", "12", "KDO Power", Recargo20s,
                  "Exceso de velocidad en boxes", None),
      SeedPenalty("p5", "5", "LUCAS GONZALEZ", "22", "Clase 3", RecargoPuesto,
                  "Toque y ganancia de posición (Devolución pendiente)", None),
      SeedPenalty("p6", "6", "MATEO LOPEZ", "99", "Escuela", Sancion,
                  "Conducta antideportiva en parque cerrado", Some(5.0)) ];
    EveryKindSeeded(r);
    r
  }

  /** Where each penalty kind sits in the seeded list. */
  function KindIndex(t: PenaltyType): (k: nat)
    ensures k < 6
  {
    match t
    case Exclusion => 0
    case Recargo5s => 1
    case Recargo10s => 2
    case Recargo20s => 3
    case RecargoPuesto => 4
    case Sancion => 5
  }

  lemma EveryKindSeeded(r: seq<Penalty>)
    requires |r| == 6
    requires r[0].kind == Exclusion && r[1].kind == Recargo5s && r[2].kind == Recargo10s
    requires r[3].kind == Recargo20s && r[4].kind == RecargoPuesto && r[5].kind == Sancion
    ensures forall t: PenaltyType :: r[KindIndex(t)].kind == t
  {
    forall t: PenaltyType ensures r[KindIndex(t)].kind == t {
      match t
      case Exclusion =>
      case Recargo5s =>
      case Recargo10s =>
      case Recargo20s =>
      case RecargoPuesto =>
      case Sancion =>
    }
  }

  /** `getCircuits()`: the compiled-in circuit list (never stored). */
  function Circuits(): seq<Circuit> {
    InitialCircuits()
  }

  /** `getCategories()`: the compiled-in category list (never stored). */
  function Categories(): seq<string> {
    InitialCategories()
  }

  /** `auth?.username || 'SYSTEM'`: who an audit entry is attributed to. */
  function LogAdmin(auth: Option<AdminUser>): (r: string)
    ensures r != ""
    ensures auth.Some? && auth.value.username != "" ==> r == auth.value.username
    ensures auth.None? || auth.value.username == "" ==> r == "SYSTEM"
  {
    if auth.Some? && auth.value.username != "" then auth.value.username else "SYSTEM"
  }

  /** The entry `addLog(action, details)` writes while `auth` holds the session. */
  function LogEntry(id: string, timestamp: int, auth: Option<AdminUser>, action: string,
                    details: string): AuditLog
  {
    AuditLog(id, timestamp, LogAdmin(auth), action, details, None)
  }

  /** `[entry, ...logs].slice(0, 100)`: the entry goes first and the log keeps at most
      `LogCapacity` entries; what follows the entry is the newest part of the old log. */
  function LogAfter(logs: seq<AuditLog>, entry: AuditLog): (r: seq<AuditLog>)
    ensures |r| == Min(|logs| + 1, LogCapacity)
    ensures r[0] == entry
    ensures r[1..] == logs[..|r| - 1]
  {
    var r := Seqs.Take([entry] + logs, LogCapacity);
    assert r[1..] == ([entry] + logs)[1..|r|];
    r
  }

  /** An entry written to a full log pushes out exactly the oldest one. */
  lemma LogAfterFull(logs: seq<AuditLog>, entry: AuditLog)
    requires |logs| == LogCapacity
    ensures LogAfter(logs, entry) == [entry] + logs[..LogCapacity - 1]
  {
    var r := LogAfter(logs, entry);
    assert r == [r[0]] + r[1..];
  }

  /** `votes[id] || 0`. */
  function VoteCount(votes: map<string, int>, id: string): int {
    if id in votes then votes[id] else 0
  }

  /** `votes[id] = (votes[id] || 0) + 1`: one more vote for `id`, every other count as it was. */
  function Voted(votes: map<string, int>, id: string): (r: map<string, int>)
    ensures VoteCount(r, id) == VoteCount(votes, id) + 1
    ensures forall k :: k != id ==> VoteCount(r, k) == VoteCount(votes, k)
    ensures r.Keys == votes.Keys + {id}
  {
    votes[id := VoteCount(votes, id) + 1]
  }

  /** Everything the store holds, one optional value per storage key. */
  datatype Snapshot = Snapshot(
    pilots: Option<seq<Pilot>>,
    settings: Option<SystemSettings>,
    logs: Option<seq<AuditLog>>,
    track: Option<TrackFlag>,
    auth: Option<AdminUser>,
    admins: Option<seq<AdminUser>>,
    regulations: Option<seq<Regulation>>,
    championships: Option<seq<Championship>>,
    news: Option<seq<PressRelease>>,
    votes: Option<map<string, int>>,
    penalties: Option<seq<Penalty>>,
    marketplace: Option<seq<MarketplaceItem>>)

  class LocalStore {
    var pilots: Option<seq<Pilot>>
    var settings: Option<SystemSettings>
    var logs: Option<seq<AuditLog>>
    var track: Option<TrackFlag>
    var auth: Option<AdminUser>
    var admins: Option<seq<AdminUser>>
    var regulations: Option<seq<Regulation>>
    var championships: Option<seq<Championship>>
    var news: Option<seq<PressRelease>>
    var votes: Option<map<string, int>>
    var penalties: Option<seq<Penalty>>
    var marketplace: Option<seq<MarketplaceItem>>

    function State(): Snapshot
      reads this
    {
      Snapshot(pilots, settings, logs, track, auth, admins, regulations, championships, news,
               votes, penalties, marketplace)
    }

    /** A browser in which nothing was ever written. */
    constructor ()
      ensures State() == Snapshot(None, None, None, None, None, None, None, None, None, None,
                                  None, None)
    {
      pilots, settings, logs, track := None, None, None, None;
      auth, admins, regulations, championships := None, None, None, None;
      news, votes, penalties, marketplace := None, None, None, None;
    }

    /** `getPilots()`: the saved roster, or the seed roster when none was ever saved. */
    function Pilots(): (r: seq<Pilot>)
      reads this
      ensures pilots.None? ==> r == InitialPilots()
      ensures pilots.Some? ==> r == pilots.value
    {
      pilots.GetOr(InitialPilots())
    }

    method SavePilots(ps: seq<Pilot>)
      modifies this
      ensures State() == old(State()).(pilots := Some(ps))
      ensures Pilots() == ps
    {
      pilots := Some(ps);
    }

    function Settings(): (r: SystemSettings)
      reads this
      ensures settings.None? ==> r == DefaultSettings()
      ensures settings.Some? ==> r == settings.value
    {
      settings.GetOr(DefaultSettings())
    }

    method SaveSettings(s: SystemSettings)
      modifies this
      ensures State() == old(State()).(settings := Some(s))
      ensures Settings() == s
    {
      settings := Some(s);
    }

    function AuditLogs(): (r: seq<AuditLog>)
      reads this
      ensures logs.None? ==> r == []
      ensures logs.Some? ==> r == logs.value
    {
      logs.GetOr([])
    }

    /** `addLog(action, details)`; the random id and the clock reading are parameters. The
        entry is attributed to the session user, or to SYSTEM, and goes first in a log capped
        at `LogCapacity` entries. */
    method AddLog(action: string, details: string, id: string, timestamp: int)
      modifies this
      ensures State() == old(State()).(logs := Some(LogAfter(old(AuditLogs()),
                LogEntry(id, timestamp, old(auth), action, details))))
      ensures 1 <= |AuditLogs()| <= LogCapacity
      ensures AuditLogs()[0] == AuditLog(id, timestamp, LogAdmin(auth), action, details, None)
      ensures AuditLogs()[1..] == old(AuditLogs())[..|AuditLogs()| - 1]
    {
      var entry := AuditLog(id, timestamp, LogAdmin(auth), action, details, None);
      logs := Some(LogAfter(AuditLogs(), entry));
    }

    /** `getTrackStatus()`: the saved flag, green when none was ever saved. */
    function TrackStatus(): (r: TrackFlag)
      reads this
      ensures track.None? ==> r == Verde
      ensures track.Some? ==> r == track.value
    {
      track.GetOr(Verde)
    }

    method SaveTrackStatus(f: TrackFlag)
      modifies this
      ensures State() == old(State()).(track := Some(f))
      ensures TrackStatus() == f
    {
      track := Some(f);
    }

    /** `getAuth()`: the session slot. */
    function Auth(): Option<AdminUser>
      reads this
    {
      auth
    }

    /** `setAuth(user)`: writes the session, or removes it when `user` is null. */
    method SetAuth(user: Option<AdminUser>)
      modifies this
      ensures State() == old(State()).(auth := user)
      ensures Auth() == user
    {
      auth := user;
    }

    function AdminUsers(): (r: seq<AdminUser>)
      reads this
      ensures admins.None? ==> r == DefaultAdmins()
      ensures admins.Some? ==> r == admins.value
    {
      admins.GetOr(DefaultAdmins())
    }

    method SaveAdminUsers(users: seq<AdminUser>)
      modifies this
      ensures State() == old(State()).(admins := Some(users))
      ensures AdminUsers() == users
    {
      admins := Some(users);
    }

    function Regulations(): (r: seq<Regulation>)
      reads this
      ensures regulations.None? ==> r == []
      ensures regulations.Some? ==> r == regulations.value
    {
      regulations.GetOr([])
    }

    method SaveRegulations(regs: seq<Regulation>)
      modifies this
      ensures State() == old(State()).(regulations := Some(regs))
      ensures Regulations() == regs
    {
      regulations := Some(regs);
    }

    function Championships(): (r: seq<Championship>)
      reads this
      ensures championships.None? ==> r == InitialChampionships()
      ensures championships.Some? ==> r == championships.value
    {
      championships.GetOr(InitialChampionships())
    }

    method SaveChampionships(champs: seq<Championship>)
      modifies this
      ensures State() == old(State()).(championships := Some(champs))
      ensures Championships() == champs
    {
      championships := Some(champs);
    }

    function PressReleases(): (r: seq<PressRelease>)
      reads this
      ensures news.None? ==> r == DefaultPressReleases()
      ensures news.Some? ==> r == news.value
    {
      news.GetOr(DefaultPressReleases())
    }

    method SavePressReleases(items: seq<PressRelease>)
      modifies this
      ensures State() == old(State()).(news := Some(items))
      ensures PressReleases() == items
    {
      news := Some(items);
    }

    function Penalties(): (r: seq<Penalty>)
      reads this
      ensures penalties.None? ==> r == DefaultPenalties()
      ensures penalties.Some? ==> r == penalties.value
    {
      penalties.GetOr(DefaultPenalties())
    }

    method SavePenalties(items: seq<Penalty>)
      modifies this
      ensures State() == old(State()).(penalties := Some(items))
      ensures Penalties() == items
    {
      penalties := Some(items);
    }

    function Marketplace(): (r: seq<MarketplaceItem>)
      reads this
      ensures marketplace.None? ==> r == []
      ensures marketplace.Some? ==> r == marketplace.value
    {
      marketplace.GetOr([])
    }

    method SaveMarketplace(items: seq<MarketplaceItem>)
      modifies this
      ensures State() == old(State()).(marketplace := Some(items))
      ensures Marketplace() == items
    {
      marketplace := Some(items);
    }

    /** The vote counts, `{}` when none was ever cast. */
    function Votes(): (r: map<string, int>)
      reads this
      ensures votes.None? ==> r == map[]
      ensures votes.Some? ==> r == votes.value
    {
      votes.GetOr(map[])
    }

    /** `castVote(pilotId)`: one more vote for that pilot, every other count unchanged. */
    method CastVote(pilotId: string)
      modifies this
      ensures State() == old(State()).(votes := Some(Voted(old(Votes()), pilotId)))
      ensures VoteCount(Votes(), pilotId) == VoteCount(old(Votes()), pilotId) + 1
      ensures forall k :: k != pilotId ==> VoteCount(Votes(), k) == VoteCount(old(Votes()), k)
    {
      votes := Some(Voted(Votes(), pilotId));
    }
  }

  /** A key never written reads as the seed roster, while a roster saved empty reads as
      empty: the store tells "written empty" from "never written". */
  method NeverWrittenThenWrittenEmpty() returns (before: seq<Pilot>, after: seq<Pilot>)
    ensures before == InitialPilots() && |before| == 4
    ensures after == []
  {
    var store := new LocalStore();
    before := store.Pilots();
    store.SavePilots([]);
    after := store.Pilots();
  }

  /** Saving a roster and reading it back returns that roster, whatever was there. */
  method SaveThenRead(store: LocalStore, ps: seq<Pilot>) returns (read: seq<Pilot>)
    modifies store
    ensures read == ps
    ensures store.State() == old(store.State()).(pilots := Some(ps))
  {
    store.SavePilots(ps);
    read := store.Pilots();
  }

  /** A session written and read back is that session; after clearing it there is none. */
  method SessionRoundTrip(user: AdminUser) returns (written: Option<AdminUser>, cleared: Option<AdminUser>)
    ensures written == Some(user)
    ensures cleared == None
  {
    var store := new LocalStore();
    store.SetAuth(Some(user));
    written := store.Auth();
    store.SetAuth(None);
    cleared := store.Auth();
  }

  /** The track flag is green until one is saved, then the saved one. */
  method TrackFlagRoundTrip(f: TrackFlag) returns (before: TrackFlag, after: TrackFlag)
    ensures before == Verde
    ensures after == f
  {
    var store := new LocalStore();
    before := store.TrackStatus();
    store.SaveTrackStatus(f);
    after := store.TrackStatus();
  }

  /** A store with no saved administrators lists exactly the SuperAdmin `admin-1`. */
  method FreshAdmins() returns (users: seq<AdminUser>)
    ensures |users| == 1 && users[0].id == "admin-1" && users[0].role == SuperAdmin
  {
    var store := new LocalStore();
    users := store.AdminUsers();
  }

  /** The first vote ever cast for a pilot makes its count 1 and creates no other count. */
  method FirstVote(pilotId: string) returns (votes: map<string, int>)
    ensures votes == map[pilotId := 1]
  {
    var store := new LocalStore();
    store.CastVote(pilotId);
    votes := store.Votes();
  }

  /** Logging without a session attributes the entry to SYSTEM; with a session, to its user. */
  method LogAttribution(user: AdminUser, action: string, details: string, id: string, t: int)
    returns (anonymous: string, signed: string)
    requires user.username != ""
    ensures anonymous == "SYSTEM"
    ensures signed == user.username
  {
    var store := new LocalStore();
    store.AddLog(action, details, id, t);
    anonymous := store.AuditLogs()[0].admin;
    store.SetAuth(Some(user));
    store.AddLog(action, details, id, t);
    signed := store.AuditLogs()[0].admin;
  }
}
