/** The records the portal keeps in browser storage, and the closed sets of labels some of
    their fields take. Each label set is a datatype with the stored label of each value and
    the inverse reading of a label. */
module Types {
  import opened Wrappers

  /** A pilot's registration status. */
  datatype Status = Confirmado | Pendiente | Baja {
    function Label(): (r: string)
      ensures r in StatusLabels
    {
      match this
      case Confirmado => "Confirmado"
      case Pendiente => "Pendiente"
      case Baja => "Baja"
    }
  }

  const StatusLabels: seq<string> := ["Confirmado", "Pendiente", "Baja"]

  function StatusOf(s: string): (r: Option<Status>)
    ensures r.Some? <==> s in StatusLabels
    ensures r.Some? ==> r.value.Label() == s
  {
    if s == "Confirmado" then Some(Confirmado)
    else if s == "Pendiente" then Some(Pendiente)
    else if s == "Baja" then Some(Baja)
    else None
  }

  /** Every status reads back from its label, so the three labels name three different
      statuses and the set is closed. */
  lemma StatusRoundTrip(st: Status)
    ensures StatusOf(st.Label()) == Some(st)
  {
  }

  /** The flag shown on the track. */
  datatype TrackFlag = Verde | Amarilla | Roja | Azul | Cuadros {
    function Label(): (r: string)
      ensures r in TrackFlagLabels
    {
      match this
      case Verde => "Verde"
      case Amarilla => "Amarilla"
      case Roja => "Roja"
      case Azul => "Azul"
      case Cuadros => "Cuadros"
    }
  }

  const TrackFlagLabels: seq<string> := ["Verde", "Amarilla", "Roja", "Azul", "Cuadros"]

  function TrackFlagOf(s: string): (r: Option<TrackFlag>)
    ensures r.Some? <==> s in TrackFlagLabels
    ensures r.Some? ==> r.value.Label() == s
  {
    if s == "Verde" then Some(Verde)
    else if s == "Amarilla" then Some(Amarilla)
    else if s == "Roja" then Some(Roja)
    else if s == "Azul" then Some(Azul)
    else if s == "Cuadros" then Some(Cuadros)
    else None
  }

  lemma TrackFlagRoundTrip(f: TrackFlag)
    ensures TrackFlagOf(f.Label()) == Some(f)
  {
  }

  datatype UserRole = SuperAdmin | ComisarioDeportivo | EscrutadorTecnico | Secretario | Prensa {
    function Label(): string {
      match this
      case SuperAdmin => "SuperAdmin"
      case ComisarioDeportivo => "Comisario Deportivo"
      case EscrutadorTecnico => "Escrutador Técnico"
      case Secretario => "Secretario"
      case Prensa => "Prensa"
    }
  }

  datatype AdminUser = AdminUser(
    id: string,
    username: string,
    password: Option<string>,
    role: UserRole,
    name: string,
    lastLogin: Option<int>,
    permissions: seq<string>)

  /** The state of one round of a championship. */
  datatype EventStatus = Programada | EnCurso | Finalizada | Suspendida | Proxima {
    function Label(): (r: string)
      ensures r in EventStatusLabels
    {
      match this
      case Programada => "Programada"
      case EnCurso => "En curso"
      case Finalizada => "Finalizada"
      case Suspendida => "Suspendida"
      case Proxima => "Próxima"
    }
  }

  const EventStatusLabels: seq<string> :=
    ["Programada", "En curso", "Finalizada", "Suspendida", "Próxima"]

  function EventStatusOf(s: string): (r: Option<EventStatus>)
    ensures r.Some? <==> s in EventStatusLabels
    ensures r.Some? ==> r.value.Label() == s
  {
    if s == "Programada" then Some(Programada)
    else if s == "En curso" then Some(EnCurso)
    else if s == "Finalizada" then Some(Finalizada)
    else if s == "Suspendida" then Some(Suspendida)
    else if s == "Próxima" then Some(Proxima)
    else None
  }

  lemma EventStatusRoundTrip(st: EventStatus)
    ensures EventStatusOf(st.Label()) == Some(st)
  {
  }

  datatype ChampionshipEvent = ChampionshipEvent(
    id: string,
    round: int,
    name: string,
    date: string,
    track: string,
    status: EventStatus,
    briefingSigned: Option<seq<string>>,
    technicalScrutiny: Option<map<string, bool>>)

  datatype Champion = Champion(category: string, pilot: string, kart: string)

  datatype Championship = Championship(
    id: string,
    name: string,
    status: string,
    dates: string,
    tracks: string,
    image: string,
    year: int,
    events: Option<seq<ChampionshipEvent>>,
    champions: Option<seq<Champion>>)

  datatype CircuitRecord = CircuitRecord(category: string, pilot: string, time: string, date: string)

  datatype Circuit = Circuit(
    id: string,
    name: string,
    location: string,
    length: string,
    image: string,
    description: string,
    features: seq<string>,
    surfaceStatus: Option<string>,
    emergencyPhone: Option<string>,
    records: Option<seq<CircuitRecord>>)

  /** A pilot's season statistics: `points` is the one optional field. */
  datatype Stats = Stats(wins: int, podiums: int, poles: int, points: Option<real>)

  datatype Pilot = Pilot(
    id: string,
    number: string,
    name: string,
    category: string,
    status: Status,
    ranking: int,
    medicalLicense: string,
    sportsLicense: string,
    transponderId: string,
    conductPoints: int,
    lastUpdated: string,
    createdAt: int,
    stats: Stats,
    bloodType: Option<string>,
    emergencyContact: Option<string>,
    association: Option<string>)

  function PilotId(p: Pilot): string {
    p.id
  }

  /** `p => p.category === cat`. */
  function InCategory(cat: string): Pilot -> bool {
    (p: Pilot) => p.category == cat
  }

  /** `p.stats?.points || 0`: the points used to order standings. */
  function Points(p: Pilot): (r: real)
    ensures p.stats.points.Some? ==> r == p.stats.points.value
    ensures p.stats.points.None? ==> r == 0.0
  {
    p.stats.points.GetOr(0.0)
  }

  datatype SystemSettings = SystemSettings(
    paddockTicker: string,
    maintenanceMode: bool,
    registrationsOpen: bool,
    activeVoting: Option<bool>,
    weatherInfo: Option<string>,
    liveTimingUrl: string,
    useLocalOrbits: Option<bool>,
    orbitsIp: Option<string>)

  datatype AuditLog = AuditLog(
    id: string,
    timestamp: int,
    admin: string,
    action: string,
    details: string,
    ip: Option<string>)

  datatype RegulationCategory = Tecnico | Deportivo | Calendario | Anexo | Circular {
    function Label(): (r: string)
      ensures r in RegulationCategoryLabels
    {
      match this
      case Tecnico => "Técnico"
      case Deportivo => "Deportivo"
      case Calendario => "Calendario"
      case Anexo => "Anexo"
      case Circular => "Circular"
    }
  }

  const RegulationCategoryLabels: seq<string> :=
    ["Técnico", "Deportivo", "Calendario", "Anexo", "Circular"]

  datatype Regulation = Regulation(
    id: string,
    title: string,
    description: string,
    category: RegulationCategory,
    version: string,
    date: string,
    fileSize: string,
    fileData: string,
    isDraft: bool)

  datatype PressCategory = Oficial | PrensaNota | Urgente {
    function Label(): string {
      match this
      case Oficial => "Oficial"
      case PrensaNota => "Prensa"
      case Urgente => "Urgente"
    }
  }

  datatype PressRelease = PressRelease(
    id: string,
    title: string,
    content: string,
    date: string,
    author: string,
    category: PressCategory)

  datatype Association = Association(
    id: string,
    name: string,
    description: string,
    circuitIds: seq<string>)

  datatype PenaltyType =
    | Exclusion | Recargo5s | Recargo10s | Recargo20s | RecargoPuesto | Sancion
  {
    function Label(): (r: string)
      ensures r in PenaltyTypeLabels
    {
      match this
      case Exclusion => "Exclusión"
      case Recargo5s => "Recargo 5s"
      case Recargo10s => "Recargo 10s"
      case Recargo20s => "Recargo 20s"
      case RecargoPuesto => "Recargo Puesto"
      case Sancion => "Sanción"
    }
  }

  const PenaltyTypeLabels: seq<string> :=
    ["Exclusión", "Recargo 5s", "Recargo 10s", "Recargo 20s", "Recargo Puesto", "Sanción"]

  function PenaltyTypeOf(s: string): (r: Option<PenaltyType>)
    ensures r.Some? <==> s in PenaltyTypeLabels
    ensures r.Some? ==> r.value.Label() == s
  {
    if s == "Exclusión" then Some(Exclusion)
    else if s == "Recargo 5s" then Some(Recargo5s)
    else if s == "Recargo 10s" then Some(Recargo10s)
    else if s == "Recargo 20s" then Some(Recargo20s)
    else if s == "Recargo Puesto" then Some(RecargoPuesto)
    else if s == "Sanción" then Some(Sancion)
    else None
  }

  lemma PenaltyTypeRoundTrip(t: PenaltyType)
    ensures PenaltyTypeOf(t.Label()) == Some(t)
  {
  }

  /** `type` is a Dafny keyword, so the field is `kind`. */
  datatype Penalty = Penalty(
    id: string,
    pilotId: string,
    pilotName: Option<string>,
    number: Option<string>,
    category: string,
    kind: PenaltyType,
    reason: string,
    points: Option<real>,
    date: string)

  datatype MarketCategory = KartCompleto | Motor | Repuestos | Indumentaria {
    function Label(): string {
      match this
      case KartCompleto => "Kart Completo"
      case Motor => "Motor"
      case Repuestos => "Repuestos"
      case Indumentaria => "Indumentaria"
    }
  }

  datatype Condition = Nuevo | Usado

  datatype MarketplaceItem = MarketplaceItem(
    id: string,
    title: string,
    price: string,
    category: MarketCategory,
    condition: Condition,
    image: string,
    contact: string)

  /** No two pilots of the roster share an id. */
  predicate IdsDistinct(ps: seq<Pilot>) {
    forall i, j :: 0 <= i < j < |ps| ==> ps[i].id != ps[j].id
  }

  /** No two pilots of the roster share a kart number inside one category. */
  predicate NumbersUniquePerCategory(ps: seq<Pilot>) {
    forall i, j :: 0 <= i < j < |ps| && ps[i].number == ps[j].number ==>
      ps[i].category != ps[j].category
  }

  /** No two pilots of the roster hold the same medical licence. */
  predicate LicencesDistinct(ps: seq<Pilot>) {
    forall i, j :: 0 <= i < j < |ps| ==> ps[i].medicalLicense != ps[j].medicalLicense
  }
}
