/** The compiled-in seed data the store falls back to when a key was never written. Long
    texts are written as concatenations of short literals, which denote the same strings. */
module Seeds {
  import opened Wrappers
  import opened Types

  /** The eight racing categories, in the order every report lists them. */
  function InitialCategories(): (r: seq<string>)
    ensures |r| == 8
    ensures forall i, j :: 0 <= i < j < |r| ==> r[i] != r[j]
    ensures r[0] == "KDO Power" && r[7] == "Escuela"
  {
    ["KDO Power", "Supermaster", "Máster", "Clase 3", "Clase 2", "Clase 1", "Menores", "Escuela"]
  }

  function SeedAssociation(): string {
    "KDO Kart Disciplina Oficial"
  }

  function SeedPilot(id: string, number: string, name: string, category: string, ranking: int,
                     lastUpdated: string, createdAt: int, licence: string, sports: string,
                     conduct: int, wins: int, podiums: int, poles: int, points: real): Pilot
  {
    Pilot(id, number, name, category, Confirmado, ranking, licence, sports, "TX-" + licence,
          conduct, lastUpdated, createdAt, Stats(wins, podiums, poles, Some(points)),
          None, None, Some(SeedAssociation()))
  }

  /** The seed roster: four confirmed pilots of the KDO association. */
  function InitialPilots(): (r: seq<Pilot>)
    ensures |r| == 4
  {
    [ SeedPilot("1", "1", "JUAN ACOSTA", "KDO Power", 1, "2026-05-01", 1714560000000,
                "1001", "2001", 10, 5, 10, 2, 145.5),
      SeedPilot("2", "2", "PEDRO RAMIREZ", "KDO Power", 2, "2026-05-01", 1714563600000,
                "1002", "2002", 9, 2, 8, 1, 112.0),
      SeedPilot("3", "8", "FRANCISCO PEROYE", "Supermaster", 1, "2026-05-01", 1714567200000,
                "1003", "2003", 10, 4, 7, 4, 130.5),
      SeedPilot("4", "12", "MARTIN GARCIA", "KDO Power", 3, "2026-05-02", 1714646400000,
                "1004", "2004", 10, 1, 4, 0, 88.0) ]
  }

  /** The seed roster already satisfies the roster's uniqueness rules: distinct ids,
      distinct kart number per category, distinct medical licences. */
  lemma InitialPilotsDistinct()
    ensures IdsDistinct(InitialPilots())
    ensures NumbersUniquePerCategory(InitialPilots())
    ensures LicencesDistinct(InitialPilots())
  {
    var ps := InitialPilots();
    assert ps[0].id == "1" && ps[1].id == "2" && ps[2].id == "3" && ps[3].id == "4";
    assert ps[0].number == "1" && ps[1].number == "2" && ps[2].number == "8" && ps[3].number == "12";
    assert ps[0].medicalLicense == "1001" && ps[1].medicalLicense == "1002";
    assert ps[2].medicalLicense == "1003" && ps[3].medicalLicense == "1004";
  }

  /** Every seed pilot is confirmed, in a known category, with conduct points in 0..10. */
  lemma InitialPilotsInRange()
    ensures forall i :: 0 <= i < 4 ==> InitialPilots()[i].category in InitialCategories()
    ensures forall i :: 0 <= i < 4 ==> 0 <= InitialPilots()[i].conductPoints <= 10
    ensures forall i :: 0 <= i < 4 ==> InitialPilots()[i].status == Confirmado
  {
  }

  function SeedEvent(id: string, round: int, name: string, date: string, track: string,
                     status: EventStatus): ChampionshipEvent
  {
    ChampionshipEvent(id, round, name, date, track, status, None, None)
  }

  /** The ten rounds of the 2026 calendar. */
  function InitialEvents(): (r: seq<ChampionshipEvent>)
    ensures |r| == 10
  {
    [ SeedEvent("e1", 1, "Gran Premio Apertura", "08/03/2026", "Kartódromo Chivilcoy", Finalizada),
      SeedEvent("e2", 2, "Copa Ciudad de Salto", "05/04/2026", "Circuito El Bosque", Finalizada),
      SeedEvent("e3", 3, "GP Homenaje Pilotos", "03/05/2026", "Kartódromo Chacabuco", Finalizada),
      SeedEvent("e4", 4, "Desafío de la Tierra", "07/06/2026", "Kartódromo Chivilcoy", Proxima),
      SeedEvent("e5", 5, "Especial con Invitados", "05/07/2026", "Circuito El Bosque", Programada),
      SeedEvent("e6", 6, "Copa Invierno KDO", "02/08/2026", "Kartódromo Chacabuco", Programada),
      SeedEvent("e7", 7, "GP Primavera", "06/09/2026", "Kartódromo Chivilcoy", Programada),
      SeedEvent("e8", 8, "Pre-Coronación", "04/10/2026", "Circuito El Bosque", Programada),
      SeedEvent("e9", 9, "GP Coronación Parte I", "08/11/2026", "Kartódromo Chacabuco", Programada),
      SeedEvent("e10", 10, "Gran Final 2026", "06/12/2026", "Kartódromo Chivilcoy", Programada) ]
  }

  /** The rounds are numbered 1 to 10 in calendar order, under distinct ids. */
  lemma InitialEventsNumbered()
    ensures forall i, j :: 0 <= i < j < 10 ==> InitialEvents()[i].id != InitialEvents()[j].id
    ensures forall i :: 0 <= i < 10 ==> InitialEvents()[i].round == i + 1
  {
  }

  /** The one seed championship, holding the 2026 calendar. */
  function InitialChampionships(): (r: seq<Championship>)
    ensures |r| == 1 && r[0].id == "c1"
    ensures r[0].events == Some(InitialEvents())
  {
    [ Championship("c1", "Campeonato Oficial KDO 2026", "En curso", "Marzo - Diciembre 2026",
                   "Chivilcoy, Salto, Chacabuco",
                   "https://images.unsplash.com/photo-1547631618-f29792042761?w=800&auto=format",
                   2026, Some(InitialEvents()), None) ]
  }

  function InitialCircuits(): seq<Circuit> {
    [ Circuit("ci1", "Kartódromo KDO Chivilcoy", "Chivilcoy, Buenos Aires", "1.100 mts",
              "https://s11.aconvert.com/convert/p3r68-cdx67/13ion-ed12c.webp",
              "Referente de Kart Disciplina Oficial en suelo de tierra.",
              ["Superficie: Tierra Compactada", "Trazado Técnico", "Boxes KDO"],
              Some("Seco"), Some("107"), Some([])) ]
  }

  function InitialAssociations(): seq<Association> {
    [ Association("assoc1", "Kart Disciplina Oficial (KDO)",
                  "Entidad oficial de fiscalización y fomento del karting.", ["ci1"]) ]
  }

  datatype RegistrationLink = RegistrationLink(category: string, url: string)

  /** `INITIAL_CATEGORIES.map(cat => ({ category: cat, url: '#' }))`: one placeholder link
      per category, in category order. */
  function InitialRegistrationLinks(): (r: seq<RegistrationLink>)
    ensures |r| == |InitialCategories()|
    ensures forall i :: 0 <= i < |r| ==> r[i].category == InitialCategories()[i]
    ensures forall i :: 0 <= i < |r| ==> r[i].url == "#"
  {
    var cats := InitialCategories();
    seq(|cats|, i requires 0 <= i < |cats| => RegistrationLink(cats[i], "#"))
  }
}
